/** Identity resolution over the `mc_dub` session cookie, as values: the
    decoded record, the codec that stores it, the session-id generator, the
    decision `handleCookieData` takes for each state of the cookie, and the
    `customerId` precedence chain of `getCustomerId`. The class that owns the
    cookie store and runs these decisions step by step is `Component.Client`. */
module Identity {
  import opened Js

  /** The decoded cookie: a JSON object whose values are strings. */
  type CookieData = map<string, string>

  const SessionIdKey := "sessionId"
  const CustomerIdKey := "customerId"

  /** Property access `cookieData[key]`: `undefined` for a missing key. */
  function Field(d: CookieData, key: string): Option<string>
  {
    if key in d then Some(d[key]) else None
  }

  /** `encodeURIComponent(JSON.stringify(_))` and
      `JSON.parse(decodeURIComponent(_))`, the second failing (`None`) where it
      would throw. A decoded JSON value that is not an object is seen as the
      empty object: every property read on it is `undefined`. */
  datatype Codec = Codec(encode: CookieData -> string, decode: string -> Option<CookieData>)
  {
    /** What the component relies on: stored text is never empty and reads
        back as the record that was stored. */
    ghost predicate Lawful()
    {
      forall d :: encode(d) != "" && decode(encode(d)) == Some(d)
    }
  }

  // ---------------------------------------------------------------------------
  // Session identifiers (`generateId`)

  /** The version-4 UUID pattern `xxxxxxxx-xxxx-4xxx-yxxx-xxxxxxxxxxxx` that
      `generateId` fills in, written as its five groups. */
  const UuidTemplate := "xxxxxxxx" + "-xxxx" + "-4xxx" + "-yxxx" + "-xxxxxxxxxxxx"

  const HexDigits := "0123456789abcdef"

  /** Number of `x`/`y` placeholders, one random nibble each. */
  function Slots(t: string): nat
  {
    if t == [] then 0 else (if t[0] == 'x' || t[0] == 'y' then 1 else 0) + Slots(t[1..])
  }

  /** `(Math.random() * 16) | 0` is always in 0..15. */
  predicate Nibbles(rs: seq<int>)
  {
    forall i :: 0 <= i < |rs| ==> 0 <= rs[i] < 16
  }

  /** `(r & 0x3) | 0x8`: the UUID variant nibble. */
  function VariantNibble(r: int): (v: int)
    requires 0 <= r < 16
    ensures 8 <= v <= 11 && v % 4 == r % 4
  {
    (((r as bv8) & 0x3) | 0x8) as int
  }

  /** `template.replace(/[xy]/g, ...)`: each placeholder, left to right, takes
      the next nibble, written as a lower-case hex digit. */
  function FillTemplate(t: string, rs: seq<int>): (r: string)
    requires Nibbles(rs) && |rs| == Slots(t)
    ensures |r| == |t|
    ensures forall i :: 0 <= i < |t| && t[i] == 'x' ==> r[i] in HexDigits
    ensures forall i :: 0 <= i < |t| && t[i] == 'y' ==> r[i] in "89ab"
    ensures forall i :: 0 <= i < |t| && t[i] != 'x' && t[i] != 'y' ==> r[i] == t[i]
    decreases t
  {
    if t == [] then []
    else if t[0] == 'x' then [HexDigits[rs[0]]] + FillTemplate(t[1..], rs[1..])
    else if t[0] == 'y' then [HexDigits[VariantNibble(rs[0])]] + FillTemplate(t[1..], rs[1..])
    else [t[0]] + FillTemplate(t[1..], rs)
  }

  lemma {:induction false} SlotsAppend(a: string, b: string)
    ensures Slots(a + b) == Slots(a) + Slots(b)
  {
    if a == [] {
      assert a + b == b;
    } else {
      assert (a + b)[1..] == a[1..] + b;
      SlotsAppend(a[1..], b);
    }
  }

  lemma TemplateSlots()
    ensures Slots(UuidTemplate) == 31
  {
    var g1, g2, g3, g4, g5 := "xxxxxxxx", "-xxxx", "-4xxx", "-yxxx", "-xxxxxxxxxxxx";
    assert Slots(g1) == 8 && Slots(g2) == 4 && Slots(g3) == 3 && Slots(g4) == 4 && Slots(g5) == 12;
    SlotsAppend(g1 + g2 + g3 + g4, g5);
    SlotsAppend(g1 + g2 + g3, g4);
    SlotsAppend(g1 + g2, g3);
    SlotsAppend(g1, g2);
  }

  /** `generateId`: a version-4 UUID string, 36 characters with the version
      digit `4` and a variant digit in `8`..`b`, from 31 random nibbles. */
  function GenerateId(rs: seq<int>): (id: string)
    requires Nibbles(rs) && |rs| == 31
    ensures |id| == 36 && id != ""
    ensures id[8] == '-' && id[13] == '-' && id[18] == '-' && id[23] == '-'
    ensures id[14] == '4' && id[19] in "89ab"
    ensures forall i :: 0 <= i < 36 && UuidTemplate[i] == 'x' ==> id[i] in HexDigits
  {
    TemplateSlots();
    var id := FillTemplate(UuidTemplate, rs);
    assert UuidTemplate[14] == '4' && UuidTemplate[19] == 'y';
    id
  }

  // ---------------------------------------------------------------------------
  // handleCookieData, as a decision on values

  /** The four states the stored cookie can be in. */
  datatype CookieState =
    | Missing                       // no cookie, or `''`
    | Undecodable                   // decoding throws
    | NoSession(data: CookieData)   // decoded, `sessionId` falsy
    | Valid(data: CookieData)       // decoded, `sessionId` truthy

  /** The state of the stored cookie, as the checks of `handleCookieData`
      see it: present and non-empty, decodable, with a truthy `sessionId`. */
  function Classify(codec: Codec, stored: Option<string>): (st: CookieState)
    ensures st == Missing <==> !Truthy(stored)
    ensures st == Undecodable <==> Truthy(stored) && codec.decode(stored.value).None?
    ensures st.Valid? <==>
              && Truthy(stored) && codec.decode(stored.value).Some?
              && Truthy(Field(codec.decode(stored.value).value, SessionIdKey))
    ensures st.NoSession? <==>
              && Truthy(stored) && codec.decode(stored.value).Some?
              && !Truthy(Field(codec.decode(stored.value).value, SessionIdKey))
    ensures st.NoSession? || st.Valid? ==> codec.decode(stored.value) == Some(st.data)
  {
    if !Truthy(stored) then Missing
    else match codec.decode(stored.value)
      case None => Undecodable
      case Some(d) => if Truthy(Field(d, SessionIdKey)) then Valid(d) else NoSession(d)
  }

  /** The `{ sessionId, customerId }` object of `setFreshCookie`; an
      `undefined` customerId is left out, as `JSON.stringify` drops it. */
  function FreshRecord(sessionId: string, customerId: Option<string>): (d: CookieData)
    ensures Field(d, SessionIdKey) == Some(sessionId)
    ensures Field(d, CustomerIdKey) == customerId
    ensures d.Keys <= {SessionIdKey, CustomerIdKey}
  {
    if customerId.Some? then map[SessionIdKey := sessionId, CustomerIdKey := customerId.value]
    else map[SessionIdKey := sessionId]
  }

  /** The record `handleCookieData` returns and the record it writes, if any. */
  datatype Resolution = Resolution(record: CookieData, written: Option<CookieData>)

  /** What `handleCookieData` decides for a stored cookie, the supplied
      customer id and the id the generator would give. */
  function Resolve(codec: Codec, stored: Option<string>, customerId: Option<string>, freshId: string): (res: Resolution)
    ensures res.written.Some? ==> res.written.value == res.record
    ensures freshId != "" ==> Truthy(Field(res.record, SessionIdKey))
    ensures Truthy(customerId) ==> Truthy(Field(res.record, CustomerIdKey))
  {
    var st := Classify(codec, stored);
    if st.Valid? then
      if Truthy(customerId) && !Truthy(Field(st.data, CustomerIdKey)) then
        var updated := st.data[CustomerIdKey := customerId.value];
        Resolution(updated, Some(updated))
      else
        Resolution(st.data, None)
    else
      var minted := FreshRecord(freshId, customerId);
      Resolution(minted, Some(minted))
  }

  /** What the cookie store holds for `mc_dub` after a resolution. */
  function StoredAfter(codec: Codec, stored: Option<string>, res: Resolution): Option<string>
  {
    if res.written.Some? then Some(codec.encode(res.written.value)) else stored
  }

  /** No usable cookie: one fresh record, written once, with the new session
      id, the supplied customer id and no other field; whatever a session-less
      cookie held is dropped. */
  lemma ResolveFresh(codec: Codec, stored: Option<string>, customerId: Option<string>, freshId: string)
    requires !Classify(codec, stored).Valid?
    ensures var res := Resolve(codec, stored, customerId, freshId);
      && res.written == Some(res.record)
      && Field(res.record, SessionIdKey) == Some(freshId)
      && Field(res.record, CustomerIdKey) == customerId
      && res.record.Keys <= {SessionIdKey, CustomerIdKey}
  {
  }

  /** A valid cookie without a truthy customer id gains the supplied one; the
      session id and every other field are kept, and the result is written. */
  lemma ResolveAttach(codec: Codec, stored: Option<string>, customerId: Option<string>, freshId: string)
    requires Classify(codec, stored).Valid?
    requires Truthy(customerId) && !Truthy(Field(Classify(codec, stored).data, CustomerIdKey))
    ensures var d := Classify(codec, stored).data;
            var res := Resolve(codec, stored, customerId, freshId);
      && res.written == Some(res.record)
      && Field(res.record, CustomerIdKey) == customerId
      && Field(res.record, SessionIdKey) == Field(d, SessionIdKey)
      && forall k :: k != CustomerIdKey ==> Field(res.record, k) == Field(d, k)
  {
  }

  /** A valid cookie is left alone when no customer id is supplied or one is
      already stored: nothing is written and the decoded record is returned. */
  lemma ResolveUntouched(codec: Codec, stored: Option<string>, customerId: Option<string>, freshId: string)
    requires Classify(codec, stored).Valid?
    requires !Truthy(customerId) || Truthy(Field(Classify(codec, stored).data, CustomerIdKey))
    ensures Resolve(codec, stored, customerId, freshId) == Resolution(Classify(codec, stored).data, None)
  {
  }

  /** Idempotence: right after a resolution, resolving again with the same
      customer id writes nothing and returns the same record, whatever id the
      generator would give the second time. */
  lemma ResolveIdempotent(codec: Codec, stored: Option<string>, customerId: Option<string>, id1: string, id2: string)
    requires codec.Lawful() && id1 != ""
    ensures var first := Resolve(codec, stored, customerId, id1);
      Resolve(codec, StoredAfter(codec, stored, first), customerId, id2) == Resolution(first.record, None)
  {
    var first := Resolve(codec, stored, customerId, id1);
    var again := StoredAfter(codec, stored, first);
    if first.written.Some? {
      var text := codec.encode(first.record);
      assert codec.encode(first.record) != "" && codec.decode(text) == Some(first.record);
      assert Classify(codec, again) == Valid(first.record);
    } else {
      assert Classify(codec, again) == Valid(first.record);
    }
  }

  // ---------------------------------------------------------------------------
  // getCustomerId

  /** `customerId || customerExternalId || cookieData.customerId ||
      cookieData.sessionId || 'anonymous'`. */
  function CustomerIdChain(customerId: Option<string>, customerExternalId: Option<string>, d: CookieData): (r: string)
    ensures r != ""
    ensures r == "anonymous" || Some(r) in Candidates(customerId, customerExternalId, d)
  {
    OrElse(Or(Or(Or(customerId, customerExternalId), Field(d, CustomerIdKey)), Field(d, SessionIdKey)), "anonymous")
  }

  /** The candidates of the chain, in order of precedence. */
  function Candidates(customerId: Option<string>, customerExternalId: Option<string>, d: CookieData): seq<Option<string>>
  {
    [customerId, customerExternalId, Field(d, CustomerIdKey), Field(d, SessionIdKey)]
  }

  /** The chain yields the first truthy candidate, and `'anonymous'` only when
      all four are falsy; the result is never empty. */
  lemma CustomerIdPrecedence(customerId: Option<string>, customerExternalId: Option<string>, d: CookieData)
    ensures var cs := Candidates(customerId, customerExternalId, d);
            var r := CustomerIdChain(customerId, customerExternalId, d);
      && r != ""
      && (forall i :: 0 <= i < 4 && Truthy(cs[i]) && (forall j :: 0 <= j < i ==> !Truthy(cs[j])) ==> r == cs[i].value)
      && ((forall i :: 0 <= i < 4 ==> !Truthy(cs[i])) ==> r == "anonymous")
  {
    var cs := Candidates(customerId, customerExternalId, d);
    assert cs[0] == customerId && cs[1] == customerExternalId;
    assert cs[2] == Field(d, CustomerIdKey) && cs[3] == Field(d, SessionIdKey);
  }

  /** After `handleCookieData` the record always has a truthy session id, so
      the `'anonymous'` placeholder is never what the chain falls back to: the
      result is one of the four truthy candidates. */
  lemma ResolvedCustomerIdIsCandidate(codec: Codec, stored: Option<string>, customerId: Option<string>,
                                       customerExternalId: Option<string>, freshId: string)
    requires freshId != ""
    ensures var res := Resolve(codec, stored, Or(customerId, customerExternalId), freshId);
            var cs := Candidates(customerId, customerExternalId, res.record);
            var r := CustomerIdChain(customerId, customerExternalId, res.record);
      exists i :: 0 <= i < 4 && Truthy(cs[i]) && r == cs[i].value
  {
    var res := Resolve(codec, stored, Or(customerId, customerExternalId), freshId);
    var cs := Candidates(customerId, customerExternalId, res.record);
    assert Truthy(cs[3]);
    CustomerIdPrecedence(customerId, customerExternalId, res.record);
  }

  /** First contact without any customer id: the customer id is the freshly
      minted session id, and that session id is what gets written. */
  lemma FirstContactUsesSessionId(codec: Codec, stored: Option<string>, customerId: Option<string>,
                                   customerExternalId: Option<string>, freshId: string)
    requires !Truthy(stored) && !Truthy(customerId) && !Truthy(customerExternalId) && freshId != ""
    ensures var res := Resolve(codec, stored, Or(customerId, customerExternalId), freshId);
      && res.written.Some?
      && Field(res.written.value, SessionIdKey) == Some(freshId)
      && CustomerIdChain(customerId, customerExternalId, res.record) == freshId
  {
    var res := Resolve(codec, stored, Or(customerId, customerExternalId), freshId);
    assert !Truthy(Field(res.record, CustomerIdKey));
  }
}
