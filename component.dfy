/** The component at work on one visitor's client: the cookie store it reads
    and writes through `client.get` / `client.set`, `handleCookieData` run step
    by step, and the handlers that build and hand over the outbound records.
    The outbound call itself is replaced by returning the record. */
module Component {
  import opened Js
  import opened Cookie
  import opened Identity
  import opened Events

  const McCookieName := "mc_dub"
  const ClickIdCookieName := "dub_id"
  /** `client.get('cookie')` gives the raw `Cookie` request header. */
  const CookieHeaderKey := "cookie"

  /** One `client.set(key, value, { scope })` call. */
  datatype CookieWrite = CookieWrite(key: string, value: string, scope: string)

  /** What a handler hands to the tracking API. */
  datatype Call = LeadCall(lead: LeadRecord) | SaleCall(sale: SaleRecord) | NoCall

  /** The writes a resolution makes: none, or the record, encoded, with
      `scope: 'infinite'`. */
  function WritesOf(codec: Codec, res: Resolution): seq<CookieWrite>
  {
    if res.written.Some? then [CookieWrite(McCookieName, codec.encode(res.written.value), "infinite")] else []
  }

  /** The store after a resolution: `mc_dub` holds what `StoredAfter` says,
      every other key is unchanged. */
  function StoreAfter(codec: Codec, store: map<string, string>, res: Resolution): map<string, string>
  {
    var before := if McCookieName in store then Some(store[McCookieName]) else None;
    match StoredAfter(codec, before, res)
    case Some(v) => store[McCookieName := v]
    case None => store
  }

  class Client {
    /** What `get` returns, by key; `set` updates it. */
    var store: map<string, string>
    /** Every `set` so far, oldest first. */
    var writes: seq<CookieWrite>

    constructor (store: map<string, string>)
      ensures this.store == store && writes == []
    {
      this.store := store;
      writes := [];
    }

    function Get(key: string): Option<string>
      reads this
    {
      if key in store then Some(store[key]) else None
    }

    method Set(key: string, value: string)
      modifies this
      ensures store == old(store)[key := value]
      ensures writes == old(writes) + [CookieWrite(key, value, "infinite")]
    {
      store := store[key := value];
      writes := writes + [CookieWrite(key, value, "infinite")];
    }

    /** `setFreshCookie`: mint a session id, store `{ sessionId, customerId }`. */
    method SetFreshCookie(codec: Codec, customerId: Option<string>, nibbles: seq<int>) returns (cookieData: CookieData)
      requires Nibbles(nibbles) && |nibbles| == 31
      modifies this
      ensures cookieData == FreshRecord(GenerateId(nibbles), customerId)
      ensures Truthy(Field(cookieData, SessionIdKey))
      ensures store == old(store)[McCookieName := codec.encode(cookieData)]
      ensures writes == old(writes) + [CookieWrite(McCookieName, codec.encode(cookieData), "infinite")]
    {
      var sessionId := GenerateId(nibbles);
      cookieData := FreshRecord(sessionId, customerId);
      Set(McCookieName, codec.encode(cookieData));
    }

    /** `handleCookieData(client, customerId)`, step by step: a
        failed decode mints a fresh record and then goes through the same
        `sessionId` / `customerId` checks as a decoded one. The result and the
        writes are those `Resolve` decides: at most one write in every case. */
    method HandleCookieData(codec: Codec, customerId: Option<string>, nibbles: seq<int>) returns (cookieData: CookieData)
      requires Nibbles(nibbles) && |nibbles| == 31
      modifies this
      ensures var res := Resolve(codec, old(Get(McCookieName)), customerId, GenerateId(nibbles));
        && cookieData == res.record
        && store == StoreAfter(codec, old(store), res)
        && writes == old(writes) + WritesOf(codec, res)
    {
      var cookie := Get(McCookieName);
      cookieData := map[];
      if Truthy(cookie) {
        var parsed := codec.decode(cookie.value);
        if parsed.None? {
          cookieData := SetFreshCookie(codec, customerId, nibbles);
        } else {
          cookieData := parsed.value;
        }
        if !Truthy(Field(cookieData, SessionIdKey)) {
          cookieData := SetFreshCookie(codec, customerId, nibbles);
        } else if Truthy(customerId) && !Truthy(Field(cookieData, CustomerIdKey)) {
          cookieData := cookieData[CustomerIdKey := customerId.value];
          Set(McCookieName, codec.encode(cookieData));
        }
      } else {
        cookieData := SetFreshCookie(codec, customerId, nibbles);
      }
    }

    /** `getClickId`: the `dub_id` value of the `Cookie` header, a missing
        header being read as `''`. */
    function GetClickId(): (r: Option<string>)
      reads this
      ensures !Truthy(Get(CookieHeaderKey)) ==> r == None
      ensures r.Some? ==> r.value != "" && forall k :: 0 <= k < |r.value| ==> r.value[k] != ';'
    {
      ExampleEmptyHeader();
      GetCookie(OrElse(Get(CookieHeaderKey), ""), ClickIdCookieName)
    }

    /** `getCustomerId(event)`: resolve the session cookie with
        `customerId || customerExternalId`, then take the first truthy of the
        precedence chain. The result is never empty. */
    method GetCustomerId(codec: Codec, payload: Payload, nibbles: seq<int>) returns (id: string)
      requires Nibbles(nibbles) && |nibbles| == 31
      modifies this
      ensures var res := Resolve(codec, old(Get(McCookieName)), Or(payload.customerId, payload.customerExternalId), GenerateId(nibbles));
        && id == CustomerIdChain(payload.customerId, payload.customerExternalId, res.record)
        && store == StoreAfter(codec, old(store), res)
        && writes == old(writes) + WritesOf(codec, res)
      ensures id != ""
    {
      var cookieData := HandleCookieData(codec, Or(payload.customerId, payload.customerExternalId), nibbles);
      id := CustomerIdChain(payload.customerId, payload.customerExternalId, cookieData);
      CustomerIdPrecedence(payload.customerId, payload.customerExternalId, cookieData);
    }

    /** `trackLeadEvent`: the click id is read before the session cookie is
        resolved; the lead record is returned instead of being sent. */
    method TrackLeadEvent(codec: Codec, event: Event, nibbles: seq<int>) returns (lead: LeadRecord)
      requires Nibbles(nibbles) && |nibbles| == 31
      modifies this
      ensures var res := Resolve(codec, old(Get(McCookieName)), Or(event.payload.customerId, event.payload.customerExternalId), GenerateId(nibbles));
        && lead == BuildLead(event, old(GetClickId()), CustomerIdChain(event.payload.customerId, event.payload.customerExternalId, res.record))
        && store == StoreAfter(codec, old(store), res)
        && writes == old(writes) + WritesOf(codec, res)
      ensures lead.customerExternalId != ""
    {
      var clickId := GetClickId();
      var customerId := GetCustomerId(codec, event.payload, nibbles);
      lead := BuildLead(event, clickId, customerId);
    }

    /** `trackSaleEvent`: as `TrackLeadEvent`, building a sale record. */
    method TrackSaleEvent(codec: Codec, event: Event, nibbles: seq<int>) returns (sale: SaleRecord)
      requires Nibbles(nibbles) && |nibbles| == 31
      modifies this
      ensures var res := Resolve(codec, old(Get(McCookieName)), Or(event.payload.customerId, event.payload.customerExternalId), GenerateId(nibbles));
        && sale == BuildSale(event, old(GetClickId()), CustomerIdChain(event.payload.customerId, event.payload.customerExternalId, res.record))
        && store == StoreAfter(codec, old(store), res)
        && writes == old(writes) + WritesOf(codec, res)
      ensures sale.customerExternalId != ""
    {
      var clickId := GetClickId();
      var customerId := GetCustomerId(codec, event.payload, nibbles);
      sale := BuildSale(event, clickId, customerId);
    }

    /** One handler of the default export, chosen by the event type. */
    method Dispatch(codec: Codec, kind: EventType, event: Event, nibbles: seq<int>) returns (call: Call)
      requires Nibbles(nibbles) && |nibbles| == 31
      modifies this
      ensures match Route(kind, event)
        case TrackLead(e) =>
          var res := Resolve(codec, old(Get(McCookieName)), Or(e.payload.customerId, e.payload.customerExternalId), GenerateId(nibbles));
          && call == LeadCall(BuildLead(e, old(GetClickId()), CustomerIdChain(e.payload.customerId, e.payload.customerExternalId, res.record)))
          && store == StoreAfter(codec, old(store), res)
          && writes == old(writes) + WritesOf(codec, res)
        case TrackSale(e) =>
          var res := Resolve(codec, old(Get(McCookieName)), Or(e.payload.customerId, e.payload.customerExternalId), GenerateId(nibbles));
          && call == SaleCall(BuildSale(e, old(GetClickId()), CustomerIdChain(e.payload.customerId, e.payload.customerExternalId, res.record)))
          && store == StoreAfter(codec, old(store), res)
          && writes == old(writes) + WritesOf(codec, res)
        case StoreCustomerId(c) =>
          && call == NoCall
          && (!Truthy(c) ==> store == old(store) && writes == old(writes))
          && (Truthy(c) ==>
                var res := Resolve(codec, old(Get(McCookieName)), c, GenerateId(nibbles));
                store == StoreAfter(codec, old(store), res) && writes == old(writes) + WritesOf(codec, res))
    {
      match Route(kind, event)
      case TrackLead(e) =>
        var lead := TrackLeadEvent(codec, e, nibbles);
        call := LeadCall(lead);
      case TrackSale(e) =>
        var sale := TrackSaleEvent(codec, e, nibbles);
        call := SaleCall(sale);
      case StoreCustomerId(c) =>
        if Truthy(c) {
          var _ := HandleCookieData(codec, c, nibbles);
        }
        call := NoCall;
    }
  }

  /** Two events in a row on one client: the second resolution writes nothing
      and sees the record the first one left, as `ResolveIdempotent` states. */
  method HandleCookieDataTwice(codec: Codec, client: Client, customerId: Option<string>, nibbles1: seq<int>, nibbles2: seq<int>)
    returns (first: CookieData, second: CookieData)
    requires codec.Lawful()
    requires Nibbles(nibbles1) && |nibbles1| == 31 && Nibbles(nibbles2) && |nibbles2| == 31
    modifies client
    ensures second == first
    ensures client.writes
              == old(client.writes) + WritesOf(codec, Resolve(codec, old(client.Get(McCookieName)), customerId, GenerateId(nibbles1)))
  {
    first := client.HandleCookieData(codec, customerId, nibbles1);
    ghost var stored := old(client.Get(McCookieName));
    ghost var res := Resolve(codec, stored, customerId, GenerateId(nibbles1));
    assert client.Get(McCookieName) == StoredAfter(codec, stored, res);
    ResolveIdempotent(codec, stored, customerId, GenerateId(nibbles1), GenerateId(nibbles2));
    ghost var between := client.writes;
    second := client.HandleCookieData(codec, customerId, nibbles2);
    assert client.writes == between;
  }
}
