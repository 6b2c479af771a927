/** `getCookie(cookieString, name)`: the first match of the regular expression
    `(^| )name=([^;]+)` in a raw `Cookie` header, returning the value group.

    The engine is modelled as a regular-expression matcher does it without the
    `g` flag: try each start position from left to right, at each position the
    `^` alternative before the ` ` alternative, and let the greedy `[^;]+` run
    to the next `;` or the end of the header. The specification is
    declarative: the leftmost index where the name follows the start of the
    header or a space, and is followed by `=` and a non-empty value. */
module Cookie {
  import opened Js

  /** The name is interpolated into the pattern unescaped, so the model covers
      names without regular-expression metacharacters (such as `dub_id`). */
  predicate LiteralName(name: string)
  {
    forall i :: 0 <= i < |name| ==> name[i] !in "\\^$.|?*+()[]{}"
  }

  // ---------------------------------------------------------------------------
  // Specification

  /** The text at index `i` is `name=`. */
  predicate NameAt(s: string, name: string, i: nat)
  {
    i + |name| < |s| && s[i..i + |name|] == name && s[i + |name|] == '='
  }

  /** Index of the first value character of the occurrence at `i`. */
  function ValueStart(name: string, i: nat): nat
  {
    i + |name| + 1
  }

  /** The occurrence of `name` at `i` is one the pattern accepts: it is at the
      start of the header or right after a space, and its value is non-empty. */
  predicate Qualifies(s: string, name: string, i: nat)
  {
    && NameAt(s, name, i)
    && (i == 0 || s[i - 1] == ' ')
    && ValueStart(name, i) < |s|
    && s[ValueStart(name, i)] != ';'
  }

  /** `v` is the whole value starting at `b`: non-empty, free of `;`, and
      followed by a `;` or by the end of the header. */
  predicate IsValueAt(s: string, b: nat, v: string)
  {
    && v != []
    && b + |v| <= |s|
    && s[b..b + |v|] == v
    && (forall k :: 0 <= k < |v| ==> v[k] != ';')
    && (b + |v| == |s| || s[b + |v|] == ';')
  }

  // ---------------------------------------------------------------------------
  // The matcher

  /** Where the greedy `[^;]+` starting at `j` stops: the first `;` at or
      after `j`, or the end of the header. */
  function ValueEnd(s: string, j: nat): (e: nat)
    requires j <= |s|
    ensures j <= e <= |s|
    ensures forall k :: j <= k < e ==> s[k] != ';'
    ensures e < |s| ==> s[e] == ';'
    decreases |s| - j
  {
    if j == |s| || s[j] == ';' then j else ValueEnd(s, j + 1)
  }

  /** `name=([^;]+)` anchored at index `i`, giving the captured value. */
  function NameValueAt(s: string, name: string, i: nat): Option<string>
  {
    if NameAt(s, name, i) && ValueEnd(s, ValueStart(name, i)) > ValueStart(name, i) then
      Some(s[ValueStart(name, i)..ValueEnd(s, ValueStart(name, i))])
    else
      None
  }

  /** One match attempt at start position `p`: `^` (only at 0), then ` `. */
  function Attempt(s: string, name: string, p: nat): Option<string>
    requires p <= |s|
  {
    var anchored := if p == 0 then NameValueAt(s, name, 0) else None;
    if anchored.Some? then anchored
    else if p < |s| && s[p] == ' ' then NameValueAt(s, name, p + 1)
    else None
  }

  /** The first successful attempt at a start position `p` or later. */
  function MatchFrom(s: string, name: string, p: nat): (r: Option<string>)
    requires p <= |s|
    ensures r.Some? ==> r.value != [] && forall k :: 0 <= k < |r.value| ==> r.value[k] != ';'
    decreases |s| - p
  {
    var a := Attempt(s, name, p);
    if a.Some? then a
    else if p == |s| then None
    else MatchFrom(s, name, p + 1)
  }

  /** `getCookie`: `match ? match[2] : undefined`. */
  function GetCookie(s: string, name: string): (r: Option<string>)
    requires LiteralName(name)
    ensures r.Some? ==> r.value != [] && forall k :: 0 <= k < |r.value| ==> r.value[k] != ';'
  {
    MatchFrom(s, name, 0)
  }

  // ---------------------------------------------------------------------------
  // The matcher meets the specification

  /** A successful anchored match is exactly a qualifying value. */
  lemma NameValueAtSpec(s: string, name: string, i: nat)
    ensures NameValueAt(s, name, i).Some? <==>
              NameAt(s, name, i) && ValueStart(name, i) < |s| && s[ValueStart(name, i)] != ';'
    ensures NameValueAt(s, name, i).Some? ==> IsValueAt(s, ValueStart(name, i), NameValueAt(s, name, i).value)
  {
    if NameAt(s, name, i) {
      var b := ValueStart(name, i);
      var e := ValueEnd(s, b);
      if b < |s| && s[b] != ';' {
        assert e > b;
        var v := s[b..e];
        assert s[b..b + |v|] == v;
        forall k | 0 <= k < |v| ensures v[k] != ';' {
          assert v[k] == s[b + k];
        }
      }
    }
  }

  /** `i` is the first qualifying index beyond `p`. */
  predicate FirstQualifyingAfter(s: string, name: string, p: nat, i: nat)
  {
    p < i && Qualifies(s, name, i) && forall j :: p < j < i ==> !Qualifies(s, name, j)
  }

  /** From a start position `p >= 1` the matcher finds the leftmost qualifying
      occurrence at an index beyond `p`, or reports that there is none. */
  lemma {:induction false} MatchFromSpec(s: string, name: string, p: nat)
    requires 1 <= p <= |s|
    ensures MatchFrom(s, name, p).Some? ==>
              exists i :: FirstQualifyingAfter(s, name, p, i)
                          && IsValueAt(s, ValueStart(name, i), MatchFrom(s, name, p).value)
    ensures MatchFrom(s, name, p).None? ==> forall j: nat :: p < j ==> !Qualifies(s, name, j)
    decreases |s| - p
  {
    if p == |s| {
      assert Attempt(s, name, p).None?;
      forall j: nat | p < j ensures !Qualifies(s, name, j) {
      }
    } else {
      NameValueAtSpec(s, name, p + 1);
      var a := Attempt(s, name, p);
      assert a.Some? <==> Qualifies(s, name, p + 1);
      if a.Some? {
        assert FirstQualifyingAfter(s, name, p, p + 1);
      } else {
        MatchFromSpec(s, name, p + 1);
        var r := MatchFrom(s, name, p + 1);
        assert MatchFrom(s, name, p) == r;
        if r.Some? {
          var i :| FirstQualifyingAfter(s, name, p + 1, i) && IsValueAt(s, ValueStart(name, i), r.value);
          assert FirstQualifyingAfter(s, name, p, i);
        }
      }
    }
  }

  /** `getCookie` returns the value of the leftmost qualifying occurrence: the
      text after `name=` up to the first `;` or the end, where the name sits at
      index 0 or right after a space. */
  lemma GetCookieLeftmost(s: string, name: string)
    requires LiteralName(name)
    ensures GetCookie(s, name).Some? ==>
              exists i: nat :: Qualifies(s, name, i)
                          && IsValueAt(s, ValueStart(name, i), GetCookie(s, name).value)
                          && forall j :: 0 <= j < i ==> !Qualifies(s, name, j)
    ensures GetCookie(s, name).None? <==> forall j: nat :: !Qualifies(s, name, j)
  {
    NameValueAtSpec(s, name, 0);
    if |s| == 0 {
      forall j: nat ensures !Qualifies(s, name, j) {
      }
    } else {
      NameValueAtSpec(s, name, 1);
      if NameValueAt(s, name, 0).Some? {
        assert Qualifies(s, name, 0);
      } else if s[0] == ' ' && NameValueAt(s, name, 1).Some? {
        assert Qualifies(s, name, 1);
        assert forall j :: 0 <= j < 1 ==> !Qualifies(s, name, j);
      } else {
        assert !Qualifies(s, name, 0) && !Qualifies(s, name, 1);
        MatchFromSpec(s, name, 1);
        if GetCookie(s, name).Some? {
          var i: nat :| FirstQualifyingAfter(s, name, 1, i)
                   && IsValueAt(s, ValueStart(name, i), MatchFrom(s, name, 1).value);
          assert forall j :: 0 <= j < i ==> !Qualifies(s, name, j);
        } else {
          forall j: nat ensures !Qualifies(s, name, j) {
            if j > 1 {
            }
          }
        }
      }
    }
  }

  /** The value is determined by where it starts. */
  lemma ValueAtUnique(s: string, b: nat, v: string, w: string)
    requires IsValueAt(s, b, v) && IsValueAt(s, b, w)
    ensures v == w
  {
  }

  /** Conversely, a leftmost qualifying occurrence is what `getCookie` returns,
      so a later occurrence never shadows an earlier one. */
  lemma GetCookieFinds(s: string, name: string, i: nat, v: string)
    requires LiteralName(name)
    requires Qualifies(s, name, i) && IsValueAt(s, ValueStart(name, i), v)
    requires forall j :: 0 <= j < i ==> !Qualifies(s, name, j)
    ensures GetCookie(s, name) == Some(v)
  {
    GetCookieLeftmost(s, name);
    var i': nat :| Qualifies(s, name, i')
              && IsValueAt(s, ValueStart(name, i'), GetCookie(s, name).value)
              && forall j :: 0 <= j < i' ==> !Qualifies(s, name, j);
    assert i' == i;
    ValueAtUnique(s, ValueStart(name, i), v, GetCookie(s, name).value);
  }

  // ---------------------------------------------------------------------------
  // Examples

  /** The header used throughout the component's tests. */
  lemma ExampleTestHeader()
    ensures GetCookie("dub_id=click123; other=value", "dub_id") == Some("click123")
  {
    var s := "dub_id=click123; other=value";
    assert Qualifies(s, "dub_id", 0);
    assert IsValueAt(s, 7, "click123");
    GetCookieFinds(s, "dub_id", 0, "click123");
  }

  /** A missing `cookie` header is read as `''`, which holds no cookie. */
  lemma ExampleEmptyHeader()
    ensures GetCookie("", "dub_id") == None
  {
  }

  /** A name preceded by `;` or by another character is not found. */
  lemma ExampleNoBoundary()
    ensures GetCookie(";dub_id=x", "dub_id") == None
    ensures GetCookie("xdub_id=x", "dub_id") == None
  {
    var s1, s2 := ";dub_id=x", "xdub_id=x";
    GetCookieLeftmost(s1, "dub_id");
    GetCookieLeftmost(s2, "dub_id");
    forall j: nat ensures !Qualifies(s1, "dub_id", j) && !Qualifies(s2, "dub_id", j) {
      if j == 0 {
        assert s1[0..6][0] != 'd' && s2[0..6][0] != 'd';
      } else if j <= |s1| {
        assert s1[j - 1] != ' ' && s2[j - 1] != ' ';
      }
    }
  }

  /** An empty value is skipped; a later occurrence after a space is found,
      and its value may contain `=` and spaces. */
  lemma ExampleEmptyValueSkipped()
    ensures GetCookie("dub_id=; dub_id=a=b c", "dub_id") == Some("a=b c")
  {
    var s := "dub_id=; dub_id=a=b c";
    assert !Qualifies(s, "dub_id", 0);
    forall j: nat | 0 < j < 9 ensures !Qualifies(s, "dub_id", j) {
      assert s[j - 1] != ' ';
    }
    assert s[9] == 'd' && s[10] == 'u' && s[11] == 'b' && s[12] == '_' && s[13] == 'i' && s[14] == 'd';
    assert s[9..15] == "dub_id";
    assert Qualifies(s, "dub_id", 9);
    assert IsValueAt(s, 16, "a=b c");
    GetCookieFinds(s, "dub_id", 9, "a=b c");
  }
}
