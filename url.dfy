/**
  The two platform calls app.js makes on a payment link: `new URL(url).search`
  and `new URLSearchParams(search).get("TransID")`. Whether the string parses
  as a URL at all is left to the caller; percent-decoding and `+` as a space
  are not modelled.
*/
module Url {
  import opened Wrappers
  import opened Text
  import Store

  /** `search` without its `?`: the text after the first `?` and before the fragment's `#`. */
  function QueryOf(url: string): (q: string)
    ensures Free(q, '#')
    ensures Free(url, '?') ==> q == ""
  {
    var pre := url[..IndexOf(url, '#')];
    var k := IndexOf(pre, '?');
    if k == |pre| then "" else pre[k + 1..]
  }

  /** `s.split(c)`. */
  function SplitOn(s: string, c: char): (r: seq<string>)
    ensures |r| >= 1
    ensures forall i :: 0 <= i < |r| ==> Free(r[i], c)
    decreases |s|
  {
    var k := IndexOf(s, c);
    if k == |s| then [s] else [s[..k]] + SplitOn(s[k + 1..], c)
  }

  /** `parts.join(c)`, the inverse of `SplitOn`. */
  function Join(parts: seq<string>, c: char): string
    requires |parts| >= 1
    decreases |parts|
  {
    if |parts| == 1 then parts[0] else parts[0] + [c] + Join(parts[1..], c)
  }

  lemma {:induction false} JoinSplit(s: string, c: char)
    ensures Join(SplitOn(s, c), c) == s
    decreases |s|
  {
    var k := IndexOf(s, c);
    if k < |s| {
      var rest := SplitOn(s[k + 1..], c);
      assert SplitOn(s, c) == [s[..k]] + rest;
      assert (SplitOn(s, c))[1..] == rest;
      JoinSplit(s[k + 1..], c);
      assert s == s[..k] + [c] + s[k + 1..];
    }
  }

  /** Splitting after a piece free of `c` peels that piece off. */
  lemma SplitOnCons(a: string, b: string, c: char)
    requires Free(a, c)
    ensures SplitOn(a + [c] + b, c) == [a] + SplitOn(b, c)
  {
    var s := a + ([c] + b);
    assert a + [c] + b == s;
    IndexOfAfterFreePrefix(a, [c] + b, c);
    assert s[..|a|] == a && s[|a| + 1..] == b;
  }

  lemma {:induction false} SplitJoin(parts: seq<string>, c: char)
    requires |parts| >= 1 && forall i :: 0 <= i < |parts| ==> Free(parts[i], c)
    ensures SplitOn(Join(parts, c), c) == parts
    decreases |parts|
  {
    if |parts| == 1 {
      assert IndexOf(parts[0], c) == |parts[0]|;
    } else {
      SplitOnCons(parts[0], Join(parts[1..], c), c);
      SplitJoin(parts[1..], c);
      assert parts == [parts[0]] + parts[1..];
    }
  }

  /** One `name=value` piece: the name stops at the first `=`; without one the value is empty. */
  function ParamName(p: string): string {
    p[..IndexOf(p, '=')]
  }

  function ParamValue(p: string): string {
    var k := IndexOf(p, '=');
    if k == |p| then "" else p[k + 1..]
  }

  /** `URLSearchParams.get(name)`: empty pieces are skipped and the first piece with that name wins. */
  function QueryGet(q: string, name: string): (r: Option<string>)
    ensures var pieces := SplitOn(q, '&');
      r.Some? <==> exists i :: 0 <= i < |pieces| && pieces[i] != [] && ParamName(pieces[i]) == name
    ensures var pieces := SplitOn(q, '&');
      r.Some? ==> exists i ::
        && 0 <= i < |pieces| && pieces[i] != [] && ParamName(pieces[i]) == name
        && r.value == ParamValue(pieces[i])
        && forall k :: 0 <= k < i ==> !(pieces[k] != [] && ParamName(pieces[k]) == name)
  {
    var pieces := SplitOn(q, '&');
    match Store.FirstIndex(pieces, (p: string) => p != [] && ParamName(p) == name)
    case None => None
    case Some(i) => Some(ParamValue(pieces[i]))
  }

  /** The `TransID` query parameter of a payment link, or `null` (here `None`). */
  function TransIdOf(url: string): Option<string> {
    QueryGet(QueryOf(url), "TransID")
  }

  /** A link without a query string yields `null`. */
  lemma TransIdAbsent(url: string)
    requires Free(url, '?')
    ensures TransIdOf(url) == None
  {
    assert SplitOn("", '&') == [""];
  }

  /**
    A link whose query starts with `TransID=v` yields `v`, whatever parameters
    follow; `v` and the rest carry no `#`, and `v` no `&`.
  */
  lemma TransIdRoundTrip(base: string, v: string, rest: string)
    requires Free(base, '?') && Free(base, '#')
    requires Free(v, '&') && Free(v, '#') && Free(rest, '#')
    requires rest == [] || rest[0] == '&'
    ensures TransIdOf(base + "?TransID=" + v + rest) == Some(v)
  {
    var first := "TransID" + "=" + v;
    assert "?TransID=" == "?" + "TransID" + "=";
    assert base + "?TransID=" + v + rest == base + "?" + (first + rest);
    QueryAfterMark(base, first + rest);
    NameValue("TransID", v);
    QueryGetFirst(first, rest, "TransID");
  }

  /** The first piece of a query decides `get` when it is non-empty and carries the name. */
  lemma QueryGetFirst(first: string, rest: string, name: string)
    requires first != [] && Free(first, '&') && ParamName(first) == name
    requires rest == [] || rest[0] == '&'
    ensures QueryGet(first + rest, name) == Some(ParamValue(first))
  {
    if rest == [] {
      assert IndexOf(first, '&') == |first|;
      assert first + rest == first;
    } else {
      SplitOnCons(first, rest[1..], '&');
      assert first + rest == first + ['&'] + rest[1..];
    }
    assert SplitOn(first + rest, '&')[0] == first;
  }

  /** The query of `base?q` is `q` when neither part has a fragment and `base` no `?`. */
  lemma QueryAfterMark(base: string, q: string)
    requires Free(base, '?') && Free(base, '#') && Free(q, '#')
    ensures QueryOf(base + "?" + q) == q
  {
    var url := base + ("?" + q);
    assert base + "?" + q == url;
    assert Free(url, '#');
    assert url[..IndexOf(url, '#')] == url;
    IndexOfAfterFreePrefix(base, "?" + q, '?');
    assert url[|base| + 1..] == q;
  }

  /** The piece `name=v` has name `name` and value `v` when `name` has no `=`. */
  lemma NameValue(name: string, v: string)
    requires Free(name, '=')
    ensures ParamName(name + "=" + v) == name && ParamValue(name + "=" + v) == v
  {
    var p := name + ("=" + v);
    assert name + "=" + v == p;
    IndexOfAfterFreePrefix(name, "=" + v, '=');
    assert p[..|name|] == name && p[|name| + 1..] == v;
  }
}
