/**
 * Query strings as the authorize URL lays them out: `key=value` pairs joined by
 * `&`, after the first `?` of the URL, with no percent-encoding. Parsing here is
 * a plain split with no decoding (no `%XX`, no `+`, no `#` fragment); it is what
 * lets us state which parameters a concatenated URL carries.
 */
module QueryString {

  import opened Wrappers

  datatype Param = Param(key: string, value: string)

  /** Splits `s` at every `sep`; the pieces never contain `sep`. */
  function Split(s: string, sep: char): (parts: seq<string>)
    ensures |parts| >= 1
    ensures forall p :: p in parts ==> sep !in p
    decreases |s|
  {
    if s == [] then [[]]
    else
      var rest := Split(s[1..], sep);
      if s[0] == sep then [[]] + rest else [[s[0]] + rest[0]] + rest[1..]
  }

  /** Puts `sep` between consecutive parts. */
  function Join(parts: seq<string>, sep: char): string
    requires |parts| >= 1
  {
    if |parts| == 1 then parts[0] else parts[0] + [sep] + Join(parts[1..], sep)
  }

  lemma JoinCons(a: string, rest: seq<string>, sep: char)
    requires |rest| >= 1
    ensures Join([a] + rest, sep) == a + [sep] + Join(rest, sep)
  {
    assert ([a] + rest)[1..] == rest;
  }

  lemma {:induction false} SplitWithoutSep(a: string, sep: char)
    requires sep !in a
    ensures Split(a, sep) == [a]
    decreases |a|
  {
    if a != [] {
      SplitWithoutSep(a[1..], sep);
      assert [a[0]] + a[1..] == a;
    }
  }

  lemma {:induction false} SplitAtSep(a: string, b: string, sep: char)
    requires sep !in a
    ensures Split(a + [sep] + b, sep) == [a] + Split(b, sep)
    decreases |a|
  {
    var s := a + [sep] + b;
    if a == [] {
      assert s[1..] == b;
    } else {
      assert s[1..] == a[1..] + [sep] + b;
      SplitAtSep(a[1..], b, sep);
      assert [a[0]] + a[1..] == a;
    }
  }

  /** Splitting undoes joining when no part contains the separator. */
  lemma {:induction false} SplitJoin(parts: seq<string>, sep: char)
    requires |parts| >= 1
    requires forall p :: p in parts ==> sep !in p
    ensures Split(Join(parts, sep), sep) == parts
    decreases |parts|
  {
    if |parts| == 1 {
      SplitWithoutSep(parts[0], sep);
    } else {
      assert parts[0] in parts;
      assert forall p :: p in parts[1..] ==> p in parts;
      SplitJoin(parts[1..], sep);
      SplitAtSep(parts[0], Join(parts[1..], sep), sep);
      assert [parts[0]] + parts[1..] == parts;
    }
  }

  /** The position of the first `c` in `s`. */
  function IndexOf(s: string, c: char): (i: nat)
    requires c in s
    ensures i < |s| && s[i] == c && c !in s[..i]
  {
    if s[0] == c then 0
    else
      assert c in s[1..] by { assert s == [s[0]] + s[1..]; }
      var j := IndexOf(s[1..], c);
      assert s[..j + 1] == [s[0]] + s[1..][..j];
      j + 1
  }

  /** Cuts `s` at its first `c`; without a `c` everything is on the left. */
  function CutAt(s: string, c: char): (halves: (string, string))
    ensures c !in halves.0
    ensures c in s ==> halves.0 + [c] + halves.1 == s
    ensures c !in s ==> halves == (s, [])
  {
    if c in s then
      var i := IndexOf(s, c);
      assert s[..i] + [c] + s[i + 1..] == s;
      (s[..i], s[i + 1..])
    else (s, [])
  }

  lemma {:induction false} CutAtFirst(a: string, b: string, c: char)
    requires c !in a
    ensures CutAt(a + [c] + b, c) == (a, b)
  {
    var s := a + [c] + b;
    assert s[|a|] == c;
    var i := IndexOf(s, c);
    assert i == |a|;
    assert s[..i] == a && s[i + 1..] == b;
  }

  function EncodeParam(p: Param): string {
    p.key + "=" + p.value
  }

  function ParseParam(s: string): Param {
    var (k, v) := CutAt(s, '=');
    Param(k, v)
  }

  function EncodeParams(ps: seq<Param>): (parts: seq<string>)
    ensures |parts| == |ps|
    ensures forall i :: 0 <= i < |ps| ==> parts[i] == EncodeParam(ps[i])
  {
    if ps == [] then [] else [EncodeParam(ps[0])] + EncodeParams(ps[1..])
  }

  function ParseParams(parts: seq<string>): (ps: seq<Param>)
    ensures |ps| == |parts|
    ensures forall i :: 0 <= i < |parts| ==> ps[i] == ParseParam(parts[i])
  {
    if parts == [] then [] else [ParseParam(parts[0])] + ParseParams(parts[1..])
  }

  /** `k1=v1&k2=v2&…`, without any escaping. */
  function EncodeQuery(ps: seq<Param>): string
    requires |ps| >= 1
  {
    Join(EncodeParams(ps), '&')
  }

  function ParseQuery(q: string): seq<Param> {
    ParseParams(Split(q, '&'))
  }

  /** Splits a URL at its first `?` into the endpoint and its parameters. */
  function ParseUrl(url: string): (string, seq<Param>) {
    var (endpoint, query) := CutAt(url, '?');
    (endpoint, ParseQuery(query))
  }

  /** A parameter list survives the trip through text exactly when no key holds
      `=` or `&` and no value holds `&`. */
  ghost predicate Plain(ps: seq<Param>) {
    forall i :: 0 <= i < |ps| ==> '=' !in ps[i].key && '&' !in ps[i].key && '&' !in ps[i].value
  }

  lemma {:induction false} ParseEncodeQuery(ps: seq<Param>)
    requires |ps| >= 1 && Plain(ps)
    ensures ParseQuery(EncodeQuery(ps)) == ps
  {
    var parts := EncodeParams(ps);
    forall p | p in parts
      ensures '&' !in p
    {
      var i :| 0 <= i < |parts| && parts[i] == p;
      assert p == ps[i].key + "=" + ps[i].value;
    }
    SplitJoin(parts, '&');
    forall i | 0 <= i < |ps|
      ensures ParseParam(parts[i]) == ps[i]
    {
      CutAtFirst(ps[i].key, ps[i].value, '=');
    }
  }

  /** The value of the first parameter named `key`. */
  function Lookup(ps: seq<Param>, key: string): (v: Option<string>)
    ensures v.Some? <==> exists i :: 0 <= i < |ps| && ps[i].key == key
    ensures v.Some? ==> exists i :: 0 <= i < |ps| && ps[i] == Param(key, v.value)
  {
    if ps == [] then None
    else if ps[0].key == key then Some(ps[0].value)
    else
      var v := Lookup(ps[1..], key);
      assert forall i :: 0 < i < |ps| ==> ps[i] == ps[1..][i - 1];
      v
  }

  /** The first parameter named `key` decides the lookup. */
  lemma {:induction false} LookupFirst(ps: seq<Param>, i: nat, key: string)
    requires i < |ps| && ps[i].key == key
    requires forall j :: 0 <= j < i ==> ps[j].key != key
    ensures Lookup(ps, key) == Some(ps[i].value)
  {
    if i > 0 {
      LookupFirst(ps[1..], i - 1, key);
    }
  }
}
