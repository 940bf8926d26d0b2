/**
 * The relative request targets the client builds: a path of `/`-separated
 * segments, optionally followed by `?` and `name=value` pairs joined by `&`
 * (the path and query components of section 3 of RFC 3986).  `Render` writes
 * a target and `Parse` reads one back; they are inverse on well-formed targets.
 */
module Url {
  import opened Optional
  import Decimal

  function Join(parts: seq<string>, sep: char): string
    requires |parts| > 0
  {
    if |parts| == 1 then parts[0] else parts[0] + [sep] + Join(parts[1..], sep)
  }

  /** Splits at every `sep`, as JavaScript's `s.split(sep)`. */
  function Split(s: string, sep: char): (parts: seq<string>)
    ensures |parts| > 0
    ensures forall i :: 0 <= i < |parts| ==> sep !in parts[i]
    ensures Join(parts, sep) == s
  {
    if |s| == 0 then [""]
    else
      var rest := Split(s[1..], sep);
      if s[0] == sep then
        assert ([""] + rest)[1..] == rest;
        [""] + rest
      else
        var parts := [[s[0]] + rest[0]] + rest[1..];
        assert parts[1..] == rest[1..];
        assert s == [s[0]] + s[1..];
        parts
  }

  lemma {:induction false} SplitWithout(s: string, sep: char)
    requires sep !in s
    ensures Split(s, sep) == [s]
  {
    if |s| > 0 {
      SplitWithout(s[1..], sep);
    }
  }

  lemma {:induction false} SplitFirst(a: string, b: string, sep: char)
    requires sep !in a
    ensures Split(a + [sep] + b, sep) == [a] + Split(b, sep)
  {
    if |a| == 0 {
      assert (a + [sep] + b)[1..] == b;
    } else {
      assert (a + [sep] + b)[1..] == a[1..] + [sep] + b;
      SplitFirst(a[1..], b, sep);
      assert [a[0]] + a[1..] == a;
    }
  }

  /** Splitting a join gives back the parts, provided no part holds the separator. */
  lemma {:induction false} SplitJoin(parts: seq<string>, sep: char)
    requires |parts| > 0
    requires forall i :: 0 <= i < |parts| ==> sep !in parts[i]
    ensures Split(Join(parts, sep), sep) == parts
  {
    if |parts| == 1 {
      SplitWithout(parts[0], sep);
    } else {
      SplitJoin(parts[1..], sep);
      SplitFirst(parts[0], Join(parts[1..], sep), sep);
    }
  }

  lemma {:induction false} JoinWithout(parts: seq<string>, sep: char, c: char)
    requires |parts| > 0 && c != sep
    requires forall i :: 0 <= i < |parts| ==> c !in parts[i]
    ensures c !in Join(parts, sep)
  {
    if |parts| > 1 {
      JoinWithout(parts[1..], sep, c);
    }
  }

  lemma {:induction false} InJoin(parts: seq<string>, sep: char, c: char, i: nat)
    requires i < |parts| && c in parts[i]
    ensures c in Join(parts, sep)
  {
    if i > 0 {
      InJoin(parts[1..], sep, c, i - 1);
    }
  }

  /** A path segment: no `/`, no `?`. */
  predicate Segment(s: string) {
    '/' !in s && '?' !in s
  }

  /** A query name or value: no `&`, `=` or `?`. */
  predicate Component(s: string) {
    '&' !in s && '=' !in s && '?' !in s
  }

  datatype Target = Target(segments: seq<string>, params: seq<(string, string)>)

  predicate WellFormed(t: Target) {
    && |t.segments| > 0
    && (forall i :: 0 <= i < |t.segments| ==> Segment(t.segments[i]))
    && (forall i :: 0 <= i < |t.params| ==> Component(t.params[i].0) && Component(t.params[i].1))
  }

  function Assignments(params: seq<(string, string)>): (items: seq<string>)
    ensures |items| == |params|
  {
    if params == [] then [] else [params[0].0 + "=" + params[0].1] + Assignments(params[1..])
  }

  function Render(t: Target): string
    requires |t.segments| > 0
  {
    Join(t.segments, '/') + if t.params == [] then "" else "?" + Join(Assignments(t.params), '&')
  }

  function ParseParams(items: seq<string>): Option<seq<(string, string)>> {
    if items == [] then Some([])
    else
      var pair := Split(items[0], '=');
      if |pair| != 2 then None
      else
        match ParseParams(items[1..])
        case Some(rest) => Some([(pair[0], pair[1])] + rest)
        case None => None
  }

  function Parse(url: string): Option<Target> {
    var halves := Split(url, '?');
    if |halves| == 1 then Some(Target(Split(url, '/'), []))
    else if |halves| == 2 then
      match ParseParams(Split(halves[1], '&'))
      case Some(params) => Some(Target(Split(halves[0], '/'), params))
      case None => None
    else None
  }

  lemma {:induction false} ParseAssignments(params: seq<(string, string)>)
    requires forall i :: 0 <= i < |params| ==> Component(params[i].0) && Component(params[i].1)
    ensures ParseParams(Assignments(params)) == Some(params)
    ensures forall i :: 0 <= i < |params| ==> '&' !in Assignments(params)[i] && '?' !in Assignments(params)[i]
  {
    if params != [] {
      var (k, v) := params[0];
      SplitFirst(k, v, '=');
      SplitWithout(v, '=');
      assert k + "=" + v == k + ['='] + v;
      assert Split(k + "=" + v, '=') == [k, v];
      ParseAssignments(params[1..]);
      assert Assignments(params)[1..] == Assignments(params[1..]);
      assert [(k, v)] + params[1..] == params;
    }
  }

  lemma {:induction false} AssignmentsOfParse(items: seq<string>, params: seq<(string, string)>)
    requires ParseParams(items) == Some(params)
    ensures Assignments(params) == items
    ensures forall i :: 0 <= i < |params| ==>
      (forall c :: c in params[i].0 || c in params[i].1 ==> c in items[i] && c != '=')
  {
    if items != [] {
      var pair := Split(items[0], '=');
      AssignmentsOfParse(items[1..], params[1..]);
      assert params[0] == (pair[0], pair[1]);
      assert Join(pair[1..], '=') == pair[1];
      assert pair[0] + "=" + pair[1] == items[0];
      assert items == [items[0]] + items[1..];
      forall c | c in pair[0] || c in pair[1] ensures c in items[0] && c != '=' {
        if c in pair[0] { InJoin(pair, '=', c, 0); } else { InJoin(pair, '=', c, 1); }
      }
    }
  }

  /** Reading a rendered target gives it back. */
  lemma ParseRender(t: Target)
    requires WellFormed(t)
    ensures Parse(Render(t)) == Some(t)
  {
    JoinWithout(t.segments, '/', '?');
    SplitJoin(t.segments, '/');
    if t.params == [] {
      ParseRenderPath(t);
    } else {
      ParseRenderQuery(t);
    }
  }

  lemma ParseRenderPath(t: Target)
    requires WellFormed(t) && t.params == []
    requires '?' !in Join(t.segments, '/') && Split(Join(t.segments, '/'), '/') == t.segments
    ensures Parse(Render(t)) == Some(t)
  {
    var path := Join(t.segments, '/');
    SplitWithout(path, '?');
    assert Render(t) == path;
  }

  lemma ParseRenderQuery(t: Target)
    requires WellFormed(t) && t.params != []
    requires '?' !in Join(t.segments, '/') && Split(Join(t.segments, '/'), '/') == t.segments
    ensures Parse(Render(t)) == Some(t)
  {
    var path, query := Join(t.segments, '/'), Join(Assignments(t.params), '&');
    QueryHalves(t);
    ParseAssignments(t.params);
    SplitJoin(Assignments(t.params), '&');
    ParseOfHalves(Render(t), path, query);
  }

  /** A rendered target with a query splits at `?` into its path and its query. */
  lemma QueryHalves(t: Target)
    requires WellFormed(t) && t.params != [] && '?' !in Join(t.segments, '/')
    ensures Split(Render(t), '?') == [Join(t.segments, '/'), Join(Assignments(t.params), '&')]
  {
    var path, items := Join(t.segments, '/'), Assignments(t.params);
    ParseAssignments(t.params);
    var query := Join(items, '&');
    JoinWithout(items, '&', '?');
    assert Render(t) == path + ['?'] + query;
    SplitFirst(path, query, '?');
    SplitWithout(query, '?');
  }

  /** What `Parse` does with a url that has exactly one `?`. */
  lemma ParseOfHalves(url: string, path: string, query: string)
    requires Split(url, '?') == [path, query]
    ensures Parse(url) == match ParseParams(Split(query, '&'))
      case Some(params) => Some(Target(Split(path, '/'), params))
      case None => None
  {
  }

  lemma {:induction false} SplitKeepsOut(s: string, sep: char, c: char)
    requires c !in s
    ensures forall i :: 0 <= i < |Split(s, sep)| ==> c !in Split(s, sep)[i]
  {
    var parts := Split(s, sep);
    forall i | 0 <= i < |parts| ensures c !in parts[i] {
      if c in parts[i] { InJoin(parts, sep, c, i); }
    }
  }

  /** Whatever `Parse` accepts is well formed and renders back to the same text. */
  lemma RenderParse(url: string, t: Target)
    requires Parse(url) == Some(t)
    ensures WellFormed(t) && Render(t) == url
  {
    var halves := Split(url, '?');
    if |halves| == 1 {
      SplitKeepsOut(url, '/', '?');
    } else {
      SplitKeepsOut(halves[0], '/', '?');
      var items := Split(halves[1], '&');
      AssignmentsOfParse(items, t.params);
      SplitKeepsOut(halves[1], '&', '?');
      forall i | 0 <= i < |t.params| ensures Component(t.params[i].0) && Component(t.params[i].1) {
        assert '?' !in items[i] && '&' !in items[i];
      }
      assert Join(halves[1..], '?') == halves[1];
      assert url == halves[0] + ['?'] + halves[1];
    }
  }

  lemma ParseIff(url: string, t: Target)
    ensures Parse(url) == Some(t) <==> WellFormed(t) && Render(t) == url
  {
    if Parse(url) == Some(t) { RenderParse(url, t); }
    if WellFormed(t) && Render(t) == url { ParseRender(t); }
  }

  lemma Join2(a: string, b: string, sep: char)
    ensures Join([a, b], sep) == a + [sep] + b
  {
    assert [a, b][1..] == [b];
  }

  lemma Join3(a: string, b: string, c: string, sep: char)
    ensures Join([a, b, c], sep) == a + [sep] + b + [sep] + c
  {
    assert [a, b, c][1..] == [b, c];
    Join2(b, c, sep);
  }

  /** A numeral can stand as a path segment or a query value. */
  lemma NumeralFits(n: int)
    ensures Segment(Decimal.IntToString(n)) && Component(Decimal.IntToString(n))
  {
    var s := Decimal.IntToString(n);
    forall c | c in s ensures c == '-' || Decimal.IsDigit(c) {
      var i :| 0 <= i < |s| && s[i] == c;
    }
  }

  lemma RenderPath(t: Target)
    requires |t.segments| > 0 && t.params == []
    ensures Render(t) == Join(t.segments, '/')
  {
  }

  /** A parsed path of three segments is the text `s0/s1/s2`. */
  lemma ThreeSegments(url: string, t: Target)
    requires Parse(url) == Some(t) && |t.segments| == 3 && t.params == []
    ensures url == t.segments[0] + "/" + t.segments[1] + "/" + t.segments[2]
  {
    RenderParse(url, t);
    RenderPath(t);
    assert t.segments == [t.segments[0], t.segments[1], t.segments[2]];
    Join3(t.segments[0], t.segments[1], t.segments[2], '/');
  }

  /** A parsed path of two segments is the text `s0/s1`. */
  lemma TwoSegments(url: string, t: Target)
    requires Parse(url) == Some(t) && |t.segments| == 2 && t.params == []
    ensures url == t.segments[0] + "/" + t.segments[1]
  {
    RenderParse(url, t);
    RenderPath(t);
    assert t.segments == [t.segments[0], t.segments[1]];
    Join2(t.segments[0], t.segments[1], '/');
  }

  /** A parsed target with two query parameters is the text `path?k1=v1&k2=v2`. */
  lemma TwoParams(url: string, t: Target)
    requires Parse(url) == Some(t) && |t.params| == 2
    ensures url == Join(t.segments, '/') + "?" + t.params[0].0 + "=" + t.params[0].1 + "&" + t.params[1].0 + "=" + t.params[1].1
  {
    RenderParse(url, t);
    assert t.params == [(t.params[0].0, t.params[0].1), (t.params[1].0, t.params[1].1)];
    RenderTwoParams(t.segments, t.params[0].0, t.params[0].1, t.params[1].0, t.params[1].1);
  }

  /** `/collection` addresses one collection. */
  lemma ParseCollection(collection: string)
    requires Segment(collection)
    ensures Parse("/" + collection) == Some(Target(["", collection], []))
  {
    Join2("", collection, '/');
    ParseRender(Target(["", collection], []));
  }

  /** `/collection/item` addresses one item of a collection; `item` may be empty, as in `/accounts/`. */
  lemma ParseItem(collection: string, item: string)
    requires Segment(collection) && Segment(item)
    ensures Parse("/" + collection + "/" + item) == Some(Target(["", collection, item], []))
  {
    Join3("", collection, item, '/');
    ParseRender(Target(["", collection, item], []));
  }

  lemma AssignTwo(k1: string, v1: string, k2: string, v2: string)
    ensures Assignments([(k1, v1), (k2, v2)]) == [k1 + "=" + v1, k2 + "=" + v2]
  {
    var params := [(k1, v1), (k2, v2)];
    assert params[1..] == [(k2, v2)];
    assert params[1..][1..] == [];
    assert Assignments(params[1..]) == [k2 + "=" + v2];
  }

  lemma AssignThree(k1: string, v1: string, k2: string, v2: string, k3: string, v3: string)
    ensures Assignments([(k1, v1), (k2, v2), (k3, v3)]) == [k1 + "=" + v1, k2 + "=" + v2, k3 + "=" + v3]
  {
    var params := [(k1, v1), (k2, v2), (k3, v3)];
    assert params[1..] == [(k2, v2), (k3, v3)];
    AssignTwo(k2, v2, k3, v3);
  }

  lemma RenderWithQuery(t: Target)
    requires |t.segments| > 0 && t.params != []
    ensures Render(t) == Join(t.segments, '/') + ("?" + Join(Assignments(t.params), '&'))
  {
  }

  lemma RenderTwoParams(segments: seq<string>, k1: string, v1: string, k2: string, v2: string)
    requires |segments| > 0
    ensures Render(Target(segments, [(k1, v1), (k2, v2)]))
         == Join(segments, '/') + "?" + k1 + "=" + v1 + "&" + k2 + "=" + v2
  {
    var t := Target(segments, [(k1, v1), (k2, v2)]);
    var a, b := k1 + "=" + v1, k2 + "=" + v2;
    AssignTwo(k1, v1, k2, v2);
    Join2(a, b, '&');
    RenderWithQuery(t);
    Regroup2(Join(segments, '/'), k1, v1, k2, v2);
  }

  lemma Regroup2(path: string, k1: string, v1: string, k2: string, v2: string)
    ensures path + ("?" + ((k1 + "=" + v1) + ['&'] + (k2 + "=" + v2)))
         == path + "?" + k1 + "=" + v1 + "&" + k2 + "=" + v2
  {
  }

  lemma Regroup3(path: string, k1: string, v1: string, k2: string, v2: string, k3: string, v3: string)
    ensures path + ("?" + ((k1 + "=" + v1) + ['&'] + (k2 + "=" + v2) + ['&'] + (k3 + "=" + v3)))
         == path + "?" + k1 + "=" + v1 + "&" + k2 + "=" + v2 + "&" + k3 + "=" + v3
  {
  }

  lemma RenderThreeParams(segments: seq<string>, k1: string, v1: string, k2: string, v2: string, k3: string, v3: string)
    requires |segments| > 0
    ensures Render(Target(segments, [(k1, v1), (k2, v2), (k3, v3)]))
         == Join(segments, '/') + "?" + k1 + "=" + v1 + "&" + k2 + "=" + v2 + "&" + k3 + "=" + v3
  {
    var t := Target(segments, [(k1, v1), (k2, v2), (k3, v3)]);
    AssignThree(k1, v1, k2, v2, k3, v3);
    Join3(k1 + "=" + v1, k2 + "=" + v2, k3 + "=" + v3, '&');
    RenderWithQuery(t);
    Regroup3(Join(segments, '/'), k1, v1, k2, v2, k3, v3);
  }

  lemma TwoParamsWellFormed(a: string, b: string, k1: string, v1: string, k2: string, v2: string)
    requires Segment(a) && Segment(b)
    requires Component(k1) && Component(v1) && Component(k2) && Component(v2)
    ensures WellFormed(Target([a, b], [(k1, v1), (k2, v2)]))
  {
  }

  lemma ThreeParamsWellFormed(a: string, b: string, c: string,
                              k1: string, v1: string, k2: string, v2: string, k3: string, v3: string)
    requires Segment(a) && Segment(b) && Segment(c)
    requires Component(k1) && Component(v1) && Component(k2) && Component(v2) && Component(k3) && Component(v3)
    ensures WellFormed(Target([a, b, c], [(k1, v1), (k2, v2), (k3, v3)]))
  {
  }

  /** `path?k1=v1&k2=v2`. */
  lemma ParseTwoParams(segments: seq<string>, k1: string, v1: string, k2: string, v2: string)
    requires WellFormed(Target(segments, [(k1, v1), (k2, v2)]))
    ensures Parse(Join(segments, '/') + "?" + k1 + "=" + v1 + "&" + k2 + "=" + v2)
         == Some(Target(segments, [(k1, v1), (k2, v2)]))
  {
    RenderTwoParams(segments, k1, v1, k2, v2);
    ParseRender(Target(segments, [(k1, v1), (k2, v2)]));
  }

  /** `path?k1=v1&k2=v2&k3=v3`. */
  lemma ParseThreeParams(segments: seq<string>, k1: string, v1: string, k2: string, v2: string, k3: string, v3: string)
    requires WellFormed(Target(segments, [(k1, v1), (k2, v2), (k3, v3)]))
    ensures Parse(Join(segments, '/') + "?" + k1 + "=" + v1 + "&" + k2 + "=" + v2 + "&" + k3 + "=" + v3)
         == Some(Target(segments, [(k1, v1), (k2, v2), (k3, v3)]))
  {
    RenderThreeParams(segments, k1, v1, k2, v2, k3, v3);
    ParseRender(Target(segments, [(k1, v1), (k2, v2), (k3, v3)]));
  }
}
