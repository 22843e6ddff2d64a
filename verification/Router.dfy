/** Route paths of core/runtime/router.go: splitting, the mux prefix, and path parameters. */
module Router {
  import opened Text

  type Args = map<string, string>

  function NonEmpty(parts: seq<string>): seq<string> {
    if parts == [] then []
    else (if parts[0] == "" then [] else [parts[0]]) + NonEmpty(parts[1..])
  }

  /** The non-empty pieces between slashes. */
  function Segments(path: string): seq<string> { NonEmpty(Split(path, '/')) }

  predicate IsParam(segment: string) { |segment| > 1 && segment[0] == ':' }

  /** `"/" + strings.Join(segments, "/")` */
  function Path(segments: seq<string>): string {
    "/" + if segments == [] then "" else Join(segments, '/')
  }

  /** A piece up to a slash, followed by the rest. */
  lemma SegmentsAtSlash(piece: string, rest: string)
    requires '/' !in piece
    ensures Segments(piece + "/" + rest) == (if piece == "" then [] else [piece]) + Segments(rest)
  {
    assert piece + "/" + rest == piece + ['/'] + rest;
    SplitFirst(piece, rest, '/');
    assert ([piece] + Split(rest, '/'))[1..] == Split(rest, '/');
  }

  lemma SegmentsOfPiece(piece: string)
    requires '/' !in piece
    ensures Segments(piece) == if piece == "" then [] else [piece]
  {
    SplitOnePiece(piece, '/');
    assert [piece][1..] == [] && NonEmpty([]) == [];
  }

  /** One character of the loop: a slash ends the current piece, anything else extends it. */
  lemma SegmentsStep(piece: string, c: char, rest: string)
    requires '/' !in piece
    ensures c == '/' ==> Segments(piece + ([c] + rest)) == (if piece == "" then [] else [piece]) + Segments("" + rest)
    ensures c != '/' ==> piece + ([c] + rest) == (piece + [c]) + rest
  {
    if c == '/' {
      SegmentsAtSlash(piece, rest);
      assert piece + ([c] + rest) == piece + "/" + rest && "" + rest == rest;
    }
  }

  method SplitPath(p: string) returns (out: seq<string>)
    ensures out == Segments(p)
  {
    out := [];
    var cur := "";
    assert cur + p[0..] == p;
    for i := 0 to |p|
      invariant '/' !in cur
      invariant Segments(p) == out + Segments(cur + p[i..])
    {
      var c := p[i];
      assert p[i..] == [c] + p[i + 1..];
      SegmentsStep(cur, c, p[i + 1..]);
      if c == '/' {
        if cur != "" {
          out := out + [cur];
          cur := "";
        }
        continue;
      }
      cur := cur + [c];
    }
    assert cur + p[|p|..] == cur;
    SegmentsOfPiece(cur);
    if cur != "" {
      out := out + [cur];
    }
  }

  /** The position of the first parameter segment, or the number of segments. */
  function FirstParam(segments: seq<string>): (i: nat)
    ensures i <= |segments| && (i < |segments| ==> |segments[i]| > 1 && segments[i][0] == ':')
    ensures forall j :: 0 <= j < i ==> !(|segments[j]| > 1 && segments[j][0] == ':')
  {
    if segments == [] || IsParam(segments[0]) then 0 else 1 + FirstParam(segments[1..])
  }

  /** The subtree a route with parameters is registered under, or the route itself. */
  method MuxPath(route: string) returns (prefix: string)
    ensures var segments := Segments(route); var i := FirstParam(segments);
      prefix == if i == |segments| then route else if i == 0 then "/" else Path(segments[..i]) + "/"
  {
    var parts := SplitPath(route);
    for i := 0 to |parts|
      invariant forall j :: 0 <= j < i ==> !IsParam(parts[j])
    {
      if IsParam(parts[i]) {
        FirstParamIs(parts, i);
        prefix := Path(parts[..i]);
        if i == 0 {
          return;
        }
        PathEnd(parts[..i], route);
        if prefix[|prefix| - 1] != '/' {
          prefix := prefix + "/";
        }
        return;
      }
    }
    FirstParamIs(parts, |parts|);
    return route;
  }

  lemma FirstParamIs(segments: seq<string>, i: nat)
    requires i <= |segments| && (i < |segments| ==> IsParam(segments[i]))
    requires forall j :: 0 <= j < i ==> !IsParam(segments[j])
    ensures FirstParam(segments) == i
  {
  }

  ghost predicate Plain(segments: seq<string>) {
    forall i :: 0 <= i < |segments| ==> segments[i] != "" && '/' !in segments[i]
  }

  lemma {:induction false} NonEmptyPlain(parts: seq<string>)
    requires Without(parts, '/')
    ensures Plain(NonEmpty(parts))
  {
    if parts != [] { NonEmptyPlain(parts[1..]); }
  }

  lemma SegmentsPlain(path: string)
    ensures Plain(Segments(path))
  {
    SplitHasNoSeparator(path, '/');
    NonEmptyPlain(Split(path, '/'));
  }

  /** A path of plain segments does not end in a slash. */
  lemma PathEnd(segments: seq<string>, route: string)
    requires segments != [] && segments <= Segments(route)
    ensures Path(segments)[|Path(segments)| - 1] != '/'
  {
    SegmentsPlain(route);
    JoinEnd(segments);
  }

  lemma {:induction false} JoinEnd(segments: seq<string>)
    requires segments != [] && Plain(segments)
    ensures Join(segments, '/') != "" && Join(segments, '/')[|Join(segments, '/')| - 1] != '/'
  {
    var last := segments[|segments| - 1];
    if |segments| > 1 {
      JoinEnd(segments[1..]);
    } else {
      assert last[|last| - 1] in last;
    }
  }

  /** What extraction makes of the first n segments of a route and a path. */
  function Extracted(route: seq<string>, path: seq<string>, args: Args, n: nat): Args
    requires n <= |route| && n <= |path|
  {
    if n == 0 then args
    else
      var before := Extracted(route, path, args, n - 1);
      if IsParam(route[n - 1]) then before[route[n - 1][1..] := path[n - 1]] else before
  }

  /** A parameter, ":" and a name, binds its name to the path's segment at the last place where it stands. */
  lemma {:induction false} ParamBinds(route: seq<string>, path: seq<string>, args: Args, n: nat, i: nat, name: string)
    requires i < n <= |route| && n <= |path| && name != ""
    requires route[i] == ":" + name && forall j :: i < j < n ==> route[j] != ":" + name
    ensures name in Extracted(route, path, args, n) && Extracted(route, path, args, n)[name] == path[i]
  {
    var last := route[n - 1];
    if i < n - 1 {
      ParamBinds(route, path, args, n - 1, i, name);
      if IsParam(last) { assert last == ":" + last[1..]; }
    } else {
      assert IsParam(last) && last[1..] == name;
    }
  }

  /** And a name that no parameter has keeps what it had. */
  lemma {:induction false} OthersKept(route: seq<string>, path: seq<string>, args: Args, n: nat, name: string)
    requires n <= |route| && n <= |path|
    requires name != "" ==> forall j :: 0 <= j < n ==> route[j] != ":" + name
    ensures name in Extracted(route, path, args, n) <==> name in args
    ensures name in args ==> Extracted(route, path, args, n)[name] == args[name]
  {
    if n > 0 {
      OthersKept(route, path, args, n - 1, name);
      var last := route[n - 1];
      if IsParam(last) { assert last == ":" + last[1..]; }
    }
  }

  method ExtractPathParams(route: string, path: string, args: Args) returns (result: Args)
    ensures var r, p := Segments(route), Segments(path);
      result == if |p| < |r| then args else Extracted(r, p, args, |r|)
  {
    var routeParts := SplitPath(route);
    var pathParts := SplitPath(path);
    result := args;
    if |routeParts| != |pathParts| {
      if |pathParts| < |routeParts| {
        return;
      }
    }
    var limit := |routeParts|;
    if |pathParts| < limit {
      limit := |pathParts|;
    }
    for i := 0 to limit
      invariant result == Extracted(routeParts, pathParts, args, i)
    {
      var rp := routeParts[i];
      if IsParam(rp) {
        result := result[rp[1..] := pathParts[i]];
      }
    }
  }

  // ---- Building a path and reading it back ----

  lemma {:induction false} SegmentsOfJoin(segments: seq<string>)
    requires segments != [] && Plain(segments)
    ensures Segments(Join(segments, '/')) == segments
  {
    SplitOfJoin(segments, '/');
    NonEmptyKeeps(segments);
  }

  lemma {:induction false} NonEmptyKeeps(segments: seq<string>)
    requires Plain(segments)
    ensures NonEmpty(segments) == segments
  {
    if segments != [] { NonEmptyKeeps(segments[1..]); }
  }

  /** Plain segments survive being written as a path and split again. */
  lemma SegmentsOfPath(segments: seq<string>)
    requires Plain(segments)
    ensures Segments(Path(segments)) == segments
  {
    if segments == [] {
      SegmentsOfPiece("");
      SegmentsAtSlash("", "");
      assert Path(segments) == "" + "/" + "";
    } else {
      SegmentsOfJoin(segments);
      SegmentsAtSlash("", Join(segments, '/'));
      assert Path(segments) == "" + "/" + Join(segments, '/');
    }
  }

  function ParamNames(route: seq<string>): set<string> {
    set i | 0 <= i < |route| && IsParam(route[i]) :: route[i][1..]
  }

  /** The route with every parameter replaced by its value. */
  function Instance(route: seq<string>, binding: Args): seq<string>
    requires ParamNames(route) <= binding.Keys
  {
    seq(|route|, i requires 0 <= i < |route| =>
      if IsParam(route[i]) then (assert route[i][1..] in ParamNames(route); binding[route[i][1..]]) else route[i])
  }

  ghost predicate GoodValues(binding: Args) {
    forall name :: name in binding ==> binding[name] != "" && '/' !in binding[name]
  }

  lemma {:induction false} ExtractedFromInstance(route: seq<string>, binding: Args, extra: seq<string>, args: Args,
      n: nat)
    requires ParamNames(route) <= binding.Keys && n <= |route|
    ensures Extracted(route, Instance(route, binding) + extra, args, n) ==
            args + (map name | name in ParamNames(route[..n]) && name in binding :: binding[name])
  {
    if n > 0 {
      ExtractedFromInstance(route, binding, extra, args, n - 1);
      var before, now := ParamNames(route[..n - 1]), ParamNames(route[..n]);
      NamesOfPrefix(route, n);
      assert (Instance(route, binding) + extra)[n - 1] == Instance(route, binding)[n - 1];
    } else {
      assert ParamNames(route[..0]) == {};
    }
  }

  lemma NamesOfPrefix(route: seq<string>, n: nat)
    requires 0 < n <= |route|
    ensures ParamNames(route[..n]) ==
      ParamNames(route[..n - 1]) + (if IsParam(route[n - 1]) then {route[n - 1][1..]} else {})
  {
    var before, now := route[..n - 1], route[..n];
    forall name | name in ParamNames(now)
      ensures name in ParamNames(before) || (IsParam(route[n - 1]) && name == route[n - 1][1..])
    {
      var i :| 0 <= i < n && IsParam(now[i]) && now[i][1..] == name;
      if i < n - 1 { assert before[i] == now[i]; }
    }
    forall name | name in ParamNames(before) ensures name in ParamNames(now) {
      var i :| 0 <= i < n - 1 && IsParam(before[i]) && before[i][1..] == name;
      assert now[i] == before[i];
    }
    if IsParam(route[n - 1]) { assert now[n - 1] == route[n - 1]; }
  }

  /** Extraction from an instance, with anything after it, gives the binding back. */
  lemma ExtractsBinding(route: seq<string>, binding: Args, extra: seq<string>)
    requires ParamNames(route) == binding.Keys
    ensures Extracted(route, Instance(route, binding) + extra, map[], |route|) == binding
  {
    ExtractedFromInstance(route, binding, extra, map[], |route|);
    assert route[..|route|] == route;
  }

  /** The instance of a route followed by `extra` is plain. */
  lemma InstancePlain(route: seq<string>, binding: Args, extra: seq<string>)
    requires Plain(route) && Plain(extra) && GoodValues(binding) && ParamNames(route) == binding.Keys
    ensures Plain(Instance(route, binding) + extra)
  {
    forall i | 0 <= i < |route| ensures var s := Instance(route, binding)[i]; s != "" && '/' !in s {
      if IsParam(route[i]) { assert route[i][1..] in ParamNames(route); }
    }
  }

  /** For every route and every binding of exactly its parameters to non-empty slash-free values, the
      instantiated path - with anything after it - gives the binding back, and the route's mux path is
      a prefix of that path if the route has parameters. */
  method BuildAndExtract(route: string, binding: Args, extra: seq<string>)
    returns (path: string, args: Args, prefix: string)
    requires Plain(extra) && GoodValues(binding) && ParamNames(Segments(route)) == binding.Keys
    ensures path == Path(Instance(Segments(route), binding) + extra)
    ensures args == binding
    ensures if binding == map[] then prefix == route else prefix <= path
  {
    var parts := SplitPath(route);
    var filled := Instance(parts, binding) + extra;
    path := Path(filled);
    SegmentsPlain(route);
    InstancePlain(parts, binding, extra);
    SegmentsOfPath(filled);
    ExtractsBinding(parts, binding, extra);
    args := ExtractPathParams(route, path, map[]);
    prefix := MuxPath(route);
    PrefixOfInstance(parts, binding, extra);
  }

  /** Without parameters nothing is bound; with them the registered subtree contains every instance. */
  lemma PrefixOfInstance(route: seq<string>, binding: Args, extra: seq<string>)
    requires ParamNames(route) == binding.Keys
    ensures var i := FirstParam(route);
      if i == |route| then binding == map[]
      else
        && binding != map[]
        && (if i == 0 then "/" else Path(route[..i]) + "/") <= Path(Instance(route, binding) + extra)
  {
    var i := FirstParam(route);
    if i < |route| {
      assert route[i][1..] in ParamNames(route);
      if i > 0 { PrefixAt(route, binding, extra, i); }
    } else {
      assert ParamNames(route) == {};
    }
  }

  lemma PrefixAt(route: seq<string>, binding: Args, extra: seq<string>, i: nat)
    requires ParamNames(route) == binding.Keys && 0 < i < |route|
    requires forall j :: 0 <= j < i ==> !IsParam(route[j])
    ensures Path(route[..i]) + "/" <= Path(Instance(route, binding) + extra)
  {
    var all := Instance(route, binding) + extra;
    assert all[..i] == route[..i];
    PathPrefix(all, i);
  }

  lemma PathPrefix(segments: seq<string>, i: nat)
    requires 0 < i < |segments|
    ensures Path(segments[..i]) + "/" <= Path(segments)
  {
    JoinSplitsAt(segments, i);
    assert Path(segments) == (Path(segments[..i]) + "/") + Join(segments[i..], '/');
  }

  lemma {:induction false} JoinSplitsAt(segments: seq<string>, i: nat)
    requires 0 < i < |segments|
    ensures Join(segments, '/') == Join(segments[..i], '/') + "/" + Join(segments[i..], '/')
  {
    if i > 1 {
      JoinSplitsAt(segments[1..], i - 1);
      assert segments[1..][..i - 1] == segments[..i][1..];
      assert segments[1..][i - 1..] == segments[i..];
    } else {
      assert segments[..1] == [segments[0]];
    }
  }
}
