/**
 * The routing test double: a table of routes, each a method and a pattern
 * whose `:name` segments are path parameters. A request goes to the first
 * route with its method whose pattern matches its path, the captured
 * segments are bound under the parameter names in the request's context,
 * and a request that no route takes is answered 404.
 *
 * The regular expression a pattern compiles to (`^`, then `/([^/]+)` for a
 * parameter and `/` plus the quoted literal for any other non-empty
 * segment, then `$`) is modelled by the segment list it is built from and
 * a matcher over that list. Handlers are opaque ids.
 */
module TestRouting {
  import opened Wrappers
  import opened GoStrings
  import opened Postmark

  const Colon: byte := 58

  /** A handler function, known only by its identity. */
  type Handler = nat

  /** One non-empty segment of a compiled pattern. */
  datatype Segment = Fixed(text: GoString) | Param(name: GoString)

  /** The path parameters in a request's context (the values stored under `paramKey`). */
  type Context = map<GoString, GoString>

  datatype Route = Route(httpMethod: GoString, pattern: GoString, handler: Handler,
                         regex: Option<seq<Segment>>, params: seq<GoString>)

  datatype Incoming = Incoming(httpMethod: GoString, path: GoString, ctx: Context)

  /** What serving a request did: ran a handler with a context, or wrote 404. */
  datatype Served = Handled(handler: Handler, ctx: Context) | NotFound

  // ---------------------------------------------------------------------
  // compilePattern
  // ---------------------------------------------------------------------

  /** A non-empty part: a parameter when it starts with ":", which is dropped from the name. */
  function SegmentOf(part: GoString): Segment {
    if HasPrefix(part, [Colon]) then Param(part[1..]) else Fixed(part)
  }

  /** The bytes a segment names: the literal text or the parameter name. */
  function SegmentText(seg: Segment): GoString {
    match seg
    case Fixed(text) => text
    case Param(name) => name
  }

  /** The segments of the parts, in order, skipping the empty ones. */
  function CompileParts(parts: seq<GoString>): (segs: seq<Segment>)
    ensures forall j | 0 <= j < |segs| :: segs[j].Fixed? ==> segs[j].text != []
    ensures (forall i | 0 <= i < |parts| :: Slash !in parts[i]) ==>
              forall j | 0 <= j < |segs| :: Slash !in SegmentText(segs[j])
    decreases |parts|
  {
    if parts == [] then []
    else
      var last := parts[|parts| - 1];
      CompileParts(parts[..|parts| - 1]) + (if last == [] then [] else [SegmentOf(last)])
  }

  /** The segment list of a pattern: no literal is empty and no segment holds "/". */
  function Compiled(pattern: GoString): (segs: seq<Segment>)
    ensures forall j | 0 <= j < |segs| :: Slash !in SegmentText(segs[j])
    ensures forall j | 0 <= j < |segs| :: segs[j].Fixed? ==> segs[j].text != []
  {
    CompileParts(Split(pattern, Slash))
  }

  /** The parameter names of a segment list, in order. */
  function ParamNames(segs: seq<Segment>): seq<GoString>
    decreases |segs|
  {
    if segs == [] then []
    else (if segs[0].Param? then [segs[0].name] else []) + ParamNames(segs[1..])
  }

  /** Reference: the parts that start with ":", with the ":" stripped, in order. */
  function ColonNames(parts: seq<GoString>): seq<GoString>
    decreases |parts|
  {
    if parts == [] then []
    else (if HasPrefix(parts[0], [Colon]) then [parts[0][1..]] else []) + ColonNames(parts[1..])
  }

  lemma {:induction false} ParamNamesAppend(a: seq<Segment>, b: seq<Segment>)
    ensures ParamNames(a + b) == ParamNames(a) + ParamNames(b)
    decreases |a|
  {
    if a != [] {
      assert (a + b)[0] == a[0] && (a + b)[1..] == a[1..] + b;
      ParamNamesAppend(a[1..], b);
    } else {
      assert a + b == b;
    }
  }

  lemma {:induction false} ColonNamesAppend(a: seq<GoString>, b: seq<GoString>)
    ensures ColonNames(a + b) == ColonNames(a) + ColonNames(b)
    decreases |a|
  {
    if a != [] {
      assert (a + b)[0] == a[0] && (a + b)[1..] == a[1..] + b;
      ColonNamesAppend(a[1..], b);
    } else {
      assert a + b == b;
    }
  }

  /**
   * The parameter names of a compiled pattern are exactly the parts that
   * start with ":", stripped of it, in the order they appear.
   */
  lemma {:induction false} CompiledParamNames(parts: seq<GoString>)
    ensures ParamNames(CompileParts(parts)) == ColonNames(parts)
    decreases |parts|
  {
    if parts != [] {
      var n := |parts| - 1;
      var last := parts[n];
      assert parts == parts[..n] + [last];
      CompiledParamNames(parts[..n]);
      ParamNamesAppend(CompileParts(parts[..n]), if last == [] then [] else [SegmentOf(last)]);
      ColonNamesAppend(parts[..n], [last]);
      assert ColonNames([last]) == (if HasPrefix(last, [Colon]) then [last[1..]] else []) by {
        assert [last][1..] == [];
      }
    }
  }

  /** A trailing "/" on a pattern changes nothing: `/users/:id/` compiles like `/users/:id`. */
  lemma CompiledTrailingSlash(pattern: GoString)
    ensures Compiled(pattern + [Slash]) == Compiled(pattern)
  {
    SplitTrailing(pattern, Slash);
    var parts := Split(pattern, Slash);
    assert (parts + [[]])[..|parts|] == parts;
  }

  /** One more part compiles to one more segment, or to none when it is empty. */
  lemma CompilePartsSnoc(parts: seq<GoString>, i: nat)
    requires i < |parts|
    ensures CompileParts(parts[..i + 1]) == CompileParts(parts[..i]) + (if parts[i] == [] then [] else [SegmentOf(parts[i])])
  {
    assert parts[..i + 1][..i] == parts[..i];
  }

  /**
   * `regexp.Compile` accepts the text a segment list is built into exactly
   * when every literal is valid UTF-8: `regexp.QuoteMeta` and the text around
   * the literals add only ASCII bytes, and nothing else in that text can be
   * refused.
   */
  predicate LiteralsValid(segs: seq<Segment>) {
    forall j | 0 <= j < |segs| :: segs[j].Fixed? ==> ValidUTF8(segs[j].text)
  }

  /** The text of the panic on a pattern that does not compile. */
  function InvalidPattern(pattern: GoString): GoString {
    Lit("invalid pattern: ") + pattern
  }

  /** Parts of ASCII text compile to literals that are valid UTF-8. */
  lemma {:induction false} CompilePartsASCII(parts: seq<GoString>)
    requires forall i, k | 0 <= i < |parts| && 0 <= k < |parts[i]| :: parts[i][k] < 0x80
    ensures LiteralsValid(CompileParts(parts))
    decreases |parts|
  {
    if parts != [] {
      var n := |parts| - 1;
      var last := parts[n];
      CompilePartsASCII(parts[..n]);
      if last != [] {
        ASCIIValid(last);
      }
    }
  }

  /** A pattern of ASCII bytes always compiles: registering it never panics. */
  lemma ASCIIPatternCompiles(pattern: GoString)
    requires forall k | 0 <= k < |pattern| :: pattern[k] < 0x80
    ensures LiteralsValid(Compiled(pattern))
  {
    SplitBytes(pattern, Slash);
    CompilePartsASCII(Split(pattern, Slash));
  }

  /** The parts of `/\xff/:id`: an empty one, the lone byte 0xFF, and `:id`. */
  lemma InvalidLiteralParts()
    ensures Split([Slash, 0xFF, Slash, Colon, 105, 100], Slash) == [[], [0xFF], [Colon, 105, 100]]
  {
    var pattern: GoString := [Slash, 0xFF, Slash, Colon, 105, 100];
    var id: GoString := [Colon, 105, 100];
    SplitLeading(pattern, Slash);
    SplitAtFirst(pattern[1..], Slash, 1);
    assert pattern[1..][..1] == [0xFF] && pattern[1..][2..] == id;
    assert IndexOf(id, Slash).None? by {
      ContainsByte(id, Slash);
    }
  }

  /** Those parts compile to the literal 0xFF first. */
  lemma InvalidLiteralSegments()
    ensures CompileParts([[], [0xFF], [Colon, 105, 100]])[0] == Fixed([0xFF])
  {
    var parts: seq<GoString> := [[], [0xFF], [Colon, 105, 100]];
    var empty: seq<GoString> := [];
    assert parts[..2][..1] == [[]] && [[]][..0] == empty;
    assert CompileParts([[]]) == [];
    var ff: GoString := [0xFF];
    assert !HasPrefix(ff, [Colon]) by {
      assert ff[..1][0] == 0xFF;
    }
    assert parts[..2][1] == ff && SegmentOf(ff) == Fixed(ff);
    assert CompileParts(parts[..2]) == [Fixed([0xFF])];
    assert parts[..|parts| - 1] == parts[..2];
  }

  /** `/\xff/:id` panics: its literal is the lone byte 0xFF, which no encoding uses. */
  lemma InvalidLiteralPanics()
    ensures var pattern: GoString := [Slash, 0xFF, Slash, Colon, 105, 100];
      Colon in pattern && !LiteralsValid(Compiled(pattern))
  {
    InvalidLiteralParts();
    InvalidLiteralSegments();
    assert RuneLength([0xFF]) == 0;
  }

  /**
   * `compilePattern`: the segments of the pattern and its parameter names,
   * and the panic it raises when the built expression does not compile.
   */
  method CompilePattern(pattern: GoString) returns (segs: seq<Segment>, params: seq<GoString>, panic: Option<GoString>)
    ensures segs == Compiled(pattern)
    ensures params == ParamNames(segs)
    ensures panic.Some? <==> !LiteralsValid(segs)
    ensures panic.Some? ==> panic.value == InvalidPattern(pattern)
  {
    var parts := Split(pattern, Slash);
    segs, params := [], [];
    var i := 0;
    while i < |parts|
      invariant 0 <= i <= |parts|
      invariant segs == CompileParts(parts[..i])
      invariant params == ParamNames(segs)
    {
      var part := parts[i];
      CompilePartsSnoc(parts, i);
      if part != [] {
        var seg: Segment;
        if HasPrefix(part, [Colon]) {
          seg := Param(part[1..]);
          params := params + [part[1..]];
        } else {
          seg := Fixed(part);
        }
        assert ParamNames(segs + [seg]) == params by {
          ParamNamesAppend(segs, [seg]);
          assert [seg][1..] == [];
        }
        segs := segs + [seg];
      }
      i := i + 1;
    }
    assert parts[..|parts|] == parts;
    panic := if LiteralsValid(segs) then None else Some(InvalidPattern(pattern));
  }

  // ---------------------------------------------------------------------
  // The compiled matcher (`FindStringSubmatch` on the anchored pattern)
  // ---------------------------------------------------------------------

  /** A literal takes only its own text; a parameter takes any non-empty segment. */
  predicate Accepts(seg: Segment, piece: GoString) {
    match seg
    case Fixed(text) => piece == text
    case Param(_) => piece != []
  }

  function Capture(seg: Segment, piece: GoString): seq<GoString> {
    if seg.Param? then [piece] else []
  }

  /**
   * The submatches of a compiled pattern against a whole path, or None: each
   * segment consumes "/" and the bytes up to the next "/" (or the end), and
   * nothing may be left over. One capture per parameter.
   */
  function Match(segs: seq<Segment>, path: GoString): (r: Option<seq<GoString>>)
    ensures r.Some? ==> |r.value| == |ParamNames(segs)|
    decreases |segs|
  {
    if segs == [] then
      if path == [] then Some([]) else None
    else if path == [] || path[0] != Slash then None
    else
      var (piece, rest, found) := Cut(path[1..], Slash);
      if !Accepts(segs[0], piece) then None
      else match Match(segs[1..], if found then [Slash] + rest else [])
        case None => None
        case Some(caps) => Some(Capture(segs[0], piece) + caps)
  }

  /** The pieces the parameters take, in order. */
  function Captures(segs: seq<Segment>, pieces: seq<GoString>): seq<GoString>
    requires |pieces| == |segs|
    decreases |segs|
  {
    if segs == [] then [] else Capture(segs[0], pieces[0]) + Captures(segs[1..], pieces[1..])
  }

  /** The fields of a path that starts with "/": an empty one, the first segment, then the fields after it. */
  lemma SplitAfterSlash(path: GoString, piece: GoString, rest: GoString, found: bool)
    requires |path| > 0 && path[0] == Slash
    requires Cut(path[1..], Slash) == (piece, rest, found)
    ensures Split(path, Slash) == [[], piece] + (if found then Split(rest, Slash) else [])
  {
    SplitLeading(path, Slash);
    SplitCut(path[1..], Slash);
  }

  /** The fields of what the matcher passes on after one segment. */
  lemma SplitRemainder(rest: GoString, found: bool)
    ensures Split(if found then [Slash] + rest else [], Slash) == [[]] + (if found then Split(rest, Slash) else [])
  {
    if found {
      SplitAfterSep(rest, Slash);
    } else {
      SplitEmpty(Slash);
    }
  }

  /** The fields line up with the segments: an empty first field, then one accepted field per segment. */
  predicate Aligned(segs: seq<Segment>, fields: seq<GoString>) {
    |fields| == |segs| + 1 && fields[0] == [] &&
    forall i | 0 <= i < |segs| :: Accepts(segs[i], fields[i + 1])
  }

  /** What the matcher is: it matches the aligned paths, capturing the parameters' fields. */
  predicate MatchesAligned(segs: seq<Segment>, path: GoString) {
    var fields := Split(path, Slash);
    && (Match(segs, path).Some? <==> Aligned(segs, fields))
    && (Aligned(segs, fields) ==> Match(segs, path) == Some(Captures(segs, fields[1..])))
  }

  /** Alignment after one segment is alignment of the rest after the field that segment takes. */
  lemma AlignedStep(segs: seq<Segment>, piece: GoString, more: seq<GoString>)
    requires segs != []
    ensures Aligned(segs, [[], piece] + more) <==> Accepts(segs[0], piece) && Aligned(segs[1..], [[]] + more)
    ensures Aligned(segs, [[], piece] + more) ==>
      Captures(segs, ([[], piece] + more)[1..]) == Capture(segs[0], piece) + Captures(segs[1..], ([[]] + more)[1..])
  {
    var fields, next := [[], piece] + more, [[]] + more;
    assert fields[1] == piece;
    if Accepts(segs[0], piece) && Aligned(segs[1..], next) {
      forall i | 0 <= i < |segs| ensures Accepts(segs[i], fields[i + 1]) {
        if i > 0 { assert Accepts(segs[1..][i - 1], next[i]); }
      }
    }
    if Aligned(segs, fields) {
      assert fields[1..][1..] == next[1..];
    }
  }

  /** One segment of the matcher, given what it is on the rest of the path. */
  lemma MatchStep(segs: seq<Segment>, path: GoString)
    requires segs != [] && |path| > 0 && path[0] == Slash
    requires var (piece, rest, found) := Cut(path[1..], Slash);
      MatchesAligned(segs[1..], if found then [Slash] + rest else [])
    ensures MatchesAligned(segs, path)
  {
    var (piece, rest, found) := Cut(path[1..], Slash);
    var more := if found then Split(rest, Slash) else [];
    SplitAfterSlash(path, piece, rest, found);
    SplitRemainder(rest, found);
    AlignedStep(segs, piece, more);
  }

  /** Without the leading "/" the path cannot match, nor be aligned. */
  lemma MatchNoSlash(segs: seq<Segment>, path: GoString)
    requires path == [] || path[0] != Slash || segs == []
    ensures MatchesAligned(segs, path)
  {
    SplitFirstEmpty(path, Slash);
    if path == [] {
      SplitEmpty(Slash);
    } else if path[0] == Slash {
      assert |Split(path, Slash)| > 1 by {
        assert path[..0] == [];
        SplitAtFirst(path, Slash, 0);
      }
    }
  }

  /**
   * A compiled pattern matches a path exactly when splitting the path at
   * "/" gives an empty first field and then one field per segment, each
   * accepted by its segment; the captures are then the parameters' fields.
   * So `/users/123` matches `/users/:id`, and `/users/` and
   * `/users/123/extra` do not.
   */
  lemma {:induction false} MatchBySegments(segs: seq<Segment>, path: GoString)
    ensures var fields := Split(path, Slash);
      && (Match(segs, path).Some? <==> Aligned(segs, fields))
      && (Aligned(segs, fields) ==> Match(segs, path) == Some(Captures(segs, fields[1..])))
    decreases |segs|
  {
    if path == [] || path[0] != Slash || segs == [] {
      MatchNoSlash(segs, path);
    } else {
      var (piece, rest, found) := Cut(path[1..], Slash);
      MatchBySegments(segs[1..], if found then [Slash] + rest else []);
      MatchStep(segs, path);
    }
  }

  // ---------------------------------------------------------------------
  // Binding the captures and reading them back
  // ---------------------------------------------------------------------

  /**
   * The context after the loop of `matchPatternRoute`: parameter i is bound
   * to `matches[i + 1]` when that submatch exists, a later binding of a
   * name shadowing an earlier one.
   */
  function Bind(ctx: Context, params: seq<GoString>, matches: seq<GoString>): Context
    decreases |params|
  {
    if params == [] then ctx
    else
      var n := |params| - 1;
      var before := Bind(ctx, params[..n], matches);
      if n + 1 < |matches| then before[params[n] := matches[n + 1]] else before
  }

  /** A name that is no parameter keeps whatever the context held for it. */
  lemma {:induction false} BindUnbound(ctx: Context, params: seq<GoString>, matches: seq<GoString>, key: GoString)
    requires key !in params
    ensures key in Bind(ctx, params, matches) <==> key in ctx
    ensures key in ctx ==> Bind(ctx, params, matches)[key] == ctx[key]
    decreases |params|
  {
    if params != [] {
      var n := |params| - 1;
      assert key !in params[..n] by {
        forall j | 0 <= j < n ensures params[..n][j] != key { assert params[..n][j] == params[j]; }
      }
      BindUnbound(ctx, params[..n], matches, key);
    }
  }

  /** A parameter is bound to the submatch of its last binding position. */
  lemma {:induction false} BindLast(ctx: Context, params: seq<GoString>, matches: seq<GoString>, i: nat)
    requires i < |params| && i + 1 < |matches|
    requires forall j | i < j < |params| && j + 1 < |matches| :: params[j] != params[i]
    ensures params[i] in Bind(ctx, params, matches)
    ensures Bind(ctx, params, matches)[params[i]] == matches[i + 1]
    decreases |params|
  {
    var n := |params| - 1;
    if i < n {
      var prefix := params[..n];
      assert prefix[i] == params[i];
      BindLast(ctx, prefix, matches, i);
    }
  }

  /** `GetPathParam`: the value bound under the name, or "" when there is none. */
  function GetPathParam(ctx: Context, key: GoString): (r: GoString)
    ensures key in ctx ==> r == ctx[key]
    ensures key !in ctx ==> r == []
  {
    if key in ctx then ctx[key] else []
  }

  // ---------------------------------------------------------------------
  // Routes
  // ---------------------------------------------------------------------

  /** The route `HandleFunc` registers: compiled only when the pattern contains ":". */
  function RouteFor(httpMethod: GoString, pattern: GoString, handler: Handler): (r: Route)
    ensures r.regex.Some? <==> Colon in pattern
  {
    ContainsByte(pattern, Colon);
    if Contains(pattern, [Colon]) then
      Route(httpMethod, pattern, handler, Some(Compiled(pattern)), ParamNames(Compiled(pattern)))
    else Route(httpMethod, pattern, handler, None, [])
  }

  /** The context the route's handler runs with, or None when the path does not match. */
  function RouteMatch(route: Route, req: Incoming): Option<Context> {
    match route.regex
    case None => if route.pattern == req.path then Some(req.ctx) else None
    case Some(segs) =>
      match Match(segs, req.path)
      case None => None
      case Some(caps) =>
        var matches := [req.path] + caps;
        Some(if |matches| > 1 && |route.params| > 0 then Bind(req.ctx, route.params, matches) else req.ctx)
  }

  /** A route takes a request when the method is the same and the path matches. */
  predicate Takes(route: Route, req: Incoming) {
    route.httpMethod == req.httpMethod && RouteMatch(route, req).Some?
  }

  /** The first route that takes the request runs; with none, 404. */
  function Serve(routes: seq<Route>, req: Incoming): Served
    decreases |routes|
  {
    if routes == [] then NotFound
    else if Takes(routes[0], req) then Handled(routes[0].handler, RouteMatch(routes[0], req).value)
    else Serve(routes[1..], req)
  }

  /** A pattern without ":" is matched only by a path equal to it. */
  lemma ExactRoute(httpMethod: GoString, pattern: GoString, handler: Handler, req: Incoming)
    requires Colon !in pattern
    ensures RouteFor(httpMethod, pattern, handler).regex.None?
    ensures RouteMatch(RouteFor(httpMethod, pattern, handler), req).Some? <==> req.path == pattern
    ensures req.path == pattern ==> RouteMatch(RouteFor(httpMethod, pattern, handler), req) == Some(req.ctx)
  {
    ContainsByte(pattern, Colon);
  }

  /**
   * A pattern with ":" matches a path exactly when the path's fields after
   * the leading "/" line up one to one with the pattern's segments.
   */
  lemma PatternRoute(httpMethod: GoString, pattern: GoString, handler: Handler, req: Incoming)
    requires Colon in pattern
    ensures var route := RouteFor(httpMethod, pattern, handler);
      var segs := Compiled(pattern);
      var fields := Split(req.path, Slash);
      && route.regex == Some(segs)
      && route.params == ParamNames(segs)
      && (RouteMatch(route, req).Some? <==> Aligned(segs, fields))
  {
    ContainsByte(pattern, Colon);
    MatchBySegments(Compiled(pattern), req.path);
  }

  /** The context a parameterized route runs its handler with, when the path matches. */
  lemma PatternContext(httpMethod: GoString, pattern: GoString, handler: Handler, req: Incoming)
    requires Colon in pattern
    requires Match(Compiled(pattern), req.path).Some?
    ensures var route := RouteFor(httpMethod, pattern, handler);
      var caps := Match(Compiled(pattern), req.path).value;
      && route.params == ParamNames(Compiled(pattern))
      && |caps| == |route.params|
      && RouteMatch(route, req) == Some(if |route.params| > 0 then Bind(req.ctx, route.params, [req.path] + caps) else req.ctx)
  {
    ContainsByte(pattern, Colon);
  }

  /**
   * In that context each parameter reads back as its capture (the last one
   * when a name repeats).
   */
  lemma PathParamBound(httpMethod: GoString, pattern: GoString, handler: Handler, req: Incoming, i: nat)
    requires Colon in pattern
    requires Match(Compiled(pattern), req.path).Some?
    requires var params := RouteFor(httpMethod, pattern, handler).params;
      i < |params| && forall j | i < j < |params| :: params[j] != params[i]
    ensures var route := RouteFor(httpMethod, pattern, handler);
      GetPathParam(RouteMatch(route, req).value, route.params[i]) == Match(Compiled(pattern), req.path).value[i]
  {
    PatternContext(httpMethod, pattern, handler, req);
    var params := RouteFor(httpMethod, pattern, handler).params;
    var caps := Match(Compiled(pattern), req.path).value;
    var matches := [req.path] + caps;
    BindLast(req.ctx, params, matches, i);
    assert matches[i + 1] == caps[i];
  }

  /** In that context a name that is no parameter reads back as it did before the match. */
  lemma PathParamUnbound(httpMethod: GoString, pattern: GoString, handler: Handler, req: Incoming, key: GoString)
    requires Colon in pattern
    requires Match(Compiled(pattern), req.path).Some?
    requires key !in RouteFor(httpMethod, pattern, handler).params
    ensures GetPathParam(RouteMatch(RouteFor(httpMethod, pattern, handler), req).value, key) == GetPathParam(req.ctx, key)
  {
    PatternContext(httpMethod, pattern, handler, req);
    var params := RouteFor(httpMethod, pattern, handler).params;
    if |params| > 0 {
      BindUnbound(req.ctx, params, [req.path] + Match(Compiled(pattern), req.path).value, key);
    }
  }

  /** The first route that takes a request is the one that runs. */
  lemma {:induction false} ServeFirst(routes: seq<Route>, req: Incoming, i: nat)
    requires i < |routes| && Takes(routes[i], req)
    requires forall j | 0 <= j < i :: !Takes(routes[j], req)
    ensures Serve(routes, req) == Handled(routes[i].handler, RouteMatch(routes[i], req).value)
    decreases i
  {
    if i > 0 {
      assert !Takes(routes[0], req);
      ServeFirst(routes[1..], req, i - 1);
    }
  }

  /** 404 exactly when no route takes the request, whether for its method or its path. */
  lemma {:induction false} ServeNotFound(routes: seq<Route>, req: Incoming)
    ensures Serve(routes, req) == NotFound <==> forall i | 0 <= i < |routes| :: !Takes(routes[i], req)
    ensures Serve(routes, req).Handled? ==> exists i | 0 <= i < |routes| :: Takes(routes[i], req)
    decreases |routes|
  {
    if routes != [] {
      ServeNotFound(routes[1..], req);
      if Serve(routes[1..], req).Handled? && !Takes(routes[0], req) {
        var i :| 0 <= i < |routes[1..]| && Takes(routes[1..][i], req);
        assert Takes(routes[i + 1], req);
      }
      if forall i | 0 <= i < |routes[1..]| :: !Takes(routes[1..][i], req) {
        forall i | 0 <= i < |routes| ensures !Takes(routes[i], req) || (i == 0 && Takes(routes[0], req)) {
          if i > 0 { assert routes[i] == routes[1..][i - 1]; }
        }
      } else {
        var i :| 0 <= i < |routes[1..]| && Takes(routes[1..][i], req);
        assert Takes(routes[i + 1], req);
      }
    }
  }

  /** Registering another route never changes how a request already served is served. */
  lemma {:induction false} ServeEarlierWins(routes: seq<Route>, route: Route, req: Incoming)
    requires Serve(routes, req).Handled?
    ensures Serve(routes + [route], req) == Serve(routes, req)
    decreases |routes|
  {
    assert routes != [];
    assert (routes + [route])[0] == routes[0];
    if !Takes(routes[0], req) {
      assert (routes + [route])[1..] == routes[1..] + [route];
      ServeEarlierWins(routes[1..], route, req);
    }
  }

  // ---------------------------------------------------------------------
  // The router
  // ---------------------------------------------------------------------

  class TestRouter {
    var routes: seq<Route>

    /** `NewTestRouter`: no routes. */
    constructor ()
      ensures routes == []
    {
      routes := [];
    }

    /**
     * `HandleFunc`: one more route at the end, compiled when the pattern has
     * ":"; a pattern with ":" whose literals do not compile panics instead,
     * before anything is registered.
     */
    method HandleFunc(httpMethod: GoString, pattern: GoString, handler: Handler) returns (panic: Option<GoString>)
      modifies this
      ensures panic.Some? <==> Colon in pattern && !LiteralsValid(Compiled(pattern))
      ensures panic.Some? ==> panic.value == InvalidPattern(pattern) && routes == old(routes)
      ensures panic.None? ==> routes == old(routes) + [RouteFor(httpMethod, pattern, handler)]
    {
      ContainsByte(pattern, Colon);
      var regex: Option<seq<Segment>> := None;
      var params: seq<GoString> := [];
      panic := None;
      if Contains(pattern, [Colon]) {
        var segs;
        segs, params, panic := CompilePattern(pattern);
        if panic.Some? {
          return;
        }
        regex := Some(segs);
      }
      routes := routes + [Route(httpMethod, pattern, handler, regex, params)];
    }

    method Get(pattern: GoString, handler: Handler) returns (panic: Option<GoString>)
      modifies this
      ensures panic.Some? <==> Colon in pattern && !LiteralsValid(Compiled(pattern))
      ensures panic.Some? ==> panic.value == InvalidPattern(pattern) && routes == old(routes)
      ensures panic.None? ==> routes == old(routes) + [RouteFor(MethodGet, pattern, handler)]
    {
      panic := HandleFunc(MethodGet, pattern, handler);
    }

    method Post(pattern: GoString, handler: Handler) returns (panic: Option<GoString>)
      modifies this
      ensures panic.Some? <==> Colon in pattern && !LiteralsValid(Compiled(pattern))
      ensures panic.Some? ==> panic.value == InvalidPattern(pattern) && routes == old(routes)
      ensures panic.None? ==> routes == old(routes) + [RouteFor(MethodPost, pattern, handler)]
    {
      panic := HandleFunc(MethodPost, pattern, handler);
    }

    method Put(pattern: GoString, handler: Handler) returns (panic: Option<GoString>)
      modifies this
      ensures panic.Some? <==> Colon in pattern && !LiteralsValid(Compiled(pattern))
      ensures panic.Some? ==> panic.value == InvalidPattern(pattern) && routes == old(routes)
      ensures panic.None? ==> routes == old(routes) + [RouteFor(MethodPut, pattern, handler)]
    {
      panic := HandleFunc(MethodPut, pattern, handler);
    }

    method Delete(pattern: GoString, handler: Handler) returns (panic: Option<GoString>)
      modifies this
      ensures panic.Some? <==> Colon in pattern && !LiteralsValid(Compiled(pattern))
      ensures panic.Some? ==> panic.value == InvalidPattern(pattern) && routes == old(routes)
      ensures panic.None? ==> routes == old(routes) + [RouteFor(MethodDelete, pattern, handler)]
    {
      panic := HandleFunc(MethodDelete, pattern, handler);
    }

    method Patch(pattern: GoString, handler: Handler) returns (panic: Option<GoString>)
      modifies this
      ensures panic.Some? <==> Colon in pattern && !LiteralsValid(Compiled(pattern))
      ensures panic.Some? ==> panic.value == InvalidPattern(pattern) && routes == old(routes)
      ensures panic.None? ==> routes == old(routes) + [RouteFor(MethodPatch, pattern, handler)]
    {
      panic := HandleFunc(MethodPatch, pattern, handler);
    }

    /** `ServeHTTP`: try the routes in order, skipping other methods; 404 when none matches. */
    method ServeHTTP(req: Incoming) returns (served: Served)
      ensures served == Serve(routes, req)
    {
      var i := 0;
      while i < |routes|
        invariant 0 <= i <= |routes|
        invariant Serve(routes, req) == Serve(routes[i..], req)
      {
        assert routes[i..][1..] == routes[i + 1..];
        var r := routes[i];
        if r.httpMethod != req.httpMethod {
          i := i + 1;
          continue;
        }
        var ctx := MatchRoute(r, req);
        if ctx.Some? {
          return Handled(r.handler, ctx.value);
        }
        i := i + 1;
      }
      served := NotFound;
    }

    /** `matchRoute`: exact comparison for an uncompiled route, the matcher otherwise. */
    method MatchRoute(route: Route, req: Incoming) returns (ctx: Option<Context>)
      ensures ctx == RouteMatch(route, req)
    {
      if route.regex.None? {
        ctx := MatchExactRoute(route, req);
      } else {
        ctx := MatchPatternRoute(route, req);
      }
    }

    /** `matchExactRoute`: the handler runs with the request's own context when the path is the pattern. */
    method MatchExactRoute(route: Route, req: Incoming) returns (ctx: Option<Context>)
      requires route.regex.None?
      ensures ctx.Some? <==> route.pattern == req.path
      ensures ctx.Some? ==> ctx.value == req.ctx
    {
      if route.pattern == req.path {
        return Some(req.ctx);
      }
      return None;
    }

    /**
     * `matchPatternRoute`: on a match, each parameter is bound to its
     * submatch in a context extended from the request's.
     */
    method MatchPatternRoute(route: Route, req: Incoming) returns (ctx: Option<Context>)
      requires route.regex.Some?
      ensures ctx == RouteMatch(route, req)
    {
      var found := Match(route.regex.value, req.path);
      if found.None? {
        return None;
      }
      var matches := [req.path] + found.value;
      var bound := req.ctx;
      if |matches| > 1 && |route.params| > 0 {
        var i := 0;
        while i < |route.params|
          invariant 0 <= i <= |route.params|
          invariant bound == Bind(req.ctx, route.params[..i], matches)
        {
          assert route.params[..i + 1][..i] == route.params[..i];
          if i + 1 < |matches| {
            bound := bound[route.params[i] := matches[i + 1]];
          }
          i := i + 1;
        }
        assert route.params[..|route.params|] == route.params;
      }
      return Some(bound);
    }
  }
}
