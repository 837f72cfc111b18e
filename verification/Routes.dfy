/** The route table: which handler a request reaches, and with which parameters. */
module Routes {
  import opened Collections
  import opened Handlers
  import opened Text

  /** A path segment of a pattern: fixed text or a variable that takes any one non-empty segment. */
  datatype Segment = Lit(text: string) | Storage | File

  datatype Handler =
    | Metrics | Redirect | Resources | Register | Login
    | IndexHTML | View | Upload | Remove | GetFile | ShareText

  datatype Verb = GET | POST | Other(name: string)

  /**
   * The pattern is given by its segments: "/{storage}/" is [Storage, Lit("")]. The comma-separated methods are a set,
   * and None where a route takes every method.
   */
  datatype Route = Route(pattern: seq<Segment>, isPrefix: bool, methods: Option<set<Verb>>, isPublic: bool,
                         permanentPath: bool, handler: Handler)

  const SLASH := Lit("")
  const PERMANENT := Lit("permanent")

  /** Registered by the service library before the table, for every method and without the parameters. */
  const METRICS := Route([Lit("metrics"), SLASH], false, None, false, false, Metrics)

  const ROOT := Route([SLASH], false, Some({GET}), true, false, Redirect)
  const RESOURCES := Route([Lit("res"), SLASH], true, Some({GET}), true, false, Resources)
  const REGISTER := Route([Lit("register"), SLASH], false, Some({GET, POST}), true, false, Register)
  const LOGIN := Route([Lit("login"), Storage, SLASH], false, Some({GET, POST}), true, false, Login)
  const INDEX := Route([Storage, Lit("index.html")], false, Some({GET}), false, false, IndexHTML)
  const PERMANENT_INDEX := Route([Storage, PERMANENT, Lit("index.html")], false, Some({GET}), false, true, IndexHTML)
  const PERMANENT_FILE := Route([Storage, PERMANENT, File, SLASH], false, Some({GET}), false, true, GetFile)
  const PERMANENT_VIEW := Route([Storage, PERMANENT, SLASH], false, Some({GET}), false, true, View)
  const FILE := Route([Storage, File, SLASH], false, Some({GET}), false, false, GetFile)
  const VIEW := Route([Storage, SLASH], false, Some({GET}), false, false, View)
  const UPLOAD := Route([Storage, Lit("upload"), SLASH], false, Some({POST}), false, false, Upload)
  const PERMANENT_UPLOAD := Route([Storage, PERMANENT, Lit("upload"), SLASH], false, Some({POST}), false, true, Upload)
  const REMOVE := Route([Storage, Lit("remove"), SLASH], false, Some({POST}), false, false, Remove)
  const PERMANENT_REMOVE := Route([Storage, PERMANENT, Lit("remove"), SLASH], false, Some({POST}), false, true, Remove)
  const SHARE_TEXT := Route([Storage, Lit("shareText"), SLASH], false, Some({POST}), false, false, ShareText)
  const PERMANENT_SHARE_TEXT :=
    Route([Storage, PERMANENT, Lit("shareText"), SLASH], false, Some({POST}), false, true, ShareText)

  /** Where the first page sends its visitors. */
  const HOME := "/common/"

  /** The table, in the order the routes are tried. */
  function Configure(): (r: seq<Route>)
    ensures |r| == 16
  {
    [ROOT, RESOURCES, REGISTER, LOGIN, INDEX, PERMANENT_INDEX, PERMANENT_FILE, PERMANENT_VIEW, FILE, VIEW,
     UPLOAD, PERMANENT_UPLOAD, REMOVE, PERMANENT_REMOVE, SHARE_TEXT, PERMANENT_SHARE_TEXT]
  }

  /** All routes of the running service. */
  function Deployed(): (r: seq<Route>)
    ensures |r| == 17 && r[1..] == Configure()
  {
    [METRICS] + Configure()
  }

  // ----- paths -----

  /** The segments of a path that starts with a slash. */
  function Segments(path: string): seq<string> { Split(path, '/')[1..] }

  function PathOf(segs: seq<string>): string
    requires segs != []
  {
    "/" + Join(segs, '/')
  }

  predicate Rooted(path: string) { path != "" && path[0] == '/' }

  /** Empty and "." segments are skipped, ".." takes back the segment before it. */
  function Resolve(segs: seq<string>, kept: seq<string>): seq<string>
    decreases |segs|
  {
    if segs == [] then kept
    else if segs[0] == "" || segs[0] == "." then Resolve(segs[1..], kept)
    else if segs[0] == ".." then Resolve(segs[1..], if kept == [] then [] else kept[..|kept| - 1])
    else Resolve(segs[1..], kept + [segs[0]])
  }

  predicate EndsInSlash(segs: seq<string>) { segs != [] && segs[|segs| - 1] == "" }

  /** A final slash is kept. */
  function Canonical(segs: seq<string>): (r: seq<string>)
    requires segs != []
    ensures r != []
  {
    var kept := Resolve(segs, []);
    if kept == [] || EndsInSlash(segs) then kept + [""] else kept
  }

  lemma SegmentsOfRooted(path: string)
    requires Rooted(path)
    ensures Segments(path) == Split(path[1..], '/') && Segments(path) != []
    ensures PathOf(Segments(path)) == path && forall s | s in Segments(path) :: '/' !in s
    ensures EndsInSlash(Segments(path)) <==> path[|path| - 1] == '/'
  {
    assert Split(path, '/') == [""] + Split(path[1..], '/');
    JoinSplit(path[1..], '/');
    SplitEnd(path[1..], '/');
    assert "/" + path[1..] == path;
  }

  lemma SegmentsOfPath(segs: seq<string>)
    requires segs != [] && forall s | s in segs :: '/' !in s
    ensures Rooted(PathOf(segs)) && Segments(PathOf(segs)) == segs
  {
    assert PathOf(segs)[1..] == Join(segs, '/');
    SegmentsOfRooted(PathOf(segs));
    SplitJoin(segs, '/');
  }

  /** The canonical form the router redirects to before it looks at any route. */
  function CleanPath(path: string): (r: string)
    ensures Rooted(r)
  {
    var p := if Rooted(path) then path else "/" + path;
    SegmentsOfRooted(p);
    PathOf(Canonical(Segments(p)))
  }

  // ----- matching -----

  predicate Takes(p: Segment, s: string) {
    match p
    case Lit(text) => s == text
    case _ => s != ""
  }

  /** Without the empty segment a final slash leaves. */
  function Bare(segs: seq<string>): seq<string> { if EndsInSlash(segs) then segs[..|segs| - 1] else segs }

  function Stem(pattern: seq<Segment>): seq<Segment> {
    if pattern != [] && pattern[|pattern| - 1] == SLASH then pattern[..|pattern| - 1] else pattern
  }

  /** The router is strict about slashes: it compiles every exact pattern with an optional slash at its end. */
  predicate Covers(pattern: seq<Segment>, segs: seq<string>) { Agree(Stem(pattern), Bare(segs)) }

  predicate Agree(pattern: seq<Segment>, segs: seq<string>) {
    |pattern| == |segs| && forall k | 0 <= k < |pattern| :: Takes(pattern[k], segs[k])
  }

  /** A prefix pattern ends in a slash: all before that slash must agree, anything may follow. */
  predicate CoversPrefix(pattern: seq<Segment>, segs: seq<string>) {
    0 < |pattern| <= |segs| && forall k | 0 <= k < |pattern| - 1 :: Takes(pattern[k], segs[k])
  }

  predicate CoversPath(r: Route, segs: seq<string>) {
    if r.isPrefix then CoversPrefix(r.pattern, segs) else Covers(r.pattern, segs)
  }

  predicate Allows(r: Route, m: Verb) { r.methods.Some? ==> m in r.methods.value }

  predicate Matches(r: Route, m: Verb, segs: seq<string>) { CoversPath(r, segs) && Allows(r, m) }

  /** A path that matches an exact pattern but for the final slash is redirected to the pattern's spelling. */
  predicate SlashDiffers(r: Route, segs: seq<string>) {
    !r.isPrefix && EndsInSlash(segs) != (r.pattern != [] && r.pattern[|r.pattern| - 1] == SLASH)
  }

  function OtherSlash(path: string): string
    requires path != ""
  {
    if path[|path| - 1] == '/' then path[..|path| - 1] else path + "/"
  }

  /** The value mux.Vars gives a variable; the empty string when the pattern has none of that name. */
  function Lookup(pattern: seq<Segment>, segs: seq<string>, v: Segment): string {
    if pattern == [] || segs == [] then ""
    else if pattern[0] == v then segs[0]
    else Lookup(pattern[1..], segs[1..], v)
  }

  /** The parameters a handler finds behind route r. */
  function Given(r: Route, segs: seq<string>): StorageParameters {
    if r.handler == Metrics then StorageParameters("", false, false, "")
    else
      var storage := Lookup(r.pattern, segs, Storage);
      StorageParameters(storage, r.isPublic, storage != "" && r.permanentPath, Lookup(r.pattern, segs, File))
  }

  /** Whatever was not in the path is not in the context, and reading the context gives what the route says. */
  method StoreRouterParameters(r: Route, segs: seq<string>) returns (ctx: Context)
    ensures r.handler != Metrics ==> Parameters(ctx) == Given(r, segs)
    ensures ctx.publicStorage.Some? && (ctx.userName.Some? <==> Lookup(r.pattern, segs, Storage) != "")
    ensures ctx.permanentStorage.Some? <==> ctx.userName.Some?
    ensures ctx.fileName.Some? <==> Lookup(r.pattern, segs, File) != ""
  {
    ctx := BACKGROUND.(publicStorage := Some(r.isPublic));
    var storage := Lookup(r.pattern, segs, Storage);
    if storage != "" {
      ctx := ctx.(userName := Some(storage));
      ctx := ctx.(permanentStorage := Some(r.permanentPath));
    }
    var file := Lookup(r.pattern, segs, File);
    if file != "" {
      ctx := ctx.(fileName := Some(file));
    }
  }

  function FirstMatch(table: seq<Route>, m: Verb, segs: seq<string>): Option<Route> {
    if table == [] then None
    else if Matches(table[0], m, segs) then Some(table[0])
    else FirstMatch(table[1..], m, segs)
  }

  lemma {:induction false} FirstMatchAt(table: seq<Route>, m: Verb, segs: seq<string>, i: nat)
    requires i < |table| && Matches(table[i], m, segs)
    requires forall j | 0 <= j < i :: !Matches(table[j], m, segs)
    ensures FirstMatch(table, m, segs) == Some(table[i])
  {
    if i > 0 {
      FirstMatchAt(table[1..], m, segs, i - 1);
    }
  }

  lemma {:induction false} FirstMatchIndex(table: seq<Route>, m: Verb, segs: seq<string>) returns (i: nat)
    requires FirstMatch(table, m, segs).Some?
    ensures i < |table| && FirstMatch(table, m, segs) == Some(table[i]) && Matches(table[i], m, segs)
    ensures forall j | 0 <= j < i :: !Matches(table[j], m, segs)
  {
    if Matches(table[0], m, segs) {
      i := 0;
    } else {
      i := FirstMatchIndex(table[1..], m, segs);
      i := i + 1;
    }
  }

  lemma {:induction false} MatchIsFound(table: seq<Route>, m: Verb, segs: seq<string>, i: nat)
    requires i < |table| && Matches(table[i], m, segs)
    ensures FirstMatch(table, m, segs).Some?
  {
    if i > 0 {
      MatchIsFound(table[1..], m, segs, i - 1);
    }
  }

  /** Some route knows the path, if not the method. */
  predicate KnowsPath(table: seq<Route>, segs: seq<string>) { exists r | r in table :: CoversPath(r, segs) }

  /** No route, a route but not for this method, a redirect, or a handler reached. */
  datatype Reply = NotFound | NotAllowed | Moved(path: string) | Served(handler: Handler, params: StorageParameters)

  function Serve(table: seq<Route>, m: Verb, path: string): Reply {
    if CleanPath(path) != path then Moved(CleanPath(path))
    else Dispatch(table, m, path)
  }

  /** What a path gets once it is clean. */
  function Dispatch(table: seq<Route>, m: Verb, path: string): Reply
    requires path != ""
  {
    match FirstMatch(table, m, Segments(path))
    case None => if KnowsPath(table, Segments(path)) then NotAllowed else NotFound
    case Some(r) =>
      if SlashDiffers(r, Segments(path)) then Moved(OtherSlash(path))
      else Served(r.handler, Given(r, Segments(path)))
  }

  // ----- the router -----

  class Router {
    var routes: seq<Route>

    /** The service library's router: strict about slashes, with its own route first. */
    constructor ()
      ensures routes == [METRICS]
    {
      routes := [METRICS];
    }

    /** Registers the whole table in order. The flag changes nothing: the wrapper it guards is commented out. */
    method MakeRoutes(authEnabled: bool)
      modifies this
      ensures routes == old(routes) + Configure()
    {
      var table := Configure();
      for i := 0 to |table|
        invariant routes == old(routes) + table[..i]
      {
        routes := routes + [table[i]];
        assert table[..i + 1] == table[..i] + [table[i]];
      }
      assert table[..|table|] == table;
    }

    /** Routes are tried in the order they were registered; a route that only lacks the method is remembered. */
    method Match(m: Verb, segs: seq<string>) returns (r: Option<Route>, mismatch: bool)
      ensures r == FirstMatch(routes, m, segs)
      ensures r == None ==> (mismatch <==> KnowsPath(routes, segs))
    {
      mismatch := false;
      for i := 0 to |routes|
        invariant forall j | 0 <= j < i :: !Matches(routes[j], m, segs)
        invariant mismatch <==> exists j | 0 <= j < i :: CoversPath(routes[j], segs)
      {
        if CoversPath(routes[i], segs) {
          if Allows(routes[i], m) {
            FirstMatchAt(routes, m, segs, i);
            return Some(routes[i]), false;
          }
          mismatch := true;
        }
      }
      if FirstMatch(routes, m, segs).Some? {
        var i := FirstMatchIndex(routes, m, segs);
      }
      return None, mismatch;
    }

    method Handle(m: Verb, path: string) returns (reply: Reply)
      ensures reply == Serve(routes, m, path)
    {
      var p := CleanPath(path);
      if p != path {
        return Moved(p);
      }
      var segs := Segments(path);
      var r, mismatch := Match(m, segs);
      if r == None {
        return if mismatch then NotAllowed else NotFound;
      }
      if SlashDiffers(r.value, segs) {
        return Moved(OtherSlash(path));
      }
      var ctx := BACKGROUND;
      if r.value.handler != Metrics {
        ctx := StoreRouterParameters(r.value, segs);
      }
      var sp := RequestParameters(ctx);
      return Served(r.value.handler, sp);
    }
  }
}
