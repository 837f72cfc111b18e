/** The route table read backwards: which path to build for an operation, and what a served request was for. */
module RouteTheorems {
  import opened Collections
  import opened Handlers
  import opened Text
  import opened Routes

  // ----- clean paths -----

  /** A segment as RFC 3986, section 3.3 has it, and not empty. */
  predicate Clean(s: string) { s != "" && '/' !in s }

  /** The two segments that stand for a place in the hierarchy and not for a name. */
  predicate Dots(s: string) { s == "." || s == ".." }

  predicate Proper(s: string) { s != "" && !Dots(s) }

  /** Nothing for the router to clean: names only, and perhaps a final slash. */
  predicate IsCanonical(segs: seq<string>) {
    segs != [] && !Dots(segs[|segs| - 1]) && forall k | 0 <= k < |segs| - 1 :: Proper(segs[k])
  }

  lemma ResolveStep(segs: seq<string>, kept: seq<string>)
    requires segs != [] && Proper(segs[0])
    ensures Resolve(segs, kept) == Resolve(segs[1..], kept + [segs[0]])
  {
  }

  lemma ResolveLast(s: string, kept: seq<string>)
    requires !Dots(s)
    ensures Resolve([s], kept) == kept + Bare([s])
  {
    assert [s][1..] == [];
    assert Resolve([], kept) == kept && Resolve([], kept + [s]) == kept + [s];
  }

  lemma {:induction false} ResolveKeeps(segs: seq<string>, kept: seq<string>)
    requires IsCanonical(segs)
    ensures Resolve(segs, kept) == kept + Bare(segs)
    decreases |segs|
  {
    hide Resolve, Dots, Proper, Bare;
    if |segs| == 1 {
      assert segs == [segs[0]];
      ResolveLast(segs[0], kept);
    } else {
      TailIsCanonical(segs);
      ResolveStep(segs, kept);
      ResolveKeeps(segs[1..], kept + [segs[0]]);
      assert kept + [segs[0]] + Bare(segs[1..]) == kept + ([segs[0]] + Bare(segs[1..]));
    }
  }

  lemma TailIsCanonical(segs: seq<string>)
    requires IsCanonical(segs) && |segs| > 1
    ensures Proper(segs[0]) && IsCanonical(segs[1..]) && Bare(segs) == [segs[0]] + Bare(segs[1..])
  {
    hide Dots, Proper;
    var rest := segs[1..];
    assert forall k | 0 <= k < |rest| :: rest[k] == segs[k + 1];
  }

  lemma {:induction false} ResolveIsProper(segs: seq<string>, kept: seq<string>)
    requires forall s | s in kept :: Proper(s)
    ensures forall s | s in Resolve(segs, kept) :: Proper(s) && (s in kept || s in segs)
    decreases |segs|
  {
    if segs != [] {
      if segs[0] == "" || segs[0] == "." {
        ResolveIsProper(segs[1..], kept);
      } else if segs[0] == ".." {
        ResolveIsProper(segs[1..], if kept == [] then [] else kept[..|kept| - 1]);
      } else {
        ResolveIsProper(segs[1..], kept + [segs[0]]);
      }
    }
  }

  lemma CanonicalIsClean(segs: seq<string>)
    requires segs != []
    ensures IsCanonical(Canonical(segs)) && (forall s | s in Canonical(segs) :: s == "" || s in segs)
  {
    hide Resolve;
    var kept := Resolve(segs, []);
    ResolveIsProper(segs, []);
    forall k | 0 <= k < |kept| ensures Proper(kept[k]) {
      assert kept[k] in kept;
    }
  }

  lemma CanonicalForm(segs: seq<string>)
    requires segs != []
    ensures IsCanonical(Canonical(segs)) && (forall s | s in Canonical(segs) :: s == "" || s in segs)
    ensures Canonical(segs) == segs <==> IsCanonical(segs)
  {
    hide Resolve, IsCanonical;
    CanonicalIsClean(segs);
    if IsCanonical(segs) {
      ResolveKeeps(segs, []);
      assert Resolve(segs, []) == Bare(segs);
      BareKeeps(segs);
    }
  }

  lemma BareKeeps(segs: seq<string>)
    requires IsCanonical(segs)
    ensures segs == if Bare(segs) == [] || EndsInSlash(segs) then Bare(segs) + [""] else Bare(segs)
  {
  }

  /** The paths that are not redirected for cleaning are the rooted ones made of names. */
  lemma CleanPathForm(path: string)
    ensures CleanPath(path) == path <==> Rooted(path) && IsCanonical(Segments(path))
    ensures CleanPath(CleanPath(path)) == CleanPath(path)
  {
    var p := if Rooted(path) then path else "/" + path;
    var segs := Segments(p);
    SegmentsOfRooted(p);
    CanonicalForm(segs);
    SegmentsOfPath(Canonical(segs));
    CanonicalForm(Canonical(segs));
  }

  lemma {:induction false} ResolveParts(a: seq<string>, b: seq<string>, kept: seq<string>)
    ensures Resolve(a + b, kept) == Resolve(b, Resolve(a, kept))
    decreases |a|
  {
    if a == [] {
      assert a + b == b;
    } else {
      var next := if a[0] == "" || a[0] == "." then kept
                  else if a[0] == ".." then if kept == [] then [] else kept[..|kept| - 1]
                  else kept + [a[0]];
      assert (a + b)[0] == a[0] && (a + b)[1..] == a[1..] + b;
      assert Resolve(a + b, kept) == Resolve(a[1..] + b, next) && Resolve(a, kept) == Resolve(a[1..], next);
      ResolveParts(a[1..], b, next);
    }
  }

  lemma ResolveOne(x: string, kept: seq<string>)
    ensures x == "" || x == "." ==> Resolve([x], kept) == kept
    ensures Proper(x) ==> Resolve([x], kept) == kept + [x]
    ensures x == ".." ==> Resolve([x], kept) == if kept == [] then [] else kept[..|kept| - 1]
  {
    assert [x][1..] == [] && "." != "..";
    assert forall k :: Resolve([], k) == k;
  }

  /** An empty segment or a dot counts for nothing, wherever it stands. */
  lemma NothingIsSkipped(a: seq<string>, x: string, b: seq<string>)
    requires x == "" || x == "."
    ensures Resolve(a + [x] + b, []) == Resolve(a + b, [])
  {
    hide Resolve;
    ResolveParts(a + [x], b, []);
    ResolveParts(a, [x], []);
    ResolveParts(a, b, []);
    ResolveOne(x, Resolve(a, []));
  }

  /** Two dots take back the name before them, and nothing at the root. */
  lemma NameIsTakenBack(a: seq<string>, name: string, b: seq<string>)
    requires Proper(name)
    ensures Resolve(a + [name] + [".."] + b, []) == Resolve(a + b, [])
    ensures Resolve([".."] + b, []) == Resolve(b, [])
  {
    hide Resolve, Proper;
    var kept := Resolve(a, []);
    ResolveParts(a + [name] + [".."], b, []);
    ResolveParts(a + [name], [".."], []);
    ResolveParts(a, [name], []);
    ResolveParts(a, b, []);
    ResolveParts([".."], b, []);
    ResolveOne(name, kept);
    ResolveOne("..", kept + [name]);
    ResolveOne("..", []);
    assert (kept + [name])[..|kept|] == kept;
  }

  /** Names alone stay as they are. */
  lemma {:induction false} NamesStay(names: seq<string>)
    requires forall s | s in names :: Proper(s)
    ensures Resolve(names, []) == names
  {
    hide Proper;
    if names == [] {
      assert Resolve([], []) == [];
    } else {
      var n := |names| - 1;
      NamesStay(names[..n]);
      assert names == names[..n] + [names[n]];
      ResolveParts(names[..n], [names[n]], []);
      ResolveOne(names[n], names[..n]);
    }
  }

  /** A path is redirected to the names that are left, with a final slash if it had one or none is left. */
  lemma CleanPathSpelling(path: string)
    requires Rooted(path)
    ensures var s, t := Segments(path), Segments(CleanPath(path));
      && Bare(t) == Resolve(s, []) && (EndsInSlash(t) <==> EndsInSlash(s) || Resolve(s, []) == [])
  {
    var s := Segments(path);
    SegmentsOfRooted(path);
    CanonicalIsClean(s);
    SegmentsOfPath(Canonical(s));
    ResolveIsProper(s, []);
    assert forall k | 0 <= k < |Resolve(s, [])| :: Resolve(s, [])[k] in Resolve(s, []);
  }

  // ----- reading the table -----

  /** What a pattern of up to three segments asks. */
  lemma AgreeShort(p: seq<Segment>, s: seq<string>)
    requires |p| <= 3
    ensures Agree(p, s) <==> |s| == |p| && (|p| > 0 ==> Takes(p[0], s[0])) && (|p| > 1 ==> Takes(p[1], s[1]))
                             && (|p| > 2 ==> Takes(p[2], s[2]))
  {
  }

  lemma PublicRoutes(m: Verb, s: seq<string>)
    ensures var b := Bare(s);
      && (Matches(METRICS, m, s) <==> |b| == 1 && b[0] == "metrics")
      && (Matches(ROOT, m, s) <==> m == GET && |b| == 0)
      && (Matches(RESOURCES, m, s) <==> m == GET && |s| >= 2 && s[0] == "res")
      && (Matches(REGISTER, m, s) <==> (m == GET || m == POST) && |b| == 1 && b[0] == "register")
      && (Matches(LOGIN, m, s) <==> (m == GET || m == POST) && |b| == 2 && b[0] == "login" && b[1] != "")
  {
    var b := Bare(s);
    assert CoversPrefix(RESOURCES.pattern, s) <==> |s| >= 2 && Takes(RESOURCES.pattern[0], s[0]);
    AgreeShort([Lit("metrics")], b);
    AgreeShort([], b);
    AgreeShort([Lit("register")], b);
    AgreeShort([Lit("login"), Storage], b);
    assert Stem(METRICS.pattern) == [Lit("metrics")] && Stem(ROOT.pattern) == [];
    assert Stem(REGISTER.pattern) == [Lit("register")] && Stem(LOGIN.pattern) == [Lit("login"), Storage];
  }

  /** The exact set of requests each reading route takes, whether or not their final slash is the pattern's. */
  lemma GetRoutes(m: Verb, s: seq<string>)
    ensures var b := Bare(s);
      && (Matches(INDEX, m, s) <==> m == GET && |b| == 2 && b[0] != "" && b[1] == "index.html")
      && (Matches(PERMANENT_INDEX, m, s) <==>
            m == GET && |b| == 3 && b[0] != "" && b[1] == "permanent" && b[2] == "index.html")
      && (Matches(PERMANENT_FILE, m, s) <==> m == GET && |b| == 3 && b[0] != "" && b[1] == "permanent" && b[2] != "")
      && (Matches(PERMANENT_VIEW, m, s) <==> m == GET && |b| == 2 && b[0] != "" && b[1] == "permanent")
      && (Matches(FILE, m, s) <==> m == GET && |b| == 2 && b[0] != "" && b[1] != "")
      && (Matches(VIEW, m, s) <==> m == GET && |b| == 1 && b[0] != "")
  {
    ReadingStems();
    AgreeShort(Stem(INDEX.pattern), Bare(s));
    AgreeShort(Stem(PERMANENT_INDEX.pattern), Bare(s));
    AgreeShort(Stem(PERMANENT_FILE.pattern), Bare(s));
    AgreeShort(Stem(PERMANENT_VIEW.pattern), Bare(s));
    AgreeShort(Stem(FILE.pattern), Bare(s));
    AgreeShort(Stem(VIEW.pattern), Bare(s));
  }

  lemma ReadingStems()
    ensures Stem(INDEX.pattern) == [Storage, Lit("index.html")]
    ensures Stem(PERMANENT_INDEX.pattern) == [Storage, PERMANENT, Lit("index.html")]
    ensures Stem(PERMANENT_FILE.pattern) == [Storage, PERMANENT, File]
    ensures Stem(PERMANENT_VIEW.pattern) == [Storage, PERMANENT]
    ensures Stem(FILE.pattern) == [Storage, File] && Stem(VIEW.pattern) == [Storage]
  {
  }

  predicate Posts(m: Verb, b: seq<string>, word: string) { m == POST && |b| == 2 && b[0] != "" && b[1] == word }

  predicate PostsPermanent(m: Verb, b: seq<string>, word: string) {
    m == POST && |b| == 3 && b[0] != "" && b[1] == "permanent" && b[2] == word
  }

  /** The posting routes differ only in one word. */
  lemma PostRoutes(m: Verb, s: seq<string>)
    ensures Matches(UPLOAD, m, s) <==> Posts(m, Bare(s), "upload")
    ensures Matches(REMOVE, m, s) <==> Posts(m, Bare(s), "remove")
    ensures Matches(SHARE_TEXT, m, s) <==> Posts(m, Bare(s), "shareText")
  {
    AgreeShort([Storage, Lit("upload")], Bare(s));
    AgreeShort([Storage, Lit("remove")], Bare(s));
    AgreeShort([Storage, Lit("shareText")], Bare(s));
    assert Stem(UPLOAD.pattern) == [Storage, Lit("upload")] && Stem(REMOVE.pattern) == [Storage, Lit("remove")];
    assert Stem(SHARE_TEXT.pattern) == [Storage, Lit("shareText")];
  }

  lemma PermanentPostRoutes(m: Verb, s: seq<string>)
    ensures Matches(PERMANENT_UPLOAD, m, s) <==> PostsPermanent(m, Bare(s), "upload")
    ensures Matches(PERMANENT_REMOVE, m, s) <==> PostsPermanent(m, Bare(s), "remove")
    ensures Matches(PERMANENT_SHARE_TEXT, m, s) <==> PostsPermanent(m, Bare(s), "shareText")
  {
    AgreeShort([Storage, PERMANENT, Lit("upload")], Bare(s));
    AgreeShort([Storage, PERMANENT, Lit("remove")], Bare(s));
    AgreeShort([Storage, PERMANENT, Lit("shareText")], Bare(s));
    assert Stem(PERMANENT_UPLOAD.pattern) == [Storage, PERMANENT, Lit("upload")];
    assert Stem(PERMANENT_REMOVE.pattern) == [Storage, PERMANENT, Lit("remove")];
    assert Stem(PERMANENT_SHARE_TEXT.pattern) == [Storage, PERMANENT, Lit("shareText")];
  }

  // ----- which route wins -----

  /** None of the first i routes matches. */
  predicate Past(i: nat, m: Verb, s: seq<string>) {
    && (i > 0 ==> !Matches(METRICS, m, s))
    && (i > 1 ==> !Matches(ROOT, m, s))
    && (i > 2 ==> !Matches(RESOURCES, m, s))
    && (i > 3 ==> !Matches(REGISTER, m, s))
    && (i > 4 ==> !Matches(LOGIN, m, s))
    && (i > 5 ==> !Matches(INDEX, m, s))
    && (i > 6 ==> !Matches(PERMANENT_INDEX, m, s))
    && (i > 7 ==> !Matches(PERMANENT_FILE, m, s))
    && (i > 8 ==> !Matches(PERMANENT_VIEW, m, s))
    && (i > 9 ==> !Matches(FILE, m, s))
    && (i > 10 ==> !Matches(VIEW, m, s))
    && (i > 11 ==> !Matches(UPLOAD, m, s))
    && (i > 12 ==> !Matches(PERMANENT_UPLOAD, m, s))
    && (i > 13 ==> !Matches(REMOVE, m, s))
    && (i > 14 ==> !Matches(PERMANENT_REMOVE, m, s))
    && (i > 15 ==> !Matches(SHARE_TEXT, m, s))
  }

  lemma TableOrder()
    ensures var t := Deployed();
      && t[0] == METRICS && t[1] == ROOT && t[2] == RESOURCES && t[3] == REGISTER && t[4] == LOGIN
      && t[5] == INDEX && t[6] == PERMANENT_INDEX && t[7] == PERMANENT_FILE && t[8] == PERMANENT_VIEW
      && t[9] == FILE && t[10] == VIEW && t[11] == UPLOAD && t[12] == PERMANENT_UPLOAD
      && t[13] == REMOVE && t[14] == PERMANENT_REMOVE && t[15] == SHARE_TEXT && t[16] == PERMANENT_SHARE_TEXT
  {
    hide Configure, Deployed;
    FirstRoutes();
    ReadingRoutes();
    LastRoutes();
    assert Deployed()[0] == METRICS by {
      DeployedFirst();
    }
    assert forall i | 1 <= i < 17 :: Deployed()[i] == Deployed()[1..][i - 1];
  }

  lemma DeployedFirst()
    ensures Deployed()[0] == METRICS
  {
  }

  lemma FirstRoutes()
    ensures var t := Configure(); t[0] == ROOT && t[1] == RESOURCES && t[2] == REGISTER && t[3] == LOGIN
  {
  }

  lemma ReadingRoutes()
    ensures var t := Configure();
      && t[4] == INDEX && t[5] == PERMANENT_INDEX && t[6] == PERMANENT_FILE && t[7] == PERMANENT_VIEW
      && t[8] == FILE && t[9] == VIEW
  {
  }

  lemma LastRoutes()
    ensures var t := Configure();
      && t[10] == UPLOAD && t[11] == PERMANENT_UPLOAD
      && t[12] == REMOVE && t[13] == PERMANENT_REMOVE && t[14] == SHARE_TEXT && t[15] == PERMANENT_SHARE_TEXT
  {
  }

  lemma Decide(i: nat, r: Route, m: Verb, s: seq<string>)
    requires i < 17 && Deployed()[i] == r && Matches(r, m, s) && Past(i, m, s)
    ensures FirstMatch(Deployed(), m, s) == Some(r)
  {
    hide Matches, Deployed;
    TableOrder();
    assert forall j | 0 <= j < i :: !Matches(Deployed()[j], m, s);
    FirstMatchAt(Deployed(), m, s, i);
  }

  // ----- building a path -----

  datatype Operation = ViewStorage | Download(file: string) | Index | Send | Delete | Share

  function HandlerOf(op: Operation): Handler {
    match op
    case ViewStorage => View
    case Download(_) => GetFile
    case Index => IndexHTML
    case Send => Upload
    case Delete => Remove
    case Share => ShareText
  }

  function MethodOf(op: Operation): Verb {
    if op.Send? || op.Delete? || op.Share? then POST else GET
  }

  /** The segments that follow the storage, and the word permanent where it applies. */
  function Rest(op: Operation): seq<string> {
    match op
    case ViewStorage => [""]
    case Download(f) => [f, ""]
    case Index => ["index.html"]
    case Send => ["upload", ""]
    case Delete => ["remove", ""]
    case Share => ["shareText", ""]
  }

  function PathSegments(op: Operation, permanent: bool, storage: string): (r: seq<string>)
    ensures r != []
  {
    [storage] + (if permanent then ["permanent"] else []) + Rest(op)
  }

  function BuildPath(op: Operation, permanent: bool, storage: string): string {
    PathOf(PathSegments(op, permanent, storage))
  }

  predicate CleanOperation(op: Operation) { op.Download? ==> Clean(op.file) }

  function FileOf(op: Operation): string { if op.Download? then op.file else "" }

  function Wanted(op: Operation, permanent: bool, storage: string): Reply {
    Served(HandlerOf(op), StorageParameters(storage, false, permanent, FileOf(op)))
  }

  /**
   * The requests that do not come back as what they were built for: another route takes them, or the path is no clean
   * one.
   */
  predicate Shadowed(op: Operation, permanent: bool, storage: string) {
    || Dots(storage) || Dots(FileOf(op))
    || if MethodOf(op) == POST then storage == "login" && !permanent
       else
         || storage == "res"
         || (op.ViewStorage? && !permanent && (storage == "register" || storage == "metrics"))
         || (storage == "login" && if permanent then op.ViewStorage? else op.Download? || op.Index?)
         || (op.Download? && (op.file == "index.html" || (op.file == "permanent" && !permanent)))
  }

  lemma BuiltSegments(op: Operation, permanent: bool, storage: string)
    requires Clean(storage) && CleanOperation(op)
    ensures var path := BuildPath(op, permanent, storage);
      && Rooted(path) && Segments(path) == PathSegments(op, permanent, storage)
      && (CleanPath(path) == path <==> !Dots(storage) && !Dots(FileOf(op)))
  {
    var s := PathSegments(op, permanent, storage);
    WordsAreClean();
    forall p | p in s ensures '/' !in p {
    }
    SegmentsOfPath(s);
    CleanPathForm(PathOf(s));
    BuiltIsCanonical(op, permanent, storage);
  }

  lemma BuiltIsCanonical(op: Operation, permanent: bool, storage: string)
    requires Clean(storage) && CleanOperation(op)
    ensures IsCanonical(PathSegments(op, permanent, storage)) <==> !Dots(storage) && !Dots(FileOf(op))
  {
    var s, n := PathSegments(op, permanent, storage), if permanent then 2 else 1;
    assert s[0] == storage && (permanent ==> s[1] == "permanent") && s[n] == Rest(op)[0];
    assert |"permanent"| > 2 && |"index.html"| > 2 && |"upload"| > 2 && |"remove"| > 2 && |"shareText"| > 2;
    assert !op.Index? && !op.ViewStorage? ==> s[n + 1] == "" && |s| == n + 2;
  }

  lemma WordsAreClean()
    ensures '/' !in "permanent" && '/' !in "index.html" && '/' !in "upload" && '/' !in "remove" && '/' !in "shareText"
  {
  }

  // ----- the storage-scoped routes -----

  predicate StorageScoped(h: Handler) {
    h == IndexHTML || h == View || h == Upload || h == Remove || h == GetFile || h == ShareText
  }

  function PatternRest(h: Handler): seq<Segment>
    requires StorageScoped(h)
  {
    match h
    case View => [SLASH]
    case GetFile => [File, SLASH]
    case IndexHTML => [Lit("index.html")]
    case Upload => [Lit("upload"), SLASH]
    case Remove => [Lit("remove"), SLASH]
    case _ => [Lit("shareText"), SLASH]
  }

  /** A route for one operation on a storage, permanent or not. */
  predicate ScopedRoute(r: Route) {
    && StorageScoped(r.handler) && !r.isPrefix && !r.isPublic
    && r.methods == Some(if r.handler == Upload || r.handler == Remove || r.handler == ShareText then {POST} else {GET})
    && r.pattern == [Storage] + (if r.permanentPath then [PERMANENT] else []) + PatternRest(r.handler)
  }

  function OperationOf(h: Handler, file: string): Operation
    requires StorageScoped(h)
  {
    match h
    case View => ViewStorage
    case GetFile => Download(file)
    case IndexHTML => Index
    case Upload => Send
    case Remove => Delete
    case _ => Share
  }

  /** The operation a request that matched r is for. */
  function Meant(r: Route, s: seq<string>): Operation
    requires ScopedRoute(r)
  {
    OperationOf(r.handler, Lookup(r.pattern, s, File))
  }

  /** In the table everything from the fifth route on is for a storage, and nothing before it is. */
  lemma ScopedTable(i: nat)
    requires i < 17
    ensures if i < 5 then !StorageScoped(Deployed()[i].handler) else ScopedRoute(Deployed()[i])
  {
    if i < 5 {
      TableOrder();
    } else if i < 11 {
      ScopedReading(i);
    } else {
      ScopedPosting(i);
    }
  }

  lemma ScopedReading(i: nat)
    requires 5 <= i < 11
    ensures ScopedRoute(Deployed()[i])
  {
    hide ScopedRoute, Deployed;
    TableOrder();
    IndexIsScoped();
    FileIsScoped();
    ViewIsScoped();
  }

  lemma IndexIsScoped()
    ensures ScopedRoute(INDEX) && ScopedRoute(PERMANENT_INDEX)
  {
  }

  lemma FileIsScoped()
    ensures ScopedRoute(FILE) && ScopedRoute(PERMANENT_FILE)
  {
  }

  lemma ViewIsScoped()
    ensures ScopedRoute(VIEW) && ScopedRoute(PERMANENT_VIEW)
  {
  }

  lemma ScopedPosting(i: nat)
    requires 11 <= i < 17
    ensures ScopedRoute(Deployed()[i])
  {
    hide ScopedRoute, Deployed;
    TableOrder();
    UploadIsScoped();
    RemoveIsScoped();
    ShareTextIsScoped();
  }

  lemma UploadIsScoped()
    ensures ScopedRoute(UPLOAD) && ScopedRoute(PERMANENT_UPLOAD)
  {
  }

  lemma RemoveIsScoped()
    ensures ScopedRoute(REMOVE) && ScopedRoute(PERMANENT_REMOVE)
  {
  }

  lemma ShareTextIsScoped()
    ensures ScopedRoute(SHARE_TEXT) && ScopedRoute(PERMANENT_SHARE_TEXT)
  {
  }

  /** A matched path that is spelled as the pattern is agrees with it segment by segment. */
  lemma SpelledOut(p: seq<Segment>, s: seq<string>)
    requires p != [] && s != [] && Covers(p, s) && EndsInSlash(s) == (p[|p| - 1] == SLASH)
    ensures Agree(p, s)
  {
    forall k | 0 <= k < |p| ensures |s| == |p| && Takes(p[k], s[k]) {
      if k < |Stem(p)| {
        assert Takes(Stem(p)[k], Bare(s)[k]);
      }
    }
  }

  /** A request served through a storage-scoped route was spelled as the path of the operation it is served as. */
  lemma BuiltBy(r: Route, m: Verb, s: seq<string>)
    requires ScopedRoute(r) && s != [] && Matches(r, m, s) && !SlashDiffers(r, s)
    ensures s == PathSegments(Meant(r, s), r.permanentPath, s[0]) && s[0] != "" && m == MethodOf(Meant(r, s))
    ensures Meant(r, s).Download? ==> Meant(r, s).file in s && Meant(r, s).file != ""
    ensures Served(r.handler, Given(r, s)) == Wanted(Meant(r, s), r.permanentPath, s[0])
  {
    hide Covers, Agree, Lookup, Bare, Stem, PatternRest;
    SpelledOut(r.pattern, s);
    StorageFirst(r.pattern, s);
    if r.permanentPath {
      BuiltPermanent(r, s);
    } else {
      BuiltPlain(r, s);
    }
  }

  lemma StorageFirst(p: seq<Segment>, s: seq<string>)
    requires p != [] && s != [] && p[0] == Storage
    ensures Lookup(p, s, Storage) == s[0]
  {
  }

  lemma BuiltPlain(r: Route, s: seq<string>)
    requires ScopedRoute(r) && !r.permanentPath && Agree(r.pattern, s)
    ensures s == [s[0]] + Rest(Meant(r, s)) && s[0] != ""
    ensures Lookup(r.pattern, s, File) == FileOf(Meant(r, s))
    ensures r.handler == GetFile ==> Lookup(r.pattern, s, File) != "" && Lookup(r.pattern, s, File) in s
  {
    hide PatternRest, Rest, Lookup;
    assert r.pattern == [Storage] + PatternRest(r.handler);
    AgreeTail([Storage], PatternRest(r.handler), s);
    LookupTail([Storage], PatternRest(r.handler), s);
    RestBy(r.handler, s[1..]);
    assert s == [s[0]] + s[1..];
  }

  lemma BuiltPermanent(r: Route, s: seq<string>)
    requires ScopedRoute(r) && r.permanentPath && Agree(r.pattern, s)
    ensures s == [s[0], "permanent"] + Rest(Meant(r, s)) && s[0] != ""
    ensures Lookup(r.pattern, s, File) == FileOf(Meant(r, s))
    ensures r.handler == GetFile ==> Lookup(r.pattern, s, File) != "" && Lookup(r.pattern, s, File) in s
  {
    hide PatternRest, Rest, Lookup;
    var p := [Storage, PERMANENT];
    assert r.pattern == p + PatternRest(r.handler);
    AgreeTail(p, PatternRest(r.handler), s);
    LookupTail(p, PatternRest(r.handler), s);
    RestBy(r.handler, s[2..]);
    TwoThenRest(s);
  }

  lemma TwoThenRest(s: seq<string>)
    requires |s| >= 2 && Takes(Storage, s[0]) && Takes(PERMANENT, s[1])
    ensures s[0] != "" && s == [s[0], "permanent"] + s[2..]
  {
  }

  lemma AgreeTail(p: seq<Segment>, q: seq<Segment>, s: seq<string>)
    requires Agree(p + q, s)
    ensures |s| == |p| + |q| && (forall k | 0 <= k < |p| :: Takes(p[k], s[k])) && Agree(q, s[|p|..])
  {
    forall k | 0 <= k < |p| ensures Takes(p[k], s[k]) {
      assert (p + q)[k] == p[k];
    }
    forall k | 0 <= k < |q| ensures Takes(q[k], s[|p|..][k]) {
      assert (p + q)[|p| + k] == q[k];
    }
  }

  lemma {:induction false} LookupTail(p: seq<Segment>, q: seq<Segment>, s: seq<string>)
    requires |p| <= |s| && File !in p
    ensures Lookup(p + q, s, File) == Lookup(q, s[|p|..], File)
  {
    if p == [] {
      assert p + q == q && s[0..] == s;
    } else {
      assert (p + q)[1..] == p[1..] + q && s[1..][|p| - 1..] == s[|p|..];
      LookupTail(p[1..], q, s[1..]);
    }
  }

  /** What follows the storage, and the word permanent, spells out the operation. */
  lemma RestBy(h: Handler, u: seq<string>)
    requires StorageScoped(h) && Agree(PatternRest(h), u)
    ensures var file := Lookup(PatternRest(h), u, File);
      u == Rest(OperationOf(h, file)) && if h == GetFile then file != "" && file in u else file == ""
  {
    var p := PatternRest(h);
    assert Takes(p[0], u[0]);
    LookupFile(p, u);
    if |p| == 2 {
      assert Takes(p[1], u[1]);
    }
  }

  /** A file variable can only stand first among the segments after the storage. */
  lemma LookupFile(p: seq<Segment>, s: seq<string>)
    requires 1 <= |p| == |s| <= 2 && (|p| == 2 ==> p[1] == SLASH)
    ensures Lookup(p, s, File) == if p[0] == File then s[0] else ""
  {
    if |p| == 2 {
      assert Lookup(p[1..], s[1..], File) == Lookup(p[1..][1..], s[1..][1..], File) == "";
    }
  }

  // ----- what a served request was for -----

  lemma Builder(m: Verb, path: string) returns (op: Operation, permanent: bool, storage: string)
    requires Serve(Deployed(), m, path).Served? && StorageScoped(Serve(Deployed(), m, path).handler)
    ensures IsBuilt(op, permanent, storage, m, path)
    ensures Serve(Deployed(), m, path) == Wanted(op, permanent, storage)
  {
    var s, t := Segments(path), Deployed();
    CleanPathForm(path);
    SegmentsOfRooted(path);
    var i := FirstMatchIndex(t, m, s);
    ScopedTable(i);
    BuiltBy(t[i], m, s);
    op, permanent, storage := Meant(t[i], s), t[i].permanentPath, s[0];
    assert s[0] in s;
    RoundTrip(op, permanent, storage);
  }

  /** The request is the one built for that operation, and not a shadowed one. */
  predicate IsBuilt(op: Operation, permanent: bool, storage: string, m: Verb, path: string) {
    && Clean(storage) && CleanOperation(op) && !Shadowed(op, permanent, storage)
    && m == MethodOf(op) && path == BuildPath(op, permanent, storage)
  }

  /**
   * The converse: a request reaches a storage-scoped handler if and only if it is exactly the one built for some
   * operation that is not shadowed, and then it is served as that operation. Building paths is one-to-one onto what
   * these handlers get.
   */
  lemma ServedIsBuilt(m: Verb, path: string)
    ensures var a := Serve(Deployed(), m, path);
      a.Served? && StorageScoped(a.handler) <==>
        exists op, permanent, storage :: IsBuilt(op, permanent, storage, m, path)
    ensures forall op, permanent, storage | IsBuilt(op, permanent, storage, m, path) ::
      Serve(Deployed(), m, path) == Wanted(op, permanent, storage)
  {
    hide IsBuilt, Serve, Deployed;
    var a := Serve(Deployed(), m, path);
    forall op, permanent, storage | IsBuilt(op, permanent, storage, m, path)
      ensures a == Wanted(op, permanent, storage)
    {
      BuiltReturns(op, permanent, storage, m, path);
    }
    if a.Served? && StorageScoped(a.handler) {
      var op, permanent, storage := Builder(m, path);
    }
  }

  lemma BuiltReturns(op: Operation, permanent: bool, storage: string, m: Verb, path: string)
    requires IsBuilt(op, permanent, storage, m, path)
    ensures Serve(Deployed(), m, path) == Wanted(op, permanent, storage)
  {
    RoundTrip(op, permanent, storage);
  }

  /** The storage is the path's first segment, permanence is told by its second, and only downloads name a file. */
  predicate Scoped(s: seq<string>, a: Reply) {
    && a.Served? && |s| >= 2 && s[0] != "" && a.params.storageName == s[0] && !a.params.isPublic
    && (a.params.isPermanent <==> s[1] == "permanent")
    && (a.params.fileName != "" <==> a.handler == GetFile)
  }

  /**
   * Whatever the request, if it reaches a storage-scoped handler then its first segment is the storage, it is not
   * public, and it is permanent exactly when its second segment says so; only downloads name a file.
   */
  lemma ServedIsScoped(m: Verb, path: string)
    ensures var a := Serve(Deployed(), m, path);
      a.Served? && StorageScoped(a.handler) ==> Scoped(Segments(path), a)
  {
    var a := Serve(Deployed(), m, path);
    if a.Served? && StorageScoped(a.handler) {
      var op, permanent, storage := Builder(m, path);
      BuiltSegments(op, permanent, storage);
      SecondSegment(op, permanent, storage);
    }
  }

  /** Only a permanent operation has the word in second place, but for a download the permanent view shadows. */
  lemma SecondSegment(op: Operation, permanent: bool, storage: string)
    requires !Shadowed(op, permanent, storage)
    ensures var s := PathSegments(op, permanent, storage);
      |s| >= 2 && s[0] == storage && (s[1] == "permanent" <==> permanent)
  {
    var s := PathSegments(op, permanent, storage);
    if permanent {
      assert s[1] == "permanent";
    } else {
      assert s[1] == Rest(op)[0];
      WordsDiffer();
    }
  }

  lemma WordsDiffer()
    ensures "upload" != "remove" && "upload" != "shareText" && "remove" != "shareText"
    ensures "upload" != "permanent" && "remove" != "permanent" && "shareText" != "permanent"
    ensures "index.html" != "permanent"
  {
    assert "upload"[0] == 'u' && "remove"[0] == 'r' && "shareText"[0] == 's';
    assert "permanent"[0] == 'p' && "index.html"[0] == 'i';
  }

  // ----- the round trip -----

  /** The request built for an operation is served as that operation, with the same parameters. */
  predicate Returns(op: Operation, permanent: bool, storage: string) {
    Dispatch(Deployed(), MethodOf(op), BuildPath(op, permanent, storage)) == Wanted(op, permanent, storage)
  }

  lemma DispatchBuilt(op: Operation, permanent: bool, storage: string, r: Route)
    requires Clean(storage) && CleanOperation(op)
    requires var s := PathSegments(op, permanent, storage);
      FirstMatch(Deployed(), MethodOf(op), s) == Some(r)
    ensures var s := PathSegments(op, permanent, storage);
      Dispatch(Deployed(), MethodOf(op), BuildPath(op, permanent, storage)) ==
      if SlashDiffers(r, s) then Moved(OtherSlash(BuildPath(op, permanent, storage)))
      else Served(r.handler, Given(r, s))
  {
    BuiltSegments(op, permanent, storage);
  }

  /** Taken by a route with another handler, a request does not return. */
  lemma Taken(i: nat, r: Route, op: Operation, permanent: bool, storage: string)
    requires Clean(storage) && CleanOperation(op)
    requires i < 17 && Deployed()[i] == r && r.handler != HandlerOf(op)
    requires Matches(r, MethodOf(op), PathSegments(op, permanent, storage))
    requires Past(i, MethodOf(op), PathSegments(op, permanent, storage))
    ensures !Returns(op, permanent, storage)
  {
    hide Matches, Past;
    Decide(i, r, MethodOf(op), PathSegments(op, permanent, storage));
    DispatchBuilt(op, permanent, storage, r);
  }

  /** Taken by its own route, it returns. */
  lemma Own(i: nat, r: Route, op: Operation, permanent: bool, storage: string)
    requires Clean(storage) && CleanOperation(op)
    requires 5 <= i < 17 && Deployed()[i] == r && r.handler == HandlerOf(op) && r.permanentPath == permanent
    ensures var m, s := MethodOf(op), PathSegments(op, permanent, storage);
      Matches(r, m, s) && Past(i, m, s) ==> Returns(op, permanent, storage)
  {
    hide Matches, Past;
    var m, s := MethodOf(op), PathSegments(op, permanent, storage);
    if Matches(r, m, s) && Past(i, m, s) {
      Decide(i, r, m, s);
      DispatchBuilt(op, permanent, storage, r);
      ScopedTable(i);
      OwnSpelling(r, op, permanent, storage);
      BuiltBy(r, m, s);
      SameRest(op, Meant(r, s), permanent, storage);
    }
  }

  lemma OwnSpelling(r: Route, op: Operation, permanent: bool, storage: string)
    requires ScopedRoute(r) && r.handler == HandlerOf(op)
    ensures !SlashDiffers(r, PathSegments(op, permanent, storage))
  {
    var s, p := PathSegments(op, permanent, storage), r.pattern;
    assert s[|s| - 1] == Rest(op)[|Rest(op)| - 1] && p[|p| - 1] == PatternRest(r.handler)[|Rest(op)| - 1];
  }

  lemma SameRest(op: Operation, other: Operation, permanent: bool, storage: string)
    requires HandlerOf(op) == HandlerOf(other)
    requires PathSegments(op, permanent, storage) == PathSegments(other, permanent, storage)
    ensures op == other
  {
    var n := if permanent then 2 else 1;
    assert PathSegments(op, permanent, storage)[n..] == Rest(op);
    assert PathSegments(other, permanent, storage)[n..] == Rest(other);
    if op.Download? {
      assert Rest(op)[0] == op.file && Rest(other)[0] == other.file;
    }
  }

  /** The built path without its final slash. */
  lemma BareBuilt(op: Operation, permanent: bool, storage: string)
    requires CleanOperation(op)
    ensures var s, b := PathSegments(op, permanent, storage), Bare(PathSegments(op, permanent, storage));
      && |s| >= 2 && s[0] == storage && |b| >= 1 && b[0] == storage
      && |b| == (if permanent then 2 else 1) + (if op.ViewStorage? then 0 else 1)
      && (permanent ==> b[1] == "permanent")
      && (!op.ViewStorage? ==> b[|b| - 1] == Rest(op)[0])
  {
    var s := PathSegments(op, permanent, storage);
    assert s[|s| - 1] == Rest(op)[|Rest(op)| - 1];
    if permanent {
      assert s[1] == "permanent" && s[2] == Rest(op)[0];
    } else {
      assert s[1] == Rest(op)[0];
    }
  }

  /** The public routes a built request meets first. */
  predicate TakenEarly(op: Operation, permanent: bool, storage: string) {
    || (op.ViewStorage? && !permanent && storage == "metrics")
    || (op.ViewStorage? && !permanent && storage == "register")
    || (MethodOf(op) == GET && storage == "res")
    || (storage == "login" && if permanent then op.ViewStorage? else !op.ViewStorage?)
  }

  lemma MeetsPublic(op: Operation, permanent: bool, storage: string)
    requires Clean(storage) && CleanOperation(op)
    ensures var m, s := MethodOf(op), PathSegments(op, permanent, storage);
      && !Matches(ROOT, m, s)
      && (Matches(METRICS, m, s) <==> op.ViewStorage? && !permanent && storage == "metrics")
      && (Matches(RESOURCES, m, s) <==> m == GET && storage == "res")
      && (Matches(REGISTER, m, s) <==> op.ViewStorage? && !permanent && storage == "register")
      && (Matches(LOGIN, m, s) <==> storage == "login" && if permanent then op.ViewStorage? else !op.ViewStorage?)
  {
    BareBuilt(op, permanent, storage);
    PublicRoutes(MethodOf(op), PathSegments(op, permanent, storage));
    assert op.Send? || op.Delete? || op.Share? ==> Rest(op)[0] != "";
  }

  lemma NamesDiffer()
    ensures "metrics" != "register" && "metrics" != "res" && "metrics" != "login"
    ensures "register" != "res" && "register" != "login" && "res" != "login"
  {
    assert |"metrics"| == 7 && |"register"| == 8 && |"res"| == 3 && |"login"| == 5;
  }

  lemma EarlyTakes(op: Operation, permanent: bool, storage: string)
    requires Clean(storage) && CleanOperation(op) && TakenEarly(op, permanent, storage)
    ensures !Returns(op, permanent, storage)
  {
    hide Matches, Returns, Deployed;
    TableOrder();
    MeetsPublic(op, permanent, storage);
    NamesDiffer();
    if storage == "metrics" {
      Taken(0, METRICS, op, permanent, storage);
    } else if storage == "res" {
      Taken(2, RESOURCES, op, permanent, storage);
    } else if storage == "register" {
      Taken(3, REGISTER, op, permanent, storage);
    } else {
      Taken(4, LOGIN, op, permanent, storage);
    }
  }

  /** The storage-scoped reading routes a built request matches. */
  lemma MeetsReading(op: Operation, permanent: bool, storage: string)
    requires Clean(storage) && CleanOperation(op)
    ensures var m, s := MethodOf(op), PathSegments(op, permanent, storage);
      && (Matches(INDEX, m, s) <==> !permanent && (op.Index? || op == Download("index.html")))
      && (Matches(PERMANENT_INDEX, m, s) <==> permanent && (op.Index? || op == Download("index.html")))
      && (Matches(PERMANENT_FILE, m, s) <==> permanent && (op.Index? || op.Download?))
      && (Matches(PERMANENT_VIEW, m, s) <==> if permanent then op.ViewStorage? else op == Download("permanent"))
      && (Matches(FILE, m, s) <==> if permanent then op.ViewStorage? else op.Index? || op.Download?)
      && (Matches(VIEW, m, s) <==> !permanent && op.ViewStorage?)
  {
    hide Matches;
    BareBuilt(op, permanent, storage);
    GetRoutes(MethodOf(op), PathSegments(op, permanent, storage));
    WordsDiffer();
  }

  lemma MeetsPosting(op: Operation, permanent: bool, storage: string)
    requires Clean(storage) && CleanOperation(op)
    ensures var m, s := MethodOf(op), PathSegments(op, permanent, storage);
      && (Matches(UPLOAD, m, s) <==> op.Send? && !permanent)
      && (Matches(PERMANENT_UPLOAD, m, s) <==> op.Send? && permanent)
      && (Matches(REMOVE, m, s) <==> op.Delete? && !permanent)
      && (Matches(PERMANENT_REMOVE, m, s) <==> op.Delete? && permanent)
      && (Matches(SHARE_TEXT, m, s) <==> op.Share? && !permanent)
      && (Matches(PERMANENT_SHARE_TEXT, m, s) <==> op.Share? && permanent)
  {
    hide Matches;
    BareBuilt(op, permanent, storage);
    PostRoutes(MethodOf(op), PathSegments(op, permanent, storage));
    PermanentPostRoutes(MethodOf(op), PathSegments(op, permanent, storage));
    WordsDiffer();
  }

  lemma RoundTripReading(op: Operation, permanent: bool, storage: string)
    requires Clean(storage) && CleanOperation(op) && MethodOf(op) == GET && !TakenEarly(op, permanent, storage)
    ensures Returns(op, permanent, storage) <==>
      !(op.Download? && (op.file == "index.html" || (op.file == "permanent" && !permanent)))
  {
    hide Matches, Returns, Deployed;
    TableOrder();
    MeetsPublic(op, permanent, storage);
    MeetsReading(op, permanent, storage);
    WordsDiffer();
    match op
    case ViewStorage =>
      if permanent {
        Own(8, PERMANENT_VIEW, op, permanent, storage);
      } else {
        Own(10, VIEW, op, permanent, storage);
      }
    case Index =>
      if permanent {
        Own(6, PERMANENT_INDEX, op, permanent, storage);
      } else {
        Own(5, INDEX, op, permanent, storage);
      }
    case Download(file) =>
      if permanent {
        RoundTripPermanentFile(file, storage);
      } else {
        RoundTripFile(file, storage);
      }
  }

  lemma RoundTripFile(file: string, storage: string)
    requires Clean(storage) && Clean(file) && !TakenEarly(Download(file), false, storage)
    ensures Returns(Download(file), false, storage) <==> file != "index.html" && file != "permanent"
  {
    hide Matches, Returns, Deployed;
    TableOrder();
    MeetsPublic(Download(file), false, storage);
    MeetsReading(Download(file), false, storage);
    WordsDiffer();
    if file == "index.html" {
      Taken(5, INDEX, Download(file), false, storage);
    } else if file == "permanent" {
      Taken(8, PERMANENT_VIEW, Download(file), false, storage);
    } else {
      Own(9, FILE, Download(file), false, storage);
    }
  }

  lemma RoundTripPermanentFile(file: string, storage: string)
    requires Clean(storage) && Clean(file) && !TakenEarly(Download(file), true, storage)
    ensures Returns(Download(file), true, storage) <==> file != "index.html"
  {
    hide Matches, Returns, Deployed;
    TableOrder();
    MeetsPublic(Download(file), true, storage);
    MeetsReading(Download(file), true, storage);
    if file == "index.html" {
      Taken(6, PERMANENT_INDEX, Download(file), true, storage);
    } else {
      Own(7, PERMANENT_FILE, Download(file), true, storage);
    }
  }

  lemma RoundTripPosting(op: Operation, permanent: bool, storage: string)
    requires Clean(storage) && MethodOf(op) == POST && !TakenEarly(op, permanent, storage)
    ensures Returns(op, permanent, storage)
  {
    hide Matches, Returns, Deployed;
    TableOrder();
    MeetsPublic(op, permanent, storage);
    MeetsReading(op, permanent, storage);
    MeetsPosting(op, permanent, storage);
    if op.Send? {
      Own(if permanent then 12 else 11, if permanent then PERMANENT_UPLOAD else UPLOAD, op, permanent, storage);
    } else if op.Delete? {
      Own(if permanent then 14 else 13, if permanent then PERMANENT_REMOVE else REMOVE, op, permanent, storage);
    } else {
      Own(if permanent then 16 else 15, if permanent then PERMANENT_SHARE_TEXT else SHARE_TEXT, op, permanent, storage);
    }
  }

  /**
   * Reverse routing: building the path for an operation and serving it gives back the operation with its storage,
   * permanence and file, if and only if it is not one of the shadowed cases. Reserved names bite only where they must:
   * "res" for every reading request, "register" and "metrics" only for viewing, "login" for every path of two names;
   * and because a final slash is optional in matching, a file called "index.html" can never be downloaded.
   */
  lemma RoundTrip(op: Operation, permanent: bool, storage: string)
    requires Clean(storage) && CleanOperation(op)
    ensures var answer := Serve(Deployed(), MethodOf(op), BuildPath(op, permanent, storage));
      answer == Wanted(op, permanent, storage) <==> !Shadowed(op, permanent, storage)
  {
    BuiltSegments(op, permanent, storage);
    if TakenEarly(op, permanent, storage) {
      EarlyTakes(op, permanent, storage);
    } else if MethodOf(op) == GET {
      RoundTripReading(op, permanent, storage);
    } else {
      RoundTripPosting(op, permanent, storage);
    }
  }

  // ----- the public routes -----

  /** Each of the first five routes has a handler no other route has. */
  lemma PublicHandlers(i: nat, k: nat)
    requires i < 5 && k < 17 && Deployed()[k].handler == Deployed()[i].handler
    ensures k == i
  {
    hide Deployed;
    if k < 5 {
      TableOrder();
    } else {
      ScopedHandler(k);
      ScopedTable(i);
    }
  }

  lemma ScopedHandler(k: nat)
    requires 5 <= k < 17
    ensures StorageScoped(Deployed()[k].handler)
  {
    hide Deployed;
    ScopedTable(k);
  }

  /** The handler of a public route is reached exactly through that route. */
  lemma PublicServed(i: nat, m: Verb, path: string)
    requires i < 5
    ensures var a, r, s := Serve(Deployed(), m, path), Deployed()[i], Segments(path);
      && (a.Served? && a.handler == r.handler <==>
            && CleanPath(path) == path && Matches(r, m, s) && !SlashDiffers(r, s)
            && forall j | 0 <= j < i :: !Matches(Deployed()[j], m, s))
      && (a.Served? && a.handler == r.handler ==> a.params == Given(r, s))
  {
    hide Deployed, Matches, CleanPath, SlashDiffers, Given;
    var s, t := Segments(path), Deployed();
    var a := Serve(t, m, path);
    if a.Served? && a.handler == t[i].handler {
      var k := FirstMatchIndex(t, m, s);
      PublicHandlers(i, k);
    } else if CleanPath(path) == path && Matches(t[i], m, s) && !SlashDiffers(t[i], s)
           && forall j | 0 <= j < i :: !Matches(t[j], m, s) {
      FirstMatchAt(t, m, s, i);
    }
  }

  predicate Reaches(m: Verb, path: string, h: Handler) {
    Serve(Deployed(), m, path).Served? && Serve(Deployed(), m, path).handler == h
  }

  /** The only clean spelling of one name and a final slash. */
  lemma OneName(path: string, name: string)
    requires Clean(name) && !Dots(name)
    ensures path == "/" + name + "/" <==>
      && CleanPath(path) == path && EndsInSlash(Segments(path))
      && |Bare(Segments(path))| == 1 && Bare(Segments(path))[0] == name
  {
    var segs := [name, ""];
    assert PathOf(segs) == "/" + name + "/" by {
      assert segs[1..] == [""] && Join([""], '/') == "";
    }
    SegmentsOfPath(segs);
    CleanPathForm(path);
    CanonicalOne(name);
    if path != PathOf(segs) && CleanPath(path) == path {
      SegmentsOfRooted(path);
    }
    if CleanPath(path) == path && EndsInSlash(Segments(path)) && |Bare(Segments(path))| == 1
       && Bare(Segments(path))[0] == name {
      assert Segments(path) == segs;
    }
  }

  lemma CanonicalOne(name: string)
    requires Clean(name) && !Dots(name)
    ensures IsCanonical([name, ""]) && Bare([name, ""]) == [name]
  {
  }
  /** Public routes but the resources ask for a final slash; no public route names a file or a permanent storage. */
  lemma PublicShape(s: seq<string>)
    ensures !SlashDiffers(METRICS, s) <==> EndsInSlash(s)
    ensures !SlashDiffers(ROOT, s) <==> EndsInSlash(s)
    ensures !SlashDiffers(RESOURCES, s)
    ensures !SlashDiffers(REGISTER, s) <==> EndsInSlash(s)
    ensures !SlashDiffers(LOGIN, s) <==> EndsInSlash(s)
  {
  }

  lemma PublicGiven(s: seq<string>)
    ensures Given(METRICS, s) == StorageParameters("", false, false, "")
    ensures |s| == 1 ==> Given(ROOT, s) == StorageParameters("", true, false, "")
    ensures |s| >= 2 ==> Given(RESOURCES, s) == StorageParameters("", true, false, "")
    ensures |s| == 2 ==> Given(REGISTER, s) == StorageParameters("", true, false, "")
    ensures |s| == 3 ==> Given(LOGIN, s) == StorageParameters(s[1], true, false, "")
  {
    NothingNamed([SLASH], s);
    NothingNamed([Lit("res"), SLASH], s);
    NothingNamed([Lit("register"), SLASH], s);
    NothingNamed([Storage, SLASH], if s == [] then [] else s[1..]);
    if |s| == 3 {
      assert LOGIN.pattern[1..] == [Storage, SLASH] && s[1..][0] == s[1];
      assert Lookup(LOGIN.pattern, s, Storage) == Lookup([Storage, SLASH], s[1..], Storage) == s[1];
      assert Lookup(LOGIN.pattern, s, File) == Lookup([Storage, SLASH], s[1..], File);
    }
  }

  lemma {:induction false} NothingNamed(p: seq<Segment>, s: seq<string>)
    ensures Storage !in p ==> Lookup(p, s, Storage) == ""
    ensures File !in p ==> Lookup(p, s, File) == ""
  {
    if p != [] && s != [] {
      NothingNamed(p[1..], s[1..]);
    }
  }

  lemma MetricsServed(m: Verb, path: string)
    ensures Reaches(m, path, Metrics) <==> path == "/metrics/"
  {
    hide Deployed, Matches, CleanPath, SlashDiffers, Serve, Segments, Bare, EndsInSlash;
    PublicServed(0, m, path);
    TableOrder();
    PublicRoutes(m, Segments(path));
    PublicShape(Segments(path));
    WordsAreNames();
    OneName(path, "metrics");
    assert "/" + "metrics" + "/" == "/metrics/";
  }

  lemma WordsAreNames()
    ensures Clean("metrics") && !Dots("metrics") && Clean("register") && !Dots("register")
    ensures Clean("login") && !Dots("login")
  {
    assert |"metrics"| == 7 && |"register"| == 8 && |"login"| == 5;
  }

  /** The first page is a redirect to the common storage's, for reading it. */
  lemma RedirectServed(m: Verb, path: string)
    ensures Reaches(m, path, Redirect) <==> m == GET && path == "/"
    ensures Reaches(m, path, Redirect) ==>
      Serve(Deployed(), m, path).params == StorageParameters("", true, false, "")
  {
    hide Deployed, Matches, CleanPath, SlashDiffers, Serve, Given;
    PublicServed(1, m, path);
    TableOrder();
    PublicRoutes(m, Segments(path));
    PublicShape(Segments(path));
    PublicGiven(Segments(path));
    CleanPathForm(path);
    assert PathOf([""]) == "/" && Segments("/") == [""];
    assert IsCanonical([""]) && Bare([""]) == [];
    if CleanPath(path) == path {
      SegmentsOfRooted(path);
    }
  }

  /** And there it is the view of the storage called common, not a permanent one. */
  lemma HomeServed()
    ensures Serve(Deployed(), GET, HOME) == Served(View, StorageParameters("common", false, false, ""))
  {
    hide Deployed, Serve;
    var segs := ["common", ""];
    assert |"common"| == 6 && '/' !in "common";
    assert PathSegments(ViewStorage, false, "common") == segs;
    assert segs[1..] == [""] && Join([""], '/') == "" && PathOf(segs) == "/" + ("common" + ['/'] + "") == HOME;
    RoundTrip(ViewStorage, false, "common");
  }

  lemma RegisterServed(m: Verb, path: string)
    ensures Reaches(m, path, Register) <==> (m == GET || m == POST) && path == "/register/"
    ensures Reaches(m, path, Register) ==>
      Serve(Deployed(), m, path).params == StorageParameters("", true, false, "")
  {
    hide Deployed, Matches, CleanPath, SlashDiffers, Serve, Given, Segments;
    var s := Segments(path);
    PublicServed(3, m, path);
    TableOrder();
    PublicRoutes(m, s);
    PublicShape(s);
    PublicGiven(s);
    WordsAreNames();
    NamesDiffer();
    OneName(path, "register");
    assert "/" + "register" + "/" == "/register/";
    BareKeepsFirst(s);
  }

  lemma BareKeepsFirst(s: seq<string>)
    ensures Bare(s) != [] ==> s != [] && s[0] == Bare(s)[0]
    ensures EndsInSlash(s) ==> |s| == |Bare(s)| + 1
  {
  }

  /** The files of the page itself: everything below /res/, for reading. */
  lemma ResourcesServed(m: Verb, path: string)
    ensures Reaches(m, path, Resources) <==>
      m == GET && CleanPath(path) == path && |Segments(path)| >= 2 && Segments(path)[0] == "res"
    ensures Reaches(m, path, Resources) ==>
      Serve(Deployed(), m, path).params == StorageParameters("", true, false, "")
  {
    hide Deployed, Matches, CleanPath, SlashDiffers, Serve, Given, Segments;
    var s := Segments(path);
    PublicServed(2, m, path);
    TableOrder();
    PublicRoutes(m, s);
    PublicShape(s);
    PublicGiven(s);
    NamesDiffer();
    if |s| >= 2 && s[0] == "res" {
      BareKeepsFirst(s);
      BareOfTwo(s);
    }
  }

  lemma BareOfTwo(s: seq<string>)
    requires |s| >= 2
    ensures Bare(s) != []
  {
  }

  /** Logging in is for the storage named in the path. */
  lemma LoginServed(m: Verb, path: string)
    ensures Reaches(m, path, Login) <==> (m == GET || m == POST) && exists name :: IsLogin(path, name)
    ensures forall name | Reaches(m, path, Login) && IsLogin(path, name) ::
      Serve(Deployed(), m, path).params == StorageParameters(name, true, false, "")
  {
    hide Deployed, Matches, CleanPath, SlashDiffers, Serve, Given, Segments, IsLogin;
    var s := Segments(path);
    PublicServed(4, m, path);
    TableOrder();
    PublicRoutes(m, s);
    PublicShape(s);
    PublicGiven(s);
    NamesDiffer();
    BareKeepsFirst(s);
    forall name | IsLogin(path, name)
      ensures CleanPath(path) == path && EndsInSlash(s) && Bare(s) == ["login", name] && name != ""
    {
      LoginSegments(path, name);
    }
    if CleanPath(path) == path && EndsInSlash(s) && |Bare(s)| == 2 && Bare(s)[0] == "login" {
      LoginSpelled(path);
      assert IsLogin(path, Bare(s)[1]);
    }
  }

  predicate IsLogin(path: string, name: string) { Clean(name) && !Dots(name) && path == "/login/" + name + "/" }

  lemma LoginSegments(path: string, name: string)
    requires IsLogin(path, name)
    ensures CleanPath(path) == path && EndsInSlash(Segments(path))
    ensures Bare(Segments(path)) == ["login", name] && name != ""
  {
    var segs := ["login", name, ""];
    WordsAreNames();
    LoginPath(name);
    SegmentsOfPath(segs);
    CleanPathForm(path);
    assert IsCanonical(segs) && Bare(segs) == ["login", name];
  }

  lemma LoginPath(name: string)
    ensures PathOf(["login", name, ""]) == "/login/" + name + "/"
  {
    var segs := ["login", name, ""];
    assert segs[1..] == [name, ""] && segs[1..][1..] == [""];
    assert Join([""], '/') == "" && Join([name, ""], '/') == name + "/";
    assert "login" + ['/'] + (name + "/") == "login/" + name + "/";
  }

  lemma LoginSpelled(path: string)
    requires CleanPath(path) == path && EndsInSlash(Segments(path))
    requires |Bare(Segments(path))| == 2 && Bare(Segments(path))[0] == "login"
    ensures IsLogin(path, Bare(Segments(path))[1])
  {
    var s := Segments(path);
    CleanPathForm(path);
    SegmentsOfRooted(path);
    assert s == ["login", s[1], ""];
    assert Proper(s[1]) && s[1] in s;
    LoginPath(s[1]);
  }

  // ----- requests with the wrong method -----

  lemma EveryRouteReadsOrPosts(i: nat)
    requires i < 17
    ensures Allows(Deployed()[i], GET) || Allows(Deployed()[i], POST)
  {
    ScopedTable(i);
    TableOrder();
  }

  /**
   * A clean path is refused for its method if and only if no route serves it, but one would serve reading or posting
   * it.
   */
  lemma WrongMethodExactly(m: Verb, path: string)
    ensures Serve(Deployed(), m, path) == NotAllowed <==>
      && CleanPath(path) == path && FirstMatch(Deployed(), m, Segments(path)) == None
      && (FirstMatch(Deployed(), GET, Segments(path)).Some? || FirstMatch(Deployed(), POST, Segments(path)).Some?)
  {
    hide CoversPath, Deployed, Allows, CleanPath;
    var s, t := Segments(path), Deployed();
    forall r | r in t && CoversPath(r, s) ensures FirstMatch(t, GET, s).Some? || FirstMatch(t, POST, s).Some? {
      var i: nat :| i < |t| && t[i] == r;
      EveryRouteReadsOrPosts(i);
      MatchIsFound(t, if Allows(r, GET) then GET else POST, s, i);
    }
    if FirstMatch(t, GET, s).Some? {
      var i := FirstMatchIndex(t, GET, s);
    }
    if FirstMatch(t, POST, s).Some? {
      var i := FirstMatchIndex(t, POST, s);
    }
  }

  // ----- redirects -----

  /** The same path with its final slash added or taken away. */
  lemma OtherSlashSegments(path: string)
    requires CleanPath(path) == path && path != "/"
    ensures var s, t := Segments(path), Segments(OtherSlash(path));
      && Bare(t) == Bare(s) && Bare(s) != [] && EndsInSlash(t) != EndsInSlash(s) && s != [] && t != []
      && CleanPath(OtherSlash(path)) == OtherSlash(path)
  {
    var q, n := OtherSlash(path), |path| - 1;
    CleanPathForm(path);
    SegmentsOfRooted(path);
    var shorter := if path[n] == '/' then path[..n] else path;
    assert Rooted(shorter) && (shorter + "/" == q || shorter + "/" == path);
    assert (shorter + "/")[1..] == shorter[1..] + ['/'];
    SplitTrailing(shorter[1..], '/');
    SegmentsOfRooted(shorter);
    SegmentsOfRooted(shorter + "/");
    var long := Segments(shorter + "/");
    assert long == Segments(shorter) + [""];
    assert Segments(shorter) != [""] by {
      assert PathOf([""]) == "/" && PathOf(Segments(shorter)) == shorter;
    }
    BothCanonical(Segments(shorter));
    CleanPathForm(q);
  }

  lemma BothCanonical(short: seq<string>)
    requires short != [] && short != [""]
    requires (IsCanonical(short) && !EndsInSlash(short)) || IsCanonical(short + [""])
    ensures IsCanonical(short) && !EndsInSlash(short) && IsCanonical(short + [""]) && Bare(short + [""]) == short
  {
    var long, n := short + [""], |short| - 1;
    assert forall k | 0 <= k <= n :: long[k] == short[k];
    assert IsCanonical(long) ==> Proper(long[n]);
    assert IsCanonical(short) && !EndsInSlash(short) ==> Proper(short[n]);
  }

  lemma OnlyResourcesIsPrefix(i: nat)
    requires i < 17
    ensures Deployed()[i].isPrefix <==> i == 2
    ensures i == 2 ==> Deployed()[i] == RESOURCES
  {
    ScopedTable(i);
    TableOrder();
  }

  /** Adding or taking away the final slash changes nothing but whether the resources take the path. */
  lemma SlashIsOptional(i: nat, m: Verb, s: seq<string>, t: seq<string>)
    requires i < 17 && Bare(s) == Bare(t)
    ensures i != 2 ==> (Matches(Deployed()[i], m, s) <==> Matches(Deployed()[i], m, t))
  {
    OnlyResourcesIsPrefix(i);
  }

  lemma NamesNeeded(i: nat, m: Verb)
    requires i < 17 && i != 1
    ensures !Matches(Deployed()[i], m, [""])
  {
    PatternsHaveNames(i);
    assert |Bare([""])| == 0;
  }

  lemma PatternsHaveNames(i: nat)
    requires i < 17 && i != 1
    ensures |Deployed()[i].pattern| >= 2
  {
    ScopedTable(i);
    TableOrder();
  }

  /** The bare slash is never redirected: it has a route of its own for reading, and none for anything else. */
  lemma RootStays(m: Verb)
    ensures !Serve(Deployed(), m, "/").Moved?
  {
    var s := Segments("/");
    assert s == [""] && PathOf(s) == "/";
    CleanPathForm("/");
    if FirstMatch(Deployed(), m, s).Some? {
      var i := FirstMatchIndex(Deployed(), m, s);
      if i != 1 {
        NamesNeeded(i, m);
      }
      assert Deployed()[1] == ROOT;
    }
  }

  /**
   * A redirect for the final slash is followed to the very route that sent it, and served there. The one exception is
   * GET /res, which the storage view redirects into the resources.
   */
  lemma SlashRedirectSettles(m: Verb, path: string)
    ensures CleanPath(path) == path && Serve(Deployed(), m, path).Moved? ==>
      var q := OtherSlash(path);
      && Serve(Deployed(), m, path) == Moved(q) && Serve(Deployed(), m, q).Served?
      && FirstMatch(Deployed(), m, Segments(q)) ==
           if m == GET && path == "/res" then Some(RESOURCES) else FirstMatch(Deployed(), m, Segments(path))
  {
    hide Deployed, Canonical, Matches, FirstMatch, Given, KnowsPath, SlashDiffers;
    RootStays(m);
    if CleanPath(path) != path || !Serve(Deployed(), m, path).Moved? {
      return;
    }
    OtherSlashSegments(path);
    SegmentsOfRooted(path);
    RedirectedRoute(m, Segments(path), Segments(OtherSlash(path)));
    if Segments(path) == ["res"] {
      assert PathOf(["res"]) == "/res";
    }
    if path == "/res" {
      SegmentsOfPath(["res"]);
      assert PathOf(["res"]) == "/res";
    }
  }

  lemma RedirectedRoute(m: Verb, s: seq<string>, t: seq<string>)
    requires FirstMatch(Deployed(), m, s).Some? && SlashDiffers(FirstMatch(Deployed(), m, s).value, s)
    requires Bare(t) == Bare(s) != [] && s != [] && t != [] && EndsInSlash(t) != EndsInSlash(s)
    ensures var r := FirstMatch(Deployed(), m, s);
      && FirstMatch(Deployed(), m, t) == (if m == GET && s == ["res"] then Some(RESOURCES) else r)
      && !SlashDiffers(FirstMatch(Deployed(), m, t).value, t)
  {
    hide Matches;
    var table := Deployed();
    var i := FirstMatchIndex(table, m, s);
    OnlyResourcesIsPrefix(i);
    forall j | 0 <= j < i ensures j != 2 ==> !Matches(table[j], m, t) {
      SlashIsOptional(j, m, s, t);
    }
    SlashIsOptional(i, m, s, t);
    OnlyResourcesIsPrefix(2);
    ResourcesNewly(m, s, t);
    if Matches(RESOURCES, m, t) && i > 2 {
      FirstMatchAt(table, m, t, 2);
    } else {
      BareResources(i, m, s);
      FirstMatchAt(table, m, t, i);
    }
  }

  /** Only the bare name can gain the resources by its slash. */
  lemma ResourcesNewly(m: Verb, s: seq<string>, t: seq<string>)
    requires Bare(t) == Bare(s) != [] && s != [] && t != [] && EndsInSlash(t) != EndsInSlash(s)
    ensures !Matches(RESOURCES, m, s) && Matches(RESOURCES, m, t) <==> m == GET && s == ["res"]
  {
    PublicRoutes(m, s);
    PublicRoutes(m, t);
    assert s[0] == Bare(s)[0] == Bare(t)[0] == t[0];
  }

  lemma BareResources(i: nat, m: Verb, s: seq<string>)
    requires i < 17 && Matches(Deployed()[i], m, s)
    ensures m == GET && s == ["res"] ==> i > 2
  {
    hide Matches;
    PublicRoutes(m, s);
    TableOrder();
    NamesDiffer();
  }

  /** No redirect loops: of any three requests that follow each other's redirects, the last is not redirected again. */
  lemma RedirectsEnd(m: Verb, path: string)
    ensures var first := Serve(Deployed(), m, path);
      first.Moved? && Serve(Deployed(), m, first.path).Moved? ==>
        Serve(Deployed(), m, Serve(Deployed(), m, first.path).path).Served?
  {
    var first := Serve(Deployed(), m, path);
    CleanPathForm(path);
    if first.Moved? && CleanPath(path) == path {
      SlashRedirectSettles(m, path);
    } else if first.Moved? {
      SlashRedirectSettles(m, first.path);
    }
  }
}
