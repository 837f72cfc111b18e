/** What the invariant means for a user of the upload queue, over whole runs. */
module UploadTheorems {
  import opened Collections
  import opened Uploads
  import opened UploadInvariants
  import opened UploadSteps

  // ----- runs -----

  lemma InitInv<F>(o: Options)
    ensures Inv(o, Init<F>())
  {
    assert Init<F>().Approved() == {} && Init<F>().Having(Uploading) == {};
  }

  /** From any good state, every run of possible events ends in a good state, ahead of where it started. */
  lemma {:induction false} RunKeeps<F>(o: Options, s: State<F>, es: seq<Event<F>>)
    requires Inv(o, s) && Feasible(o, s, es)
    ensures Inv(o, Run(o, s, es)) && Forward(s, Run(o, s, es))
    decreases |es|
  {
    if es != [] {
      var t := Step(o, s, es[0]);
      StepKeeps(o, s, es[0]);
      RunKeeps(o, t, es[1..]);
      ForwardTwice(s, t, Run(o, s, es));
    }
  }

  lemma {:induction false} RunConcat<F>(o: Options, s: State<F>, es: seq<Event<F>>, fs: seq<Event<F>>)
    requires Feasible(o, s, es) && Feasible(o, Run(o, s, es), fs)
    ensures Feasible(o, s, es + fs) && Run(o, s, es + fs) == Run(o, Run(o, s, es), fs)
    decreases |es|
  {
    hide Step, Possible;
    if es == [] {
      assert es + fs == fs;
    } else {
      var both := es + fs;
      assert both[0] == es[0] && both[1..] == es[1..] + fs;
      RunConcat(o, Step(o, s, es[0]), es[1..], fs);
    }
  }

  lemma RunOne<F>(o: Options, s: State<F>, e: Event<F>)
    requires Possible(s, e)
    ensures Feasible(o, s, [e]) && Run(o, s, [e]) == Step(o, s, e)
  {
    assert [e][1..] == [];
    assert Feasible(o, Step(o, s, e), []);
  }

  /** Every reachable state satisfies the invariant. */
  lemma EveryRunIsGood<F>(o: Options, es: seq<Event<F>>)
    requires Feasible(o, Init<F>(), es)
    ensures Inv(o, Run(o, Init<F>(), es))
  {
    InitInv<F>(o);
    RunKeeps(o, Init<F>(), es);
  }

  // ----- groups and requests -----

  ghost function LiveRequests<F>(s: State<F>): set<nat> {
    set x | 0 <= x < |s.requests| && s.requests[x].phase == Live
  }

  lemma LiveFile<F>(o: Options, s: State<F>, x: nat, f: F)
    requires Wf(o, s) && x in LiveRequests(s) && f in s.requests[x].files
    ensures f in s.files && s.Of(f).status == Uploading && s.Of(f).xhr == Some(x)
  {
    assert RequestOk(s, x) && FileOk(o, s, f);
  }

  lemma OwnRequest<F>(o: Options, s: State<F>, x: nat, f: F)
    requires Wf(o, s) && x < |s.requests| && f in s.requests[x].files
    ensures s.Of(f).xhr == Some(x)
  {
    assert RequestOk(s, x);
  }

  lemma UploadingFile<F>(o: Options, s: State<F>, f: F)
    requires Wf(o, s) && s.Of(f).status == Uploading
    ensures f in s.files && s.Of(f).xhr.Some? && s.Of(f).xhr.value in LiveRequests(s)
    ensures f in s.requests[s.Of(f).xhr.value].files
  {
    assert FileOk(o, s, f);
  }

  /**
   * In every reachable state the files of a live request are all listed, all uploading and all carry it,
   * and an uploading file belongs to exactly one request, a live one.
   */
  lemma GroupsAreUniform<F>(o: Options, es: seq<Event<F>>)
    requires Feasible(o, Init<F>(), es)
    ensures var s := Run(o, Init<F>(), es);
      && (forall x, f | x in LiveRequests(s) && f in s.requests[x].files ::
            f in s.files && s.Of(f).status == Uploading && s.Of(f).xhr == Some(x))
      && (forall f | f in s.info && s.Of(f).status == Uploading ::
            exists x | x in LiveRequests(s) :: forall y | 0 <= y < |s.requests| :: f in s.requests[y].files <==> y == x)
  {
    hide Run, Feasible, FileOk, RequestOk;
    var s := Run(o, Init<F>(), es);
    EveryRunIsGood(o, es);
    forall x, f | x in LiveRequests(s) && f in s.requests[x].files
      ensures f in s.files && s.Of(f).status == Uploading && s.Of(f).xhr == Some(x)
    {
      LiveFile(o, s, x, f);
    }
    forall f | f in s.info && s.Of(f).status == Uploading
      ensures exists x | x in LiveRequests(s) ::
        forall y | 0 <= y < |s.requests| :: f in s.requests[y].files <==> y == x
    {
      UploadingFile(o, s, f);
      var x := s.Of(f).xhr.value;
      forall y | 0 <= y < |s.requests| && f in s.requests[y].files ensures y == x {
        OwnRequest(o, s, y, f);
      }
      assert x in LiveRequests(s) && forall y | 0 <= y < |s.requests| :: f in s.requests[y].files <==> y == x;
    }
  }

  /** A load or error that arrives after the request was aborted changes nothing, however late it comes. */
  lemma LateEventsAreIgnored<F>(o: Options, s: State<F>, x: nat, ready: bool, ok: bool)
    requires Inv(o, s) && x < |s.requests| && s.requests[x].phase == Aborted
    ensures Load(o, s, x, ready, ok) == s && Fail(o, s, x) == s
  {
    GuardIsSound(o, s, x);
  }

  lemma WellFormed<F>(o: Options, s: State<F>, f: F)
    requires Inv(o, s) && f in s.info
    ensures Wf(o, s) && (s.info[f].status == Success ==> s.info[f].xhr.Some?)
  {
    assert FileOk(o, s, f);
  }

  /** Over a whole run: an ended file keeps its end, a sent file keeps its request, and no file is in two requests. */
  lemma OneWayAndSentOnce<F>(o: Options, es: seq<Event<F>>, more: seq<Event<F>>, f: F)
    requires Feasible(o, Init<F>(), es) && Feasible(o, Run(o, Init<F>(), es), more)
    requires f in Run(o, Init<F>(), es).info
    ensures var s, t := Run(o, Init<F>(), es), Run(o, Run(o, Init<F>(), es), more);
      && f in t.info && Rank(s.info[f].status) <= Rank(t.info[f].status)
      && (Terminal(s.info[f].status) ==> t.info[f].status == s.info[f].status)
      && (s.info[f].xhr.Some? ==> t.info[f].xhr == s.info[f].xhr)
      && (t.info[f].status == Success ==> t.info[f].xhr.Some?)
      && (forall x, y | 0 <= x < y < |t.requests| :: !(f in t.requests[x].files && f in t.requests[y].files))
  {
    var s := Run(o, Init<F>(), es);
    var t := Run(o, s, more);
    hide Run, Feasible, FileOk, Safe;
    EveryRunIsGood(o, es);
    RunKeeps(o, s, more);
    WellFormed(o, t, f);
    forall x, y | 0 <= x < y < |t.requests| && f in t.requests[x].files ensures f !in t.requests[y].files {
      OwnRequest(o, t, x, f);
      if f in t.requests[y].files {
        OwnRequest(o, t, y, f);
      }
    }
  }

  // ----- failing groups -----

  lemma {:induction false} StartEachArmedAside<F>(s: State<F>, t: State<F>, g: seq<F>)
    requires t == s.(armed := t.armed)
    ensures StartEach(t, g) == StartEach(s, g).(armed := t.armed)
  {
    if g != [] {
      var n := |g| - 1;
      StartEachArmedAside(s, t, g[..n]);
      StartArmedAside(StartEach(s, g[..n]), StartEach(t, g[..n]), [g[n]]);
    }
  }

  lemma StartArmedAside<F>(s: State<F>, t: State<F>, g: seq<F>)
    requires t == s.(armed := t.armed)
    ensures Start(t, g) == Start(s, g).(armed := t.armed)
  {
    assert Start(t, g).info == Start(s, g).info;
  }

  lemma RefillArmedAside<F>(o: Options, s: State<F>, t: State<F>)
    requires t == s.(armed := t.armed)
    ensures Refill(o, t) == Refill(o, s).(armed := t.armed)
  {
    assert forall f :: t.Of(f) == s.Of(f);
    PickAgrees(s.files, HasStatus(s, Uploading), HasStatus(t, Uploading));
    PickAgrees(s.files, HasStatus(s, Queued), HasStatus(t, Queued));
    StartArmedAside(s, t, Next(o, s));
    StartEachArmedAside(s, t, Next(o, s));
  }

  /**
   * handleError repeats _errorProcessing for the whole group once per file, and each repetition may start uploads;
   * still the outcome, but for the count of queuecomplete timers, is that of a single call.
   */
  lemma RepeatedErrorsAreOne<F>(o: Options, s: State<F>, x: nat)
    requires Inv(o, s) && x < |s.requests| && s.requests[x].phase == Live
    ensures var once := ErrorProcessing(o, Close(s, x, Settled), s.requests[x].files);
      Break(o, s, x) == once.(armed := Break(o, s, x).armed)
  {
    var g, m := s.requests[x].files, Settle(s, x, Error, Settled);
    BreakClosed(o, s, x);
    SettleLoop(o, s, x, Error);
    RefillArmedAside(o, Complete(m, 1), Complete(m, Reports(|g|, |g|)));
  }

  // ----- slots -----

  function Capacity(o: Options): nat { if o.parallelUploads > 0 then o.parallelUploads else 0 }

  lemma LeaderIsOwn<F>(o: Options, s: State<F>, x: nat)
    requires Wf(o, s) && x < |s.requests|
    ensures s.requests[x].files != [] && s.Of(s.requests[x].files[0]).xhr == Some(x)
  {
    assert RequestOk(s, x);
    OwnRequest(o, s, x, s.requests[x].files[0]);
  }

  lemma SlotsOfLive<F>(o: Options, s: State<F>)
    requires Wf(o, s)
    ensures |LiveRequests(s)| <= |s.Having(Uploading)|
  {
    forall x | x in LiveRequests(s)
      ensures s.requests[x].files != [] && s.Of(s.requests[x].files[0]).xhr == Some(x)
      ensures s.requests[x].files[0] in s.Having(Uploading)
    {
      LeaderIsOwn(o, s, x);
      LiveFile(o, s, x, s.requests[x].files[0]);
    }
    var leader := map x | x in LiveRequests(s) :: s.requests[x].files[0];
    assert leader.Keys == LiveRequests(s);
    InjectiveCard(leader, s.Having(Uploading));
  }

  /** Never more files uploading, and never more live requests, than parallelUploads. */
  lemma SlotBound<F>(o: Options, s: State<F>)
    requires Wf(o, s) && Slots(o, s)
    ensures |LiveRequests(s)| <= |s.Having(Uploading)| <= Capacity(o)
    ensures |FilesWithStatus(s, Uploading)| <= Capacity(o)
  {
    CountStatus(o, s, Uploading);
    SlotsOfLive(o, s);
  }

  /** The bound holds after every single request that the loop of processQueue opens, not only at its end. */
  lemma SlotBoundInsideLoop<F>(o: Options, s: State<F>, k: nat)
    requires Safe(o, s) && k <= |Next(o, s)|
    ensures Safe(o, StartEach(s, Next(o, s)[..k]))
    ensures |LiveRequests(StartEach(s, Next(o, s)[..k]))| <= Capacity(o)
  {
    var t := StartEach(s, Next(o, s)[..k]);
    NextIsOldest(o, s);
    assert Next(o, s)[..k] == FilesWithStatus(s, Queued)[..k];
    WfStartEach(o, s, Next(o, s)[..k]);
    SafeSent(o, s, t, k);
    SlotBound(o, t);
  }

  /** No stuck queue: at the end of every run a queued file and a free slot mean a pending timer. */
  lemma NeverStuck<F>(o: Options, es: seq<Event<F>>)
    requires o.autoProcessQueue && Feasible(o, Init<F>(), es)
    ensures var s := Run(o, Init<F>(), es);
      FilesWithStatus(s, Queued) != [] && |FilesWithStatus(s, Uploading)| < o.parallelUploads ==> s.timers > 0
  {
    var s := Run(o, Init<F>(), es);
    EveryRunIsGood(o, es);
    CountStatus(o, s, Queued);
    CountStatus(o, s, Uploading);
  }

  // ----- order and admission -----

  /**
   * With autoQueue, once a file has been sent no file listed before it is still queued, whatever happened in between.
   */
  lemma NoOvertaking<F>(o: Options, es: seq<Event<F>>, i: nat, j: nat)
    requires o.autoQueue && Feasible(o, Init<F>(), es)
    requires var s := Run(o, Init<F>(), es); i < j < |s.files| && s.Of(s.files[j]).xhr.Some?
    ensures var s := Run(o, Init<F>(), es); s.Of(s.files[i]).status != Queued && s.Of(s.files[i]).status != Added
  {
    EveryRunIsGood(o, es);
  }

  /**
   * Accepted files number at most maxFiles and all fit; every other listed file is a rejected one in error;
   * and the two lists are the listed files, each exactly once.
   */
  lemma AdmissionHolds<F>(o: Options, es: seq<Event<F>>)
    requires Feasible(o, Init<F>(), es)
    ensures var s := Run(o, Init<F>(), es);
      && (o.maxFiles.Some? ==> |AcceptedFiles(s)| <= o.maxFiles.value)
      && (forall f | f in AcceptedFiles(s) :: Fits(o, s.Of(f).desc))
      && (forall f | f in RejectedFiles(s) :: s.Of(f).accepted == Some(false) && s.Of(f).status == Error)
      && multiset(AcceptedFiles(s)) + multiset(RejectedFiles(s)) == multiset(s.files)
  {
    var s := Run(o, Init<F>(), es);
    EveryRunIsGood(o, es);
    CountAccepted(o, s);
    assert forall f | f in s.files :: FileOk(o, s, f);
    PickParts(s.files, IsAccepted(s, true), IsAccepted(s, false));
  }

  lemma {:induction false} PickParts<F>(fs: seq<F>, p: F -> bool, q: F -> bool)
    requires forall f | f in fs :: p(f) != q(f)
    ensures multiset(Pick(fs, p)) + multiset(Pick(fs, q)) == multiset(fs)
  {
    if fs != [] {
      var n := |fs| - 1;
      var x, a, b := fs[n], Pick(fs[..n], p), Pick(fs[..n], q);
      PickParts(fs[..n], p, q);
      assert fs == fs[..n] + [x];
      assert multiset(fs) == multiset(a) + multiset(b) + multiset{x};
      if p(x) {
        assert Pick(fs, p) == a + [x] && Pick(fs, q) == b;
      } else {
        assert Pick(fs, p) == a && Pick(fs, q) == b + [x];
      }
    }
  }

  // ----- disable and removeAllFiles -----

  /** No request was settled on the way from s to t: those that ended were aborted. */
  ghost predicate OnlyAborts<F>(s: State<F>, t: State<F>) {
    forall x | 0 <= x < |t.requests| && t.requests[x].phase == Settled ::
      x < |s.requests| && s.requests[x].phase == Settled
  }

  lemma SentSettlesNothing<F>(s: State<F>, t: State<F>, g: seq<F>)
    requires Sent(s, t, g)
    ensures OnlyAborts(s, t)
  {
    forall x | 0 <= x < |s.requests| ensures t.requests[x] == s.requests[x] {
      assert t.requests[..|s.requests|][x] == s.requests[x];
    }
  }

  lemma CancelOnlyAborts<F>(o: Options, s: State<F>, f: F)
    requires Safe(o, s)
    ensures OnlyAborts(s, Cancel(o, s, f))
  {
    var m := Withdraw(s, f);
    WithdrawKeeps(o, s, f);
    Refilled(o, m);
    SentSettlesNothing(m, Cancel(o, s, f), Taken(o, m));
    WithdrawSettlesNothing(s, f);
    assert OnlyAborts(s, m) && OnlyAborts(m, Cancel(o, s, f));
  }

  lemma WithdrawSettlesNothing<F>(s: State<F>, f: F)
    ensures OnlyAborts(s, Withdraw(s, f))
  {
  }

  /** Cancelling a prefix of the list finishes that prefix for good, although each cancel may start later files. */
  lemma {:induction false} CancelledPrefix<F>(o: Options, s: State<F>, n: nat)
    requires Inv(o, s) && n <= |s.files|
    ensures var t := CancelEach(o, s, s.files[..n]);
      && OnlyAborts(s, t) && forall i | 0 <= i < n :: Terminal(t.Of(s.files[i]).status)
  {
    hide Inv, Cancel;
    if n > 0 {
      var m, f := CancelEach(o, s, s.files[..n - 1]), s.files[n - 1];
      CancelledPrefix(o, s, n - 1);
      CancelEachKeeps(o, s, s.files[..n - 1]);
      assert s.files[..n][..n - 1] == s.files[..n - 1];
      CancelStep(o, s, m, n - 1);
    }
  }

  lemma CancelStep<F>(o: Options, s: State<F>, m: State<F>, n: nat)
    requires Inv(o, m) && m.files == s.files && n < |s.files| && OnlyAborts(s, m)
    requires forall i | 0 <= i < n :: Terminal(m.Of(s.files[i]).status)
    ensures var t := Cancel(o, m, s.files[n]);
      && OnlyAborts(s, t) && forall i | 0 <= i <= n :: Terminal(t.Of(s.files[i]).status)
  {
    hide Cancel;
    CancelOnlyAborts(o, m, s.files[n]);
    forall i | 0 <= i <= n ensures Terminal(Cancel(o, m, s.files[n]).Of(s.files[i]).status) {
      CancelEnds(o, m, s.files[n], s.files[i]);
    }
  }

  /** A cancelled file has ended, and so has every file that had before. */
  lemma CancelEnds<F>(o: Options, s: State<F>, f: F, g: F)
    requires Inv(o, s) && f in s.files && g in s.files && (g == f || Terminal(s.Of(g).status))
    ensures Terminal(Cancel(o, s, f).Of(g).status)
  {
    assert FileOk(o, s, f);
    CancelKeeps(o, s, f);
    assert Ahead(s.info[g], Cancel(o, s, f).info[g]);
  }

  /** A good state with nothing uploading has no live request. */
  lemma NothingLive<F>(o: Options, s: State<F>)
    requires Wf(o, s) && s.Having(Uploading) == {}
    ensures LiveRequests(s) == {}
  {
    SlotsOfLive(o, s);
  }

  /** Every request has ended; those that had not settled before were aborted. */
  ghost predicate AllAborted<F>(s: State<F>, t: State<F>) {
    forall x | 0 <= x < |t.requests| ::
      t.requests[x].phase == if x < |s.requests| && s.requests[x].phase == Settled then Settled else Aborted
  }

  lemma EndedByAbort<F>(s: State<F>, t: State<F>)
    requires Forward(s, t) && OnlyAborts(s, t) && LiveRequests(t) == {}
    ensures AllAborted(s, t)
  {
    forall x | 0 <= x < |t.requests| ensures t.requests[x].phase != Live {
      assert x !in LiveRequests(t);
    }
  }

  /** disable() leaves every listed file at an end and every request that was or became live aborted. */
  lemma DisableEndsEverything<F>(o: Options, s: State<F>)
    requires Inv(o, s)
    ensures var t := Disable(o, s);
      && t.files == s.files && (forall f | f in t.files :: Terminal(t.Of(f).status))
      && LiveRequests(t) == {} && AllAborted(s, t)
  {
    hide FileOk, RequestOk, CancelEach;
    var t := Disable(o, s);
    assert s.files[..|s.files|] == s.files;
    CancelEachKeeps(o, s, s.files);
    CancelledPrefix(o, s, |s.files|);
    assert t.Having(Uploading) == {};
    NothingLive(o, t);
    EndedByAbort(s, t);
  }

  lemma {:induction false} RemovedPrefix<F>(o: Options, s: State<F>, n: nat)
    requires Inv(o, s) && n <= |s.files|
    ensures var t := RemoveEach(o, s, s.files[..n], true);
      t.files == s.files[n..] && OnlyAborts(s, t)
  {
    hide Inv, Remove;
    if n > 0 {
      var fs := s.files[..n - 1];
      var m, f := RemoveEach(o, s, fs, true), s.files[n - 1];
      RemovedPrefix(o, s, n - 1);
      RemoveEachKeeps(o, s, fs, true);
      assert s.files[..n][..n - 1] == fs && s.files[..n][n - 1] == f;
      assert m.files[0] == f && m.files[1..] == s.files[n..];
      RemoveHead(o, m, f);
    }
  }

  lemma RemoveHead<F>(o: Options, s: State<F>, f: F)
    requires Inv(o, s) && s.files != [] && s.files[0] == f
    ensures Remove(o, s, f).files == s.files[1..] && OnlyAborts(s, Remove(o, s, f))
  {
    CancelOnlyAborts(o, s, f);
    RemoveKeeps(o, s, f);
    PickTail(s.files, Other(f));
  }

  /** removeAllFiles(true) empties the list and aborts every request, including those its own cancels started. */
  lemma RemoveAllAborts<F>(o: Options, s: State<F>)
    requires Inv(o, s)
    ensures var t := RemoveAll(o, s, true);
      && t.files == [] && LiveRequests(t) == {} && AllAborted(s, t)
      && forall f | f in t.info :: t.info[f].status != Uploading
  {
    var t := RemoveAll(o, s, true);
    assert s.files[..|s.files|] == s.files;
    RemovedPrefix(o, s, |s.files|);
    RemoveEachKeeps(o, s, s.files, true);
    assert t.Having(Uploading) == {};
    NothingLive(o, t);
    EndedByAbort(s, t);
    assert forall f | f in t.info :: FileOk(o, t, f);
  }

  ghost function Spared<F>(s: State<F>, gone: seq<F>): F -> bool {
    f => s.Of(f).status == Uploading || f !in gone
  }

  lemma {:induction false} SparedPrefix<F>(o: Options, s: State<F>, n: nat)
    requires n <= |s.files|
    ensures RemoveEach(o, s, s.files[..n], false) == s.(files := Pick(s.files, Spared(s, s.files[..n])))
  {
    hide Remove, Pick;
    if n == 0 {
      PickAll(s.files, Spared(s, []));
      assert s.files[..0] == [];
    } else {
      var gone, f := s.files[..n - 1], s.files[n - 1];
      SparedPrefix(o, s, n - 1);
      assert s.files[..n][..n - 1] == gone && s.files[..n] == gone + [f];
      SparedStep(o, s, gone, f);
    }
  }

  /** One more file of the list: spared if it is uploading, removed without a cancel if not. */
  lemma SparedStep<F>(o: Options, s: State<F>, gone: seq<F>, f: F)
    ensures var m := s.(files := Pick(s.files, Spared(s, gone)));
      && m.Of(f) == s.Of(f)
      && (if s.Of(f).status == Uploading then m else Remove(o, m, f))
         == s.(files := Pick(s.files, Spared(s, gone + [f])))
  {
    hide Pick;
    SparedOneMore(s, gone, f);
  }

  lemma SparedOneMore<F>(s: State<F>, gone: seq<F>, f: F)
    ensures var kept := Pick(s.files, Spared(s, gone));
      Pick(s.files, Spared(s, gone + [f])) == if s.Of(f).status == Uploading then kept else Without(kept, f)
  {
    if s.Of(f).status == Uploading {
      PickAgrees(s.files, Spared(s, gone), Spared(s, gone + [f]));
    } else {
      PickTwice(s.files, Spared(s, gone), Other(f), Spared(s, gone + [f]));
    }
  }

  /** removeAllFiles(false) changes nothing but the list, which keeps exactly the files uploading, in order. */
  lemma RemoveAllSparesUploads<F>(o: Options, s: State<F>)
    ensures RemoveAll(o, s, false) == s.(files := FilesWithStatus(s, Uploading))
  {
    SparedPrefix(o, s, |s.files|);
    assert s.files[..|s.files|] == s.files;
    PickAgrees(s.files, Spared(s, s.files), HasStatus(s, Uploading));
  }

  /**
   * destroy(), that is disable() and then removeAllFiles(true), leaves no file, no live request and nothing in
   * flight.
   */
  lemma DestroyLeavesNothing<F>(o: Options, s: State<F>)
    requires Inv(o, s)
    ensures var t := RemoveAll(o, Disable(o, s), true);
      t.files == [] && LiveRequests(t) == {} && (forall f | f in s.files :: Terminal(t.Of(f).status))
  {
    var m := Disable(o, s);
    var t := RemoveAll(o, m, true);
    DisableEndsEverything(o, s);
    CancelEachKeeps(o, s, s.files);
    RemoveAllAborts(o, m);
    RemoveEachKeeps(o, m, m.files, true);
    forall f | f in s.files ensures Terminal(t.Of(f).status) {
      assert f in m.info && Ahead(m.info[f], t.info[f]);
    }
  }
}
