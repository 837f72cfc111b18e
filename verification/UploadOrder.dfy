/** First in, first out: the one way in which a file can be overtaken, and runs that reach the noteworthy states. */
module UploadOrder {
  import opened Collections
  import opened FileTypes
  import opened Uploads
  import opened UploadInvariants
  import opened UploadSteps
  import opened UploadTheorems
  import opened QueueComplete

  /** The event queues a waiting file that is listed before one already sent. */
  ghost predicate Jumps<F>(s: State<F>, e: Event<F>) {
    && e.EnqueueFile? && s.Of(e.file).status == Added && s.Of(e.file).accepted == Some(true)
    && exists i, j | 0 <= i < j < |s.files| :: s.files[i] == e.file && s.Of(s.files[j]).xhr.Some?
  }

  // ----- what keeps the order -----

  lemma ProcessOrdered<F>(o: Options, s: State<F>)
    requires Safe(o, s) && Ordered(s)
    ensures Ordered(ProcessQueue(o, s))
  {
    hide Ordered;
    Processed(o, s);
    NextIsOldest(o, s);
    SentOrdered(s, ProcessQueue(o, s), |Next(o, s)|);
  }

  lemma RefillOrdered<F>(o: Options, s: State<F>)
    requires Safe(o, s) && Ordered(s)
    ensures Ordered(Refill(o, s))
  {
    if o.autoProcessQueue {
      ProcessOrdered(o, s);
    }
  }

  lemma CountersOrdered<F>(s: State<F>, t: State<F>)
    requires Ordered(s) && t == s.(armed := t.armed, timers := t.timers)
    ensures Ordered(t)
  {
    assert forall f :: t.Of(f) == s.Of(f);
  }

  lemma ReportOrdered<F>(o: Options, m: State<F>, n: nat)
    requires Safe(o, m) && Ordered(m)
    ensures Ordered(Refill(o, Complete(m, n)))
  {
    hide Ordered, Safe;
    SafeCounters(o, m, Complete(m, n));
    CountersOrdered(m, Complete(m, n));
    RefillOrdered(o, Complete(m, n));
  }

  lemma SettledOrdered<F>(o: Options, s: State<F>, x: nat, status: Status, n: nat)
    requires Safe(o, s) && Ordered(s) && x < |s.requests| && s.requests[x].phase == Live && Agrees(status, Settled)
    ensures Ordered(Refill(o, Complete(Settle(s, x, status, Settled), n)))
  {
    hide Ordered, Settle, Complete, Refill;
    SafeSettle(o, s, x, status, Settled);
    MilderOrdered(s, Settle(s, x, status, Settled));
    ReportOrdered(o, Settle(s, x, status, Settled), n);
  }

  lemma FailOrdered<F>(o: Options, s: State<F>, x: nat)
    requires Inv(o, s) && Ordered(s) && x < |s.requests| && s.requests[x].phase != Settled
    ensures Ordered(Fail(o, s, x))
  {
    hide Ordered, Settle, Complete, Refill, Break;
    GuardIsSound(o, s, x);
    if s.requests[x].phase == Live {
      var k := |s.requests[x].files|;
      BreakClosed(o, s, x);
      SettledOrdered(o, s, x, Error, Reports(k, k));
    }
  }

  lemma LoadOrdered<F>(o: Options, s: State<F>, x: nat, ready: bool, ok: bool)
    requires Inv(o, s) && Ordered(s) && x < |s.requests| && s.requests[x].phase != Settled
    ensures Ordered(Load(o, s, x, ready, ok))
  {
    hide Ordered, Settle, Complete, Refill, Break, Finished;
    GuardIsSound(o, s, x);
    if s.requests[x].phase == Live && ready {
      var t := SendAll(s, Elems(s.requests[x].files));
      var k := |s.requests[x].files|;
      SafeBytes(o, s, t);
      MilderOrdered(s, t);
      if ok {
        FinishedClosed(o, t, x);
        SettledOrdered(o, t, x, Success, 1);
      } else {
        BreakClosed(o, t, x);
        SettledOrdered(o, t, x, Error, Reports(k, k));
      }
    }
  }

  lemma ProgressOrdered<F>(o: Options, s: State<F>, x: nat, loaded: nat, total: nat)
    requires Inv(o, s) && Ordered(s) && x < |s.requests|
    ensures Ordered(Progress(s, x, loaded, total))
  {
    SafeBytes(o, s, Progress(s, x, loaded, total));
    MilderOrdered(s, Progress(s, x, loaded, total));
  }

  lemma CancelOrdered<F>(o: Options, s: State<F>, f: F)
    requires Safe(o, s) && Ordered(s)
    ensures Ordered(Cancel(o, s, f))
  {
    hide Ordered, Withdraw, Refill;
    WithdrawKeeps(o, s, f);
    WithdrawMilder(o, s, f);
    MilderOrdered(s, Withdraw(s, f));
    RefillOrdered(o, Withdraw(s, f));
  }

  /** Withdrawing a file, or its whole group, only brings files to an end. */
  lemma WithdrawMilder<F>(o: Options, s: State<F>, f: F)
    requires Wf(o, s)
    ensures Milder(s, Withdraw(s, f))
  {
    var i := s.Of(f);
    if i.status == Uploading {
      assert FileOk(o, s, f);
      LiveGroup(o, s, i.xhr.value);
    }
  }

  lemma RemoveOrdered<F>(o: Options, s: State<F>, f: F)
    requires Inv(o, s) && Ordered(s)
    ensures Ordered(Remove(o, s, f))
  {
    hide Ordered, Cancel;
    if s.Of(f).status == Uploading {
      CancelOrdered(o, s, f);
      DropOrdered(Cancel(o, s, f), f);
    } else {
      DropOrdered(s, f);
    }
  }

  lemma {:induction false} CancelEachOrdered<F>(o: Options, s: State<F>, fs: seq<F>)
    requires Inv(o, s) && Ordered(s)
    ensures Ordered(CancelEach(o, s, fs))
  {
    hide Ordered, Cancel, Safe;
    if fs != [] {
      CancelEachOrdered(o, s, fs[..|fs| - 1]);
      CancelEachKeeps(o, s, fs[..|fs| - 1]);
      CancelOrdered(o, CancelEach(o, s, fs[..|fs| - 1]), fs[|fs| - 1]);
    }
  }

  lemma {:induction false} RemoveEachOrdered<F>(o: Options, s: State<F>, fs: seq<F>, c: bool)
    requires Inv(o, s) && Ordered(s)
    ensures Ordered(RemoveEach(o, s, fs, c))
  {
    hide Ordered, Remove, Safe;
    if fs != [] {
      RemoveEachOrdered(o, s, fs[..|fs| - 1], c);
      RemoveEachKeeps(o, s, fs[..|fs| - 1], c);
      RemoveOrdered(o, RemoveEach(o, s, fs[..|fs| - 1], c), fs[|fs| - 1]);
    }
  }

  // ----- adding and queueing -----

  lemma PushOrdered<F>(s: State<F>, f: F, i: Info)
    requires Ordered(s) && f !in s.info && (forall g | g in s.files :: g in s.info) && i.xhr == None
    ensures Ordered(Push(s, f, i))
  {
    var t := Push(s, f, i);
    assert forall g | g in s.files :: t.Of(g) == s.Of(g);
  }

  lemma RejectedOrdered<F>(o: Options, s: State<F>, f: F, i: Info)
    requires Inv(o, s) && Ordered(s) && f !in s.info && i.xhr == None && i.accepted == Some(false)
    ensures Ordered(ErrorProcessing(o, Push(s, f, i), [f]))
  {
    hide Ordered, Refill, Complete, Push, FileOk, RequestOk;
    RejectedClosed(o, s, f, i);
    RejectedSafe(o, s, f, i);
    PushOrdered(s, f, i.(status := Error));
    ReportOrdered(o, Push(s, f, i.(status := Error)), 1);
  }

  lemma AddOrdered<F>(o: Options, s: State<F>, f: F, d: Desc)
    requires Inv(o, s) && Ordered(s) && f !in s.info
    ensures Ordered(Add(o, s, f, d))
  {
    hide Ordered, ErrorProcessing, Push, Enqueue, FileOk, RequestOk;
    var i := s.Of(f).(desc := d, status := Added, total := d.size, bytesSent := 0);
    if !Fits(o, d) || Full(o, Push(s, f, i)) {
      RejectedOrdered(o, s, f, i.(accepted := Some(false)));
    } else {
      PushOrdered(s, f, i.(accepted := Some(true)));
      PushOrdered(s, f, i.(status := Queued, accepted := Some(true)));
      EnqueuePush(o, s, f, i.(accepted := Some(true)));
      if o.autoQueue {
        CountersOrdered(Push(s, f, i.(status := Queued, accepted := Some(true))), Add(o, s, f, d));
      }
    }
  }

  /** Queueing a file by hand puts it ahead of everything listed behind it, and so of any of those already sent. */
  lemma EnqueueOrdered<F>(o: Options, s: State<F>, f: F)
    requires Wf(o, s) && Ordered(s)
    ensures Ordered(Enqueue(o, s, f)) <==> !Jumps(s, EnqueueFile(f))
  {
    var t := Enqueue(o, s, f);
    if s.Of(f).status == Added && s.Of(f).accepted == Some(true) {
      assert forall g :: t.Of(g) == if g == f then s.Of(f).(status := Queued) else s.Of(g);
      if Jumps(s, EnqueueFile(f)) {
        var i, j :| 0 <= i < j < |s.files| && s.files[i] == f && s.Of(s.files[j]).xhr.Some?;
        assert t.Of(t.files[j]).xhr.Some? && t.Of(t.files[i]).status == Queued;
      }
    }
  }

  // ----- all of them -----

  lemma EntryStepOrdered<F>(o: Options, s: State<F>, e: Event<F>)
    requires Inv(o, s) && Possible(s, e) && Ordered(s) && (e.AddFile? || e.Process? || e.Timer?)
    ensures Ordered(Step(o, s, e))
  {
    hide Ordered, Add, Safe;
    match e
    case AddFile(f, d) => AddOrdered(o, s, f, d);
    case Process => ProcessOrdered(o, s);
    case Timer =>
      var m := s.(timers := s.timers - 1);
      SafeCounters(o, s, m);
      CountersOrdered(s, m);
      ProcessOrdered(o, m);
  }

  lemma RequestStepOrdered<F>(o: Options, s: State<F>, e: Event<F>)
    requires Inv(o, s) && Possible(s, e) && Ordered(s) && (e.OnProgress? || e.OnLoad? || e.OnError?)
    ensures Ordered(Step(o, s, e))
  {
    hide Ordered, Load, Fail, Progress;
    match e
    case OnProgress(x, loaded, total) => ProgressOrdered(o, s, x, loaded, total);
    case OnLoad(x, ready, ok) => LoadOrdered(o, s, x, ready, ok);
    case OnError(x) => FailOrdered(o, s, x);
  }

  lemma ListStepOrdered<F>(o: Options, s: State<F>, e: Event<F>)
    requires Inv(o, s) && Ordered(s) && (e.CancelUpload? || e.RemoveFile? || e.RemoveAllFiles? || e.DisableAll?)
    ensures Ordered(Step(o, s, e))
  {
    hide Ordered, Cancel, Remove;
    match e
    case CancelUpload(f) => CancelOrdered(o, s, f);
    case RemoveFile(f) => RemoveOrdered(o, s, f);
    case RemoveAllFiles(c) => RemoveEachOrdered(o, s, s.files, c);
    case DisableAll => CancelEachOrdered(o, s, s.files);
  }

  /** Whatever the options: where nothing is overtaken, an event leads to an overtaken file if and only if it jumps. */
  lemma StepOrder<F>(o: Options, s: State<F>, e: Event<F>)
    requires Inv(o, s) && Possible(s, e) && Ordered(s)
    ensures Ordered(Step(o, s, e)) <==> !Jumps(s, e)
  {
    hide Ordered, Inv;
    if e.EnqueueFile? {
      assert Wf(o, s) by {
        InvWf(o, s);
      }
      EnqueueOrdered(o, s, e.file);
    } else if e.AddFile? || e.Process? || e.Timer? {
      EntryStepOrdered(o, s, e);
    } else if e.OnProgress? || e.OnLoad? || e.OnError? {
      RequestStepOrdered(o, s, e);
    } else {
      ListStepOrdered(o, s, e);
    }
  }

  lemma InvWf<F>(o: Options, s: State<F>)
    requires Inv(o, s)
    ensures Wf(o, s)
  {
  }

  // ----- over runs -----

  /** Some event of the run jumps. */
  ghost predicate JumpsIn<F>(o: Options, s: State<F>, es: seq<Event<F>>)
    requires Feasible(o, s, es)
    decreases |es|
  {
    es != [] && (Jumps(s, es[0]) || JumpsIn(o, Step(o, s, es[0]), es[1..]))
  }

  /** Nothing is overtaken at any point of the run. */
  ghost predicate OrderedThroughout<F>(o: Options, s: State<F>, es: seq<Event<F>>)
    requires Feasible(o, s, es)
    decreases |es|
  {
    Ordered(s) && (es == [] || OrderedThroughout(o, Step(o, s, es[0]), es[1..]))
  }

  lemma {:induction false} RunOrder<F>(o: Options, s: State<F>, es: seq<Event<F>>)
    requires Inv(o, s) && Ordered(s) && Feasible(o, s, es)
    ensures OrderedThroughout(o, s, es) <==> !JumpsIn(o, s, es)
    decreases |es|
  {
    hide Ordered, Inv, Jumps, Step;
    if es != [] {
      var t := Step(o, s, es[0]);
      StepOrder(o, s, es[0]);
      StepKeeps(o, s, es[0]);
      if Ordered(t) {
        RunOrder(o, t, es[1..]);
      } else {
        NotThroughout(o, t, es[1..]);
      }
    }
  }

  lemma NotThroughout<F>(o: Options, s: State<F>, es: seq<Event<F>>)
    requires Feasible(o, s, es) && !Ordered(s)
    ensures !OrderedThroughout(o, s, es)
  {
  }

  /**
   * First in, first out, exactly: nothing is overtaken at any point of a run if and only if the run never queues a file
   * that has one already sent listed behind it.
   */
  lemma FifoExactly<F>(o: Options, es: seq<Event<F>>)
    requires Feasible(o, Init<F>(), es)
    ensures OrderedThroughout(o, Init<F>(), es) <==> !JumpsIn(o, Init<F>(), es)
  {
    InitInv<F>(o);
    RunOrder(o, Init<F>(), es);
  }

  // ----- runs that get there -----

  lemma OnlyQueuedIsNext<F>(o: Options, s: State<F>, f: F)
    requires Wf(o, s) && s.Having(Queued) == {f} && |s.Having(Uploading)| < o.parallelUploads
    ensures Next(o, s) == [f]
  {
    NextIsOldest(o, s);
    CountStatus(o, s, Queued);
    var g := Next(o, s);
    assert |g| == 1 && g[0] in s.Having(Queued);
  }

  /** The only queued file is sent if there is a slot, and nothing else changes. */
  lemma ProcessSendsOnly<F>(o: Options, s: State<F>, f: F)
    requires Inv(o, s) && s.Having(Queued) == {f} && |s.Having(Uploading)| < o.parallelUploads
    ensures var t := ProcessQueue(o, s);
      && Inv(o, t) && Sent(s, t, [f]) && t.Of(f).status == Uploading && t.Of(f).xhr.Some?
      && forall g | g in s.info && g != f :: t.Of(g) == s.Of(g)
  {
    OnlyQueuedIsNext(o, s, f);
    Processed(o, s);
    ProcessKeeps(o, s);
    assert f in s.files && f in [f];
  }

  ghost predicate Room<F>(o: Options, s: State<F>) { o.maxFiles.Some? ==> |s.Approved()| < o.maxFiles.value }

  /** An accepted file as it is listed. */
  function Listing(d: Desc, status: Status): Info { Info(d, status, Some(true), None, d.size, 0) }

  lemma AddAccepts<F>(o: Options, s: State<F>, f: F, d: Desc)
    requires Inv(o, s) && f !in s.info && Fits(o, d) && Room(o, s)
    ensures var p := Push(s, f, Listing(d, Added)); Add(o, s, f, d) == if o.autoQueue then Enqueue(o, p, f) else p
  {
    FullMeansFull(o, s, f, Info(d, Added, None, None, d.size, 0));
  }

  /** Adding a file and having it queued, by hand where that is not automatic. */
  function Put<F>(o: Options, f: F, d: Desc): seq<Event<F>> {
    [AddFile(f, d)] + if o.autoQueue then [] else [EnqueueFile(f)]
  }

  lemma PutQueues<F>(o: Options, s: State<F>, f: F, d: Desc)
    requires Inv(o, s) && f !in s.info && Fits(o, d) && Room(o, s)
    ensures Feasible(o, s, Put(o, f, d))
    ensures var t := Run(o, s, Put(o, f, d));
      Inv(o, t) && t == Push(s, f, Listing(d, Queued)).(timers := t.timers)
  {
    hide Inv, Enqueue;
    var p := Push(s, f, Listing(d, Added));
    AddAccepts(o, s, f, d);
    EnqueuePush(o, s, f, Listing(d, Added));
    RunOne(o, s, AddFile(f, d));
    if o.autoQueue {
      assert Put(o, f, d) == [AddFile(f, d)];
    } else {
      RunOne(o, p, EnqueueFile(f));
      RunConcat(o, s, [AddFile(f, d)], [EnqueueFile(f)]);
    }
    RunKeeps(o, s, Put(o, f, d));
  }

  /**
   * How it happens: from any good state with an empty queue and a free slot, queueing the later of two waiting files,
   * processing the queue and then queueing the earlier one leaves that one overtaken.
   */
  lemma ManualQueueCanOvertake<F>(o: Options, s: State<F>, i: nat, j: nat)
    requires Inv(o, s) && i < j < |s.files| && s.Of(s.files[i]).status == s.Of(s.files[j]).status == Added
    requires s.Having(Queued) == {} && |s.Having(Uploading)| < o.parallelUploads
    ensures var es := [EnqueueFile(s.files[j]), Process, EnqueueFile(s.files[i])];
      Feasible(o, s, es) && !Ordered(Run(o, s, es))
  {
    hide Ordered, Enqueue, ProcessQueue, Inv, Run, Feasible;
    var a, b := s.files[i], s.files[j];
    var p := ProcessQueue(o, Enqueue(o, s, b));
    SendsLater(o, s, i, j);
    JumpOvertakes(o, p, i, j);
    RunThree(o, s, EnqueueFile(b), Process, EnqueueFile(a));
  }

  lemma RunThree<F>(o: Options, s: State<F>, d: Event<F>, e: Event<F>, f: Event<F>)
    requires Possible(s, d) && Possible(Step(o, s, d), e) && Possible(Step(o, Step(o, s, d), e), f)
    ensures Feasible(o, s, [d, e, f]) && Run(o, s, [d, e, f]) == Step(o, Step(o, Step(o, s, d), e), f)
  {
    hide Possible, Step;
    var t := Step(o, s, d);
    RunOne(o, s, d);
    RunOne(o, t, e);
    RunOne(o, Step(o, t, e), f);
    RunConcat(o, t, [e], [f]);
    RunConcat(o, s, [d], [e] + [f]);
    assert [d] + ([e] + [f]) == [d, e, f];
  }

  /** The later of two waiting files is sent; the earlier one still waits. */
  lemma SendsLater<F>(o: Options, s: State<F>, i: nat, j: nat)
    requires Inv(o, s) && i < j < |s.files| && s.Of(s.files[i]).status == s.Of(s.files[j]).status == Added
    requires s.Having(Queued) == {} && |s.Having(Uploading)| < o.parallelUploads
    ensures var p := ProcessQueue(o, Enqueue(o, s, s.files[j]));
      && p.files == s.files && p.Of(s.files[j]).xhr.Some?
      && p.Of(s.files[i]).status == Added && p.Of(s.files[i]).accepted == Some(true)
  {
    hide ProcessQueue, Slots, InOrder, Admission, NotStuck;
    var a, b := s.files[i], s.files[j];
    assert FileOk(o, s, a);
    EnqueueSets(o, s, b);
    EnqueueKeeps(o, s, b);
    hide Inv;
    ProcessSendsOnly(o, Enqueue(o, s, b), b);
  }

  lemma JumpOvertakes<F>(o: Options, s: State<F>, i: nat, j: nat)
    requires i < j < |s.files| && s.Of(s.files[j]).xhr.Some?
    requires s.Of(s.files[i]).status == Added && s.Of(s.files[i]).accepted == Some(true)
    ensures !Ordered(Enqueue(o, s, s.files[i]))
  {
    var t := Enqueue(o, s, s.files[i]);
    assert t.Of(t.files[i]).status == Queued && t.Of(t.files[j]).xhr.Some?;
  }

  /**
   * And that it does happen: without autoQueue, with a slot and room for two, these five events from an empty queue
   * do it.
   */
  lemma ManualRunOvertakes<F>(o: Options, a: F, da: Desc, b: F, db: Desc)
    requires !o.autoQueue && o.parallelUploads >= 1 && (o.maxFiles.Some? ==> o.maxFiles.value >= 2)
    requires a != b && Fits(o, da) && Fits(o, db)
    ensures var es := [AddFile(a, da), AddFile(b, db), EnqueueFile(b), Process, EnqueueFile(a)];
      Feasible(o, Init(), es) && !Ordered(Run(o, Init(), es))
  {
    hide Inv, Ordered, Run, Feasible, Possible, Step;
    var s := Init<F>();
    var t := Push(s, a, Listing(da, Added));
    var u := Push(t, b, Listing(db, Added));
    InitInv<F>(o);
    FirstTwo(o, a, da, b, db);
    ManualQueueCanOvertake(o, u, 0, 1);
    var rest := [EnqueueFile(b), Process, EnqueueFile(a)];
    RunConcat(o, t, [AddFile(b, db)], rest);
    RunConcat(o, s, [AddFile(a, da)], [AddFile(b, db)] + rest);
    assert [AddFile(a, da)] + ([AddFile(b, db)] + rest)
        == [AddFile(a, da), AddFile(b, db), EnqueueFile(b), Process, EnqueueFile(a)];
  }

  /** Two files added by hand wait side by side. */
  lemma FirstTwo<F>(o: Options, a: F, da: Desc, b: F, db: Desc)
    requires !o.autoQueue && (o.maxFiles.Some? ==> o.maxFiles.value >= 2) && a != b && Fits(o, da) && Fits(o, db)
    ensures var s, t := Init<F>(), Push(Init<F>(), a, Listing(da, Added));
      var u := Push(t, b, Listing(db, Added));
      && Feasible(o, s, [AddFile(a, da)]) && Run(o, s, [AddFile(a, da)]) == t
      && Feasible(o, t, [AddFile(b, db)]) && Run(o, t, [AddFile(b, db)]) == u && Inv(o, u)
      && u.files == [a, b] && u.Of(a).status == u.Of(b).status == Added
      && u.Having(Queued) == {} && u.Having(Uploading) == {}
  {
    hide Inv;
    var s := Init<F>();
    var t := Push(s, a, Listing(da, Added));
    InitInv<F>(o);
    assert s.Approved() == {} && t.Approved() == {a};
    AddAccepts(o, s, a, da);
    RunOne(o, s, AddFile(a, da));
    RunKeeps(o, s, [AddFile(a, da)]);
    AddAccepts(o, t, b, db);
    RunOne(o, t, AddFile(b, db));
    RunKeeps(o, t, [AddFile(b, db)]);
  }

  /** One file, sent. */
  lemma FirstSent<F>(o: Options, a: F, da: Desc) returns (u: State<F>)
    requires !o.autoProcessQueue && o.parallelUploads >= 1 && (o.maxFiles.Some? ==> o.maxFiles.value >= 1)
    requires Fits(o, da)
    ensures Feasible(o, Init(), Put(o, a, da) + [Process]) && u == Run(o, Init(), Put(o, a, da) + [Process])
    ensures Inv(o, u) && u.files == [a] && u.info.Keys == {a} && u.Of(a).status == Uploading
    ensures u.Approved() == {a} && u.armed == 0 && u.requests != []
  {
    hide Inv, Put, ProcessQueue, Run, Feasible, Sent;
    var s := Init<F>();
    InitInv<F>(o);
    assert s.Approved() == {};
    PutQueues(o, s, a, da);
    var t := Run(o, s, Put(o, a, da));
    OneQueued(t, a, da);
    ProcessSendsOnly(o, t, a);
    u := ProcessQueue(o, t);
    RunOne(o, t, Process);
    RunConcat(o, s, Put(o, a, da), [Process]);
    SentHaving(t, u, [a]);
    RequestOfSent(o, u, a);
  }

  lemma OneQueued<F>(t: State<F>, a: F, da: Desc)
    requires t.files == [a] && t.info == map[a := Listing(da, Queued)]
    ensures t.Having(Queued) == {a} && t.Having(Uploading) == {} && t.Approved() == {a}
  {
  }

  lemma RequestOfSent<F>(o: Options, s: State<F>, f: F)
    requires Inv(o, s) && s.Of(f).status == Uploading
    ensures s.requests != []
  {
    UploadingFile(o, s, f);
  }

  /** One file sent, and one queued behind it. */
  lemma SentAndQueued<F>(o: Options, a: F, da: Desc, b: F, db: Desc) returns (u: State<F>)
    requires !o.autoProcessQueue && o.parallelUploads >= 1 && (o.maxFiles.Some? ==> o.maxFiles.value >= 2)
    requires a != b && Fits(o, da) && Fits(o, db)
    ensures var es := Put(o, a, da) + [Process] + Put(o, b, db);
      Feasible(o, Init(), es) && u == Run(o, Init(), es)
    ensures Inv(o, u) && u.files == [a, b] && u.Of(a).status == Uploading && u.Of(b).status == Queued
    ensures u.armed == 0 && u.requests != []
  {
    hide Inv, Put, Step;
    var p := FirstSent(o, a, da);
    PutQueues(o, p, b, db);
    u := Run(o, p, Put(o, b, db));
    RunConcat(o, Init<F>(), Put(o, a, da) + [Process], Put(o, b, db));
  }

  /**
   * A lost report can be reached: without autoProcessQueue, one file sent and one queued behind it,
   * removeAllFiles(true) ends with nothing listed, the request aborted, and no queuecomplete ever armed.
   */
  lemma SilentRun<F>(o: Options, a: F, da: Desc, b: F, db: Desc)
    requires !o.autoProcessQueue && o.parallelUploads >= 1 && (o.maxFiles.Some? ==> o.maxFiles.value >= 2)
    requires a != b && Fits(o, da) && Fits(o, db)
    ensures var es := Put(o, a, da) + [Process] + Put(o, b, db) + [RemoveAllFiles(true)];
      && Feasible(o, Init(), es)
      && var t := Run(o, Init(), es); t.files == [] && t.requests != [] && LiveRequests(t) == {} && t.armed == 0
  {
    hide Inv, RemoveAll, Put;
    var s := SentAndQueued(o, a, da, b, db);
    var es := Put(o, a, da) + [Process] + Put(o, b, db);
    ManualRemoveAllIsSilent(o, s);
    RemoveAllAborts(o, s);
    RunOne(o, s, RemoveAllFiles(true));
    RunKeeps(o, s, [RemoveAllFiles(true)]);
    RunConcat(o, Init<F>(), es, [RemoveAllFiles(true)]);
  }
}
