/** How long a queuecomplete report stays true, and runs in which it comes too often or too late. */
module QueueReports {
  import opened Collections
  import opened FileTypes
  import opened Uploads
  import opened UploadInvariants
  import opened UploadSteps
  import opened UploadTheorems
  import opened UploadOrder
  import opened QueueComplete

  /** The event gives an idle queue something to do. */
  ghost predicate Wakes<F>(o: Options, s: State<F>, e: Event<F>) {
    match e
    case AddFile(_, d) => o.autoQueue && !Rejects(o, s, d)
    case EnqueueFile(f) => f in s.files && s.Of(f).status == Added && s.Of(f).accepted == Some(true)
    case _ => false
  }

  // ----- what an idle queue stays idle through -----

  lemma IdleHasNoLive<F>(o: Options, s: State<F>, x: nat)
    requires Wf(o, s) && s.Idle() && x < |s.requests|
    ensures s.requests[x].phase != Live
  {
    assert s.Having(Uploading) == {};
    NothingLive(o, s);
    assert x !in LiveRequests(s);
  }

  lemma IdleRequestStep<F>(o: Options, s: State<F>, e: Event<F>)
    requires Inv(o, s) && s.Idle() && Possible(s, e) && (e.OnProgress? || e.OnLoad? || e.OnError?)
    ensures Step(o, s, e).Idle()
  {
    IdleHasNoLive(o, s, e.x);
    if e.OnProgress? {
      SafeBytes(o, s, Progress(s, e.x, e.loaded, e.total));
    } else {
      LateEventsAreIgnored(o, s, e.x, e.OnLoad? && e.ready, e.OnLoad? && e.ok);
    }
  }

  lemma MilderIdle<F>(s: State<F>, t: State<F>)
    requires Milder(s, t) && (forall f | f in s.files :: f in s.info) && s.Idle()
    ensures t.Idle()
  {
    forall f | f in t.files ensures !Active(t.Of(f).status) {
      assert f in s.files && !Active(s.Of(f).status);
    }
  }

  lemma IdleCancel<F>(o: Options, s: State<F>, f: F)
    requires Inv(o, s) && s.Idle()
    ensures Cancel(o, s, f).Idle()
  {
    hide Withdraw, Refill, Milder;
    WithdrawMilder(o, s, f);
    WithdrawKeeps(o, s, f);
    MilderIdle(s, Withdraw(s, f));
    IdleRefill(o, Withdraw(s, f));
  }

  lemma IdleRemove<F>(o: Options, s: State<F>, f: F)
    requires Inv(o, s) && s.Idle()
    ensures Remove(o, s, f).Idle()
  {
    hide Cancel;
    IdleCancel(o, s, f);
    if s.Of(f).status == Uploading {
      IdleDrop(Cancel(o, s, f), f);
    } else {
      IdleDrop(s, f);
    }
  }

  lemma IdleDrop<F>(s: State<F>, f: F)
    requires s.Idle()
    ensures Drop(s, f).Idle()
  {
  }

  lemma IdleListStep<F>(o: Options, s: State<F>, e: Event<F>)
    requires Inv(o, s) && s.Idle() && (e.CancelUpload? || e.RemoveFile? || e.RemoveAllFiles? || e.DisableAll?)
    ensures Step(o, s, e).Idle()
  {
    hide Inv, Cancel, Remove, RemoveAll, Disable;
    match e
    case CancelUpload(f) => IdleCancel(o, s, f);
    case RemoveFile(f) => IdleRemove(o, s, f);
    case RemoveAllFiles(c) => RemoveAllIsIdle(o, s, c);
    case DisableAll => DisableEndsEverything(o, s);
  }

  lemma RemoveAllIsIdle<F>(o: Options, s: State<F>, c: bool)
    requires Inv(o, s) && (c || s.Idle())
    ensures RemoveAll(o, s, c).Idle()
  {
    if c {
      RemoveAllAborts(o, s);
    } else {
      RemoveAllSparesUploads(o, s);
    }
  }

  lemma IdleAdd<F>(o: Options, s: State<F>, f: F, d: Desc)
    requires Inv(o, s) && s.Idle() && f !in s.info
    ensures Add(o, s, f, d).Idle() <==> !(o.autoQueue && !Rejects(o, s, d))
  {
    if Rejects(o, s, d) {
      var i := Info(d, Added, Some(false), None, d.size, 0);
      FullMeansFull(o, s, f, i.(accepted := None));
      IdleRejected(o, s, f, i);
    } else {
      AddAccepts(o, s, f, d);
      EnqueuePush(o, s, f, Listing(d, Added));
      IdlePush(o, s, f, Listing(d, if o.autoQueue then Queued else Added));
    }
  }

  lemma IdlePush<F>(o: Options, s: State<F>, f: F, i: Info)
    requires Wf(o, s) && s.Idle() && f !in s.info
    ensures Push(s, f, i).Idle() <==> !Active(i.status)
  {
    var t := Push(s, f, i);
    assert t.files[|s.files|] == f && t.Of(f) == i;
    assert forall g | g in s.files :: t.Of(g) == s.Of(g);
  }

  lemma IdleRejected<F>(o: Options, s: State<F>, f: F, i: Info)
    requires Inv(o, s) && s.Idle() && f !in s.info && i.xhr == None && i.accepted == Some(false)
    ensures ErrorProcessing(o, Push(s, f, i), [f]).Idle()
  {
    hide Refill;
    var p := Push(s, f, i.(status := Error));
    RejectedClosed(o, s, f, i);
    RejectedSafe(o, s, f, i);
    IdlePush(o, s, f, i.(status := Error));
    SafeCounters(o, p, Complete(p, 1));
    IdleRefill(o, Complete(p, 1));
  }

  lemma IdleEnqueue<F>(o: Options, s: State<F>, f: F)
    requires Inv(o, s) && s.Idle()
    ensures Enqueue(o, s, f).Idle() <==> !Wakes(o, s, EnqueueFile(f))
  {
    var t := Enqueue(o, s, f);
    if s.Of(f).status == Added && s.Of(f).accepted == Some(true) {
      assert forall g :: t.Of(g) == if g == f then s.Of(f).(status := Queued) else s.Of(g);
    }
  }

  /** From an idle good state, an event leads to a queue with something to do if and only if it wakes it. */
  lemma IdleStep<F>(o: Options, s: State<F>, e: Event<F>)
    requires Inv(o, s) && s.Idle() && Possible(s, e)
    ensures Step(o, s, e).Idle() <==> !Wakes(o, s, e)
  {
    hide Add, Enqueue, ProcessQueue;
    match e
    case AddFile(f, d) => IdleAdd(o, s, f, d);
    case EnqueueFile(f) => IdleEnqueue(o, s, f);
    case Process => IdleRefill(o, s);
    case Timer =>
      var m := s.(timers := s.timers - 1);
      SafeCounters(o, s, m);
      IdleRefill(o, m);
    case OnProgress(_, _, _) => IdleRequestStep(o, s, e);
    case OnLoad(_, _, _) => IdleRequestStep(o, s, e);
    case OnError(_) => IdleRequestStep(o, s, e);
    case _ => IdleListStep(o, s, e);
  }

  // ----- while the timer is pending -----

  /** A queuecomplete timer is only ever armed by an event that ends with nothing to do. */
  lemma ArmedMeansIdle<F>(o: Options, s: State<F>, e: Event<F>)
    requires Inv(o, s) && Possible(s, e) && Step(o, s, e).armed > s.armed
    ensures Step(o, s, e).Idle()
  {
    hide Inv, RemoveAll, Disable;
    if e.DisableAll? {
      DisableEndsEverything(o, s);
    } else if e == RemoveAllFiles(true) {
      RemoveAllIsIdle(o, s, true);
    } else {
      StepArms(o, s, e);
    }
  }

  /** Some event of the run wakes the queue. */
  ghost predicate WakesIn<F>(o: Options, s: State<F>, es: seq<Event<F>>)
    requires Feasible(o, s, es)
    decreases |es|
  {
    es != [] && (Wakes(o, s, es[0]) || WakesIn(o, Step(o, s, es[0]), es[1..]))
  }

  /** Nothing is to do at any point of the run. */
  ghost predicate IdleThroughout<F>(o: Options, s: State<F>, es: seq<Event<F>>)
    requires Feasible(o, s, es)
    decreases |es|
  {
    s.Idle() && (es == [] || IdleThroughout(o, Step(o, s, es[0]), es[1..]))
  }

  lemma {:induction false} RunIdle<F>(o: Options, s: State<F>, es: seq<Event<F>>)
    requires Inv(o, s) && s.Idle() && Feasible(o, s, es)
    ensures IdleThroughout(o, s, es) <==> !WakesIn(o, s, es)
    decreases |es|
  {
    hide Inv, Step, Wakes;
    if es != [] {
      var t := Step(o, s, es[0]);
      IdleStep(o, s, es[0]);
      StepKeeps(o, s, es[0]);
      if t.Idle() {
        RunIdle(o, t, es[1..]);
      } else {
        BusyAtOnce(o, t, es[1..]);
      }
    }
  }

  lemma BusyAtOnce<F>(o: Options, s: State<F>, es: seq<Event<F>>)
    requires Feasible(o, s, es) && !s.Idle()
    ensures !IdleThroughout(o, s, es)
  {
  }

  /**
   * The page hears of queuecomplete only when the timer fires. Whatever happens between the event that armed it and
   * then, the queue has been idle all along if and only if no file was added that queued itself, and none queued by
   * hand.
   */
  lemma ReportStaysTrue<F>(o: Options, s: State<F>, e: Event<F>, more: seq<Event<F>>)
    requires Inv(o, s) && Possible(s, e) && Step(o, s, e).armed > s.armed && Feasible(o, Step(o, s, e), more)
    ensures IdleThroughout(o, Step(o, s, e), more) <==> !WakesIn(o, Step(o, s, e), more)
  {
    hide Inv, Step;
    ArmedMeansIdle(o, s, e);
    StepKeeps(o, s, e);
    RunIdle(o, Step(o, s, e), more);
  }

  // ----- runs that get there -----

  /** A report overtaken by events: one file cancelled, and another queued before the timer can fire. */
  lemma StaleReport<F>(o: Options, a: F, da: Desc, b: F, db: Desc)
    requires (o.maxFiles.Some? ==> o.maxFiles.value >= 2) && a != b && Fits(o, da) && Fits(o, db)
    ensures var es := Put(o, a, da) + [CancelUpload(a)];
      && Feasible(o, Init(), es) && Run(o, Init(), es).armed == 1 && Run(o, Init(), es).Idle()
      && Feasible(o, Init(), es + Put(o, b, db)) && !Run(o, Init(), es + Put(o, b, db)).Idle()
  {
    hide Inv, Put, Cancel;
    var s := Init<F>();
    InitInv<F>(o);
    assert s.Approved() == {};
    PutQueues(o, s, a, da);
    var t := Run(o, s, Put(o, a, da));
    RunOne(o, t, CancelUpload(a));
    RunConcat(o, s, Put(o, a, da), [CancelUpload(a)]);
    var u := Cancel(o, t, a);
    OneCancelled(o, t, a, da);
    PutQueues(o, u, b, db);
    RunConcat(o, s, Put(o, a, da) + [CancelUpload(a)], Put(o, b, db));
    var v := Run(o, u, Put(o, b, db));
    assert b in v.files && v.Of(b).status == Queued;
  }

  lemma OneCancelled<F>(o: Options, t: State<F>, a: F, da: Desc)
    requires Inv(o, t) && t.files == [a] && t.info == map[a := Listing(da, Queued)] && t.armed == 0
    ensures var u := Cancel(o, t, a);
      Inv(o, u) && u.files == [a] && u.info.Keys == {a} && u.Idle() && u.armed == 1 && u.Approved() == {a}
  {
    hide Refill, Inv;
    var w := Withdraw(t, a);
    assert w.info == map[a := Listing(da, Canceled)] && w.files == [a] && w.armed == 1;
    assert Safe(o, w) by {
      InvIsSafe(o, t);
      WithdrawKeeps(o, t, a);
    }
    IdleRefill(o, w);
    StepKeeps(o, t, CancelUpload(a));
  }

  /** A report given three times: two files of one request fail together, and each settles the whole group. */
  lemma GroupFails<F>(o: Options, a: F, da: Desc, b: F, db: Desc)
    requires o.uploadMultiple && o.parallelUploads >= 2 && (o.maxFiles.Some? ==> o.maxFiles.value >= 2)
    requires a != b && Fits(o, da) && Fits(o, db)
    ensures var es := Put(o, a, da) + Put(o, b, db) + [Process] + [OnError(0)];
      && Feasible(o, Init(), es)
      && var t := Run(o, Init(), es); t.Of(a).status == t.Of(b).status == Error && |t.requests| == 1 && t.armed == 3
  {
    hide Inv, Put, Fail, ProcessQueue;
    var s := Init<F>();
    var es := Put(o, a, da) + Put(o, b, db);
    var u := TwoQueued(o, a, da, b, db);
    TwoSent(o, u, a, b);
    var p := ProcessQueue(o, u);
    RunOne(o, u, Process);
    RunConcat(o, s, es, [Process]);
    TwoFail(o, p, a, b);
    RunOne(o, p, OnError(0));
    RunConcat(o, s, es + [Process], [OnError(0)]);
  }

  lemma TwoQueued<F>(o: Options, a: F, da: Desc, b: F, db: Desc) returns (u: State<F>)
    requires (o.maxFiles.Some? ==> o.maxFiles.value >= 2) && a != b && Fits(o, da) && Fits(o, db)
    ensures Feasible(o, Init(), Put(o, a, da) + Put(o, b, db)) && u == Run(o, Init(), Put(o, a, da) + Put(o, b, db))
    ensures Inv(o, u) && u.files == [a, b] && u.info == map[a := Listing(da, Queued), b := Listing(db, Queued)]
    ensures u.requests == [] && u.armed == 0
  {
    hide Inv, Put;
    var s := Init<F>();
    InitInv<F>(o);
    assert s.Approved() == {};
    PutQueues(o, s, a, da);
    var t := Run(o, s, Put(o, a, da));
    assert t.files == [a] && t.info == map[a := Listing(da, Queued)] && t.Approved() == {a};
    PutQueues(o, t, b, db);
    u := Run(o, t, Put(o, b, db));
    RunConcat(o, s, Put(o, a, da), Put(o, b, db));
  }

  /** Both go out in one request. */
  lemma TwoSent<F>(o: Options, u: State<F>, a: F, b: F)
    requires Inv(o, u) && a != b && u.files == [a, b] && u.info.Keys == {a, b} && u.requests == []
    requires u.Of(a).status == u.Of(b).status == Queued && o.uploadMultiple && o.parallelUploads >= 2
    ensures ProcessQueue(o, u) == Start(u, [a, b]) && Inv(o, Start(u, [a, b]))
  {
    hide Inv, Safe, Start;
    InvIsSafe(o, u);
    TwoAreNext(o, u, a, b);
    ProcessKeeps(o, u);
  }

  lemma TwoAreNext<F>(o: Options, u: State<F>, a: F, b: F)
    requires u.files == [a, b] && u.Of(a).status == u.Of(b).status == Queued && o.parallelUploads >= 2
    ensures Next(o, u) == [a, b]
  {
    PickAll(u.files, HasStatus(u, Queued));
    PickNone(u.files, HasStatus(u, Uploading));
  }

  lemma TwoFail<F>(o: Options, p: State<F>, a: F, b: F)
    requires Inv(o, p) && a != b && p.files == [a, b] && p.requests == [Request([a, b], Live)] && p.armed == 0
    ensures var t := Fail(o, p, 0); t.Of(a).status == t.Of(b).status == Error && |t.requests| == 1 && t.armed == 3
  {
    hide Refill, Break, Inv;
    assert Safe(o, p) by {
      InvIsSafe(o, p);
    }
    var m := Settle(p, 0, Error, Settled);
    GuardIsSound(o, p, 0);
    BreakClosed(o, p, 0);
    assert Reports(2, 2) == 3;
    SettleForward(o, p, 0, Error, Settled);
    assert m.Of(a).status == Error && m.Of(b).status == Error by {
      LiveFile(o, p, 0, a);
      LiveFile(o, p, 0, b);
    }
    assert m.Idle();
    SafeCounters(o, m, Complete(m, 3));
    IdleRefill(o, Complete(m, 3));
  }
}
