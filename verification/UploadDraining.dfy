/** The queue empties: a measure every working step lowers, and a working step for every busy state. */
module UploadDraining {
  import opened Collections
  import opened Uploads
  import opened UploadInvariants
  import opened UploadSteps
  import opened UploadTheorems

  ghost function Measure<F>(s: State<F>): nat {
    2 * |s.Having(Queued)| + |s.Having(Uploading)| + s.timers
  }

  /** The steps that get work done: a timer, the end of a live request, the cancel of a listed active file. */
  ghost predicate Works<F>(s: State<F>, e: Event<F>) {
    match e
    case Timer => true
    case OnLoad(x, ready, _) => x < |s.requests| && s.requests[x].phase == Live && ready
    case OnError(x) => x < |s.requests| && s.requests[x].phase == Live
    case CancelUpload(f) => f in s.files && Active(s.Of(f).status)
    case _ => false
  }

  predicate BringsWork<F>(e: Event<F>) { e.AddFile? || e.EnqueueFile? }

  lemma RefillMeasure<F>(o: Options, s: State<F>)
    requires Safe(o, s)
    ensures Measure(Refill(o, s)) == Measure(s) - |Taken(o, s)|
  {
    Refilled(o, s);
    RefilledSets(o, s);
  }

  lemma ProcessMeasure<F>(o: Options, s: State<F>)
    requires Safe(o, s)
    ensures Measure(ProcessQueue(o, s)) <= Measure(s)
  {
    Processed(o, s);
    NextIsOldest(o, s);
    SentSets(s, ProcessQueue(o, s), Next(o, s));
  }

  lemma ReportAndRefillMeasure<F>(o: Options, s: State<F>, n: nat)
    requires Safe(o, s)
    ensures Measure(Refill(o, Complete(s, n))) <= Measure(s)
  {
    SafeCounters(o, s, Complete(s, n));
    RefillMeasure(o, Complete(s, n));
  }

  lemma SettledMeasure<F>(o: Options, s: State<F>, x: nat, status: Status, n: nat)
    requires Safe(o, s) && x < |s.requests| && s.requests[x].phase == Live && Agrees(status, Settled)
    ensures Measure(Refill(o, Complete(Settle(s, x, status, Settled), n))) < Measure(s)
  {
    var m := Settle(s, x, status, Settled);
    SettleForward(o, s, x, status, Settled);
    SlotsFreed(o, s, x, status, Settled);
    LiveGroup(o, s, x);
    ReportAndRefillMeasure(o, m, n);
  }

  lemma FailMeasure<F>(o: Options, s: State<F>, x: nat)
    requires Inv(o, s) && x < |s.requests| && s.requests[x].phase != Settled
    ensures Measure(Fail(o, s, x)) + (if s.requests[x].phase == Live then 1 else 0) <= Measure(s)
  {
    GuardIsSound(o, s, x);
    if s.requests[x].phase == Live {
      var k := |s.requests[x].files|;
      BreakClosed(o, s, x);
      SettledMeasure(o, s, x, Error, Reports(k, k));
    }
  }

  lemma LoadMeasure<F>(o: Options, s: State<F>, x: nat, ready: bool, ok: bool)
    requires Inv(o, s) && x < |s.requests| && s.requests[x].phase != Settled
    ensures Measure(Load(o, s, x, ready, ok)) + (if s.requests[x].phase == Live && ready then 1 else 0) <= Measure(s)
  {
    GuardIsSound(o, s, x);
    if s.requests[x].phase == Live && ready {
      var t := SendAll(s, Elems(s.requests[x].files));
      var k := |s.requests[x].files|;
      SendAllKeeps(o, s, Elems(s.requests[x].files));
      SafeBytes(o, s, t);
      if ok {
        FinishedClosed(o, t, x);
        SettledMeasure(o, t, x, Success, 1);
      } else {
        BreakClosed(o, t, x);
        SettledMeasure(o, t, x, Error, Reports(k, k));
      }
    }
  }

  lemma MarkOneMeasure<F>(s: State<F>, f: F)
    requires f in s.info && (s.info[f].status == Added || s.info[f].status == Queued)
    ensures var t := Mark(s, {f}, Canceled);
      Measure(t) + (if f in s.files && Active(s.Of(f).status) then 1 else 0) <= Measure(s)
  {
    var t := Mark(s, {f}, Canceled);
    assert t.Having(Uploading) == s.Having(Uploading);
    assert t.Having(Queued) == s.Having(Queued) - {f};
  }

  lemma WithdrawMeasure<F>(o: Options, s: State<F>, f: F)
    requires Safe(o, s)
    ensures Measure(Withdraw(s, f)) + (if f in s.files && Active(s.Of(f).status) then 1 else 0) <= Measure(s)
  {
    var i := s.Of(f);
    if f in s.info {
      assert FileOk(o, s, f);
      if i.status == Uploading {
        var x := i.xhr.value;
        var m := Settle(s, x, Canceled, Aborted);
        LiveGroup(o, s, x);
        SlotsFreed(o, s, x, Canceled, Aborted);
        SettleForward(o, s, x, Canceled, Aborted);
        SafeCounters(o, m, Withdraw(s, f));
      } else if i.status == Added || i.status == Queued {
        var m := Mark(s, {f}, Canceled);
        SafeWithdrawOne(o, s, f);
        SafeCounters(o, m, Withdraw(s, f));
        MarkOneMeasure(s, f);
      }
    }
  }

  lemma CancelMeasure<F>(o: Options, s: State<F>, f: F)
    requires Safe(o, s)
    ensures Measure(Cancel(o, s, f)) + (if f in s.files && Active(s.Of(f).status) then 1 else 0) <= Measure(s)
  {
    WithdrawMeasure(o, s, f);
    WithdrawKeeps(o, s, f);
    RefillMeasure(o, Withdraw(s, f));
  }

  lemma RemoveMeasure<F>(o: Options, s: State<F>, f: F)
    requires Inv(o, s)
    ensures Measure(Remove(o, s, f)) <= Measure(s)
  {
    var m := if s.Of(f).status == Uploading then Cancel(o, s, f) else s;
    CancelMeasure(o, s, f);
    CancelKeeps(o, s, f);
    SafeDrop(o, m, f);
    CardLeq(Drop(m, f).Having(Queued), m.Having(Queued));
  }

  lemma {:induction false} CancelEachMeasure<F>(o: Options, s: State<F>, fs: seq<F>)
    requires Inv(o, s)
    ensures Measure(CancelEach(o, s, fs)) <= Measure(s)
  {
    if fs != [] {
      CancelEachMeasure(o, s, fs[..|fs| - 1]);
      CancelEachKeeps(o, s, fs[..|fs| - 1]);
      CancelMeasure(o, CancelEach(o, s, fs[..|fs| - 1]), fs[|fs| - 1]);
    }
  }

  lemma {:induction false} RemoveEachMeasure<F>(o: Options, s: State<F>, fs: seq<F>, c: bool)
    requires Inv(o, s)
    ensures Measure(RemoveEach(o, s, fs, c)) <= Measure(s)
  {
    if fs != [] {
      RemoveEachMeasure(o, s, fs[..|fs| - 1], c);
      RemoveEachKeeps(o, s, fs[..|fs| - 1], c);
      RemoveMeasure(o, RemoveEach(o, s, fs[..|fs| - 1], c), fs[|fs| - 1]);
    }
  }

  lemma FireMeasure<F>(o: Options, s: State<F>)
    requires Inv(o, s) && s.timers > 0
    ensures Measure(Fire(o, s)) < Measure(s)
  {
    var m := s.(timers := s.timers - 1);
    SafeCounters(o, s, m);
    ProcessMeasure(o, m);
  }

  /** No event but adding or queueing a file raises the measure, and every working step lowers it. */
  lemma StepMeasure<F>(o: Options, s: State<F>, e: Event<F>)
    requires Inv(o, s) && Possible(s, e) && !BringsWork(e)
    ensures Measure(Step(o, s, e)) + (if Works(s, e) then 1 else 0) <= Measure(s)
  {
    match e
    case Process => ProcessMeasure(o, s);
    case Timer => FireMeasure(o, s);
    case OnProgress(x, loaded, total) => SafeBytes(o, s, Progress(s, x, loaded, total));
    case OnLoad(x, ready, ok) => LoadMeasure(o, s, x, ready, ok);
    case OnError(x) => FailMeasure(o, s, x);
    case CancelUpload(f) => CancelMeasure(o, s, f);
    case RemoveFile(f) => RemoveMeasure(o, s, f);
    case RemoveAllFiles(c) => RemoveEachMeasure(o, s, s.files, c);
    case DisableAll => CancelEachMeasure(o, s, s.files);
    case _ =>
  }

  ghost function WorkingSteps<F>(o: Options, s: State<F>, es: seq<Event<F>>): nat
    requires Feasible(o, s, es)
    decreases |es|
  {
    if es == [] then 0 else (if Works(s, es[0]) then 1 else 0) + WorkingSteps(o, Step(o, s, es[0]), es[1..])
  }

  /** Draining terminates: a run that brings no new work has at most Measure(s) working steps, in any order. */
  lemma {:induction false} DrainingTerminates<F>(o: Options, s: State<F>, es: seq<Event<F>>)
    requires Inv(o, s) && Feasible(o, s, es) && (forall e | e in es :: !BringsWork(e))
    ensures WorkingSteps(o, s, es) + Measure(Run(o, s, es)) <= Measure(s)
    decreases |es|
  {
    if es != [] {
      assert es[0] in es && forall e | e in es[1..] :: e in es;
      StepMeasure(o, s, es[0]);
      StepKeeps(o, s, es[0]);
      DrainingTerminates(o, Step(o, s, es[0]), es[1..]);
    }
  }

  /** With autoProcessQueue and at least one slot, a state with work left always has a working step to take. */
  lemma BusyStateCanWork<F>(o: Options, s: State<F>) returns (e: Event<F>)
    requires Inv(o, s) && o.autoProcessQueue && o.parallelUploads >= 1 && !s.Idle()
    ensures Possible(s, e) && Works(s, e) && (e.Timer? || e.OnLoad?)
  {
    if s.Having(Uploading) != {} {
      var f :| f in s.Having(Uploading);
      UploadingFile(o, s, f);
      e := OnLoad(s.Of(f).xhr.value, true, true);
    } else {
      var f :| f in s.files && Active(s.Of(f).status);
      assert f !in s.Having(Uploading);
      assert f in s.Having(Queued);
      e := Timer;
    }
  }

  /** So from any good state timers and answers alone empty the queue within Measure(s) steps. */
  lemma {:induction false} QueueDrains<F>(o: Options, s: State<F>) returns (es: seq<Event<F>>)
    requires Inv(o, s) && o.autoProcessQueue && o.parallelUploads >= 1
    ensures Feasible(o, s, es) && Run(o, s, es).Idle() && |es| <= Measure(s)
    ensures forall e | e in es :: e.Timer? || e.OnLoad?
    decreases Measure(s)
  {
    if s.Idle() {
      es := [];
    } else {
      var e := BusyStateCanWork(o, s);
      StepMeasure(o, s, e);
      StepKeeps(o, s, e);
      var rest := QueueDrains(o, Step(o, s, e));
      es := [e] + rest;
      assert es[1..] == rest;
    }
  }
}
