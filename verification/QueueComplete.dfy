/** When, and how often, the queuecomplete timer is armed. */
module QueueComplete {
  import opened Collections
  import opened FileTypes
  import opened Uploads
  import opened UploadInvariants
  import opened UploadSteps
  import opened UploadTheorems

  /** How many completions cancelUpload reports for f. */
  ghost function Withdrawn<F>(s: State<F>, f: F): nat {
    var i := s.Of(f);
    if i.status == Uploading && i.xhr.Some? && i.xhr.value < |s.requests| then |s.requests[i.xhr.value].files|
    else if i.status == Added || i.status == Queued then 1
    else 0
  }

  ghost predicate Rejects<F>(o: Options, s: State<F>, d: Desc) {
    !Fits(o, d) || (o.maxFiles.Some? && |s.Approved()| >= o.maxFiles.value)
  }

  /** The completions an event reports at the moment nothing is left to do: none unless it completes a file. */
  ghost function ReportsOf<F>(o: Options, s: State<F>, e: Event<F>): nat
    requires Possible(s, e)
  {
    match e
    case AddFile(_, d) => if Rejects(o, s, d) then 1 else 0
    case OnLoad(x, ready, ok) =>
      if s.requests[x].phase == Live && ready then
        if ok then 1 else Reports(|s.requests[x].files|, |s.requests[x].files|)
      else 0
    case OnError(x) => if s.requests[x].phase == Live then Reports(|s.requests[x].files|, |s.requests[x].files|) else 0
    case CancelUpload(f) => Withdrawn(s, f)
    case RemoveFile(f) => if s.Of(f).status == Uploading then Withdrawn(s, f) else 0
    case _ => 0
  }

  /** The events that complete a file, by what can be seen beforehand. */
  ghost predicate Completes<F>(o: Options, s: State<F>, e: Event<F>)
    requires Possible(s, e)
  {
    match e
    case AddFile(_, d) => Rejects(o, s, d)
    case OnLoad(x, ready, _) => s.requests[x].phase == Live && ready
    case OnError(x) => s.requests[x].phase == Live
    case CancelUpload(f) => s.Of(f).status == Added || Active(s.Of(f).status)
    case RemoveFile(f) => s.Of(f).status == Uploading
    case _ => false
  }

  /** t armed n more timers than s if t is idle, and none otherwise. */
  ghost predicate Armed<F>(s: State<F>, t: State<F>, n: nat) {
    t.armed == s.armed + if t.Idle() then n else 0
  }

  lemma RefillArmed<F>(o: Options, m: State<F>, n: nat)
    requires Safe(o, m)
    ensures Armed(m, Refill(o, Complete(m, n)), n)
  {
    var u := Complete(m, n);
    SafeCounters(o, m, u);
    Refilled(o, u);
    RefilledSets(o, u);
  }

  lemma SettledArmed<F>(o: Options, s: State<F>, x: nat, status: Status, n: nat)
    requires Safe(o, s) && x < |s.requests| && s.requests[x].phase == Live && Agrees(status, Settled)
    ensures Armed(s, Refill(o, Complete(Settle(s, x, status, Settled), n)), n)
  {
    SettleForward(o, s, x, status, Settled);
    RefillArmed(o, Settle(s, x, status, Settled), n);
  }

  lemma FailArmed<F>(o: Options, s: State<F>, x: nat)
    requires Inv(o, s) && Possible(s, OnError(x))
    ensures Armed(s, Fail(o, s, x), ReportsOf(o, s, OnError(x)))
  {
    GuardIsSound(o, s, x);
    if s.requests[x].phase == Live {
      var k := |s.requests[x].files|;
      BreakClosed(o, s, x);
      SettledArmed(o, s, x, Error, Reports(k, k));
    }
  }

  lemma LoadArmed<F>(o: Options, s: State<F>, x: nat, ready: bool, ok: bool)
    requires Inv(o, s) && Possible(s, OnLoad(x, ready, ok))
    ensures Armed(s, Load(o, s, x, ready, ok), ReportsOf(o, s, OnLoad(x, ready, ok)))
  {
    GuardIsSound(o, s, x);
    if s.requests[x].phase == Live && ready {
      var t := SendAll(s, Elems(s.requests[x].files));
      var k := |s.requests[x].files|;
      SendAllKeeps(o, s, Elems(s.requests[x].files));
      if ok {
        FinishedClosed(o, t, x);
        SettledArmed(o, t, x, Success, 1);
      } else {
        BreakClosed(o, t, x);
        SettledArmed(o, t, x, Error, Reports(k, k));
      }
    }
  }

  /** Withdrawing f is a report of Withdrawn(s, f) completions on a state that differs in nothing else. */
  lemma WithdrawClosed<F>(o: Options, s: State<F>, f: F)
    requires Safe(o, s)
    ensures var m := Withdraw(s, f).(armed := s.armed);
      Safe(o, m) && Withdraw(s, f) == Complete(m, Withdrawn(s, f))
  {
    var w := Withdraw(s, f);
    var m := w.(armed := s.armed);
    WithdrawKeeps(o, s, f);
    SafeCounters(o, w, m);
    if f in s.info {
      assert FileOk(o, s, f);
      if s.Of(f).status == Uploading {
        LiveGroup(o, s, s.Of(f).xhr.value);
        assert m == Settle(s, s.Of(f).xhr.value, Canceled, Aborted);
      } else if s.Of(f).status == Added || s.Of(f).status == Queued {
        assert m == Mark(s, {f}, Canceled);
      }
    }
  }

  lemma CancelArmed<F>(o: Options, s: State<F>, f: F)
    requires Safe(o, s)
    ensures Armed(s, Cancel(o, s, f), Withdrawn(s, f))
  {
    var m := Withdraw(s, f).(armed := s.armed);
    WithdrawClosed(o, s, f);
    RefillArmed(o, m, Withdrawn(s, f));
  }

  lemma RemoveArmed<F>(o: Options, s: State<F>, f: F)
    requires Inv(o, s)
    ensures Armed(s, Remove(o, s, f), if s.Of(f).status == Uploading then Withdrawn(s, f) else 0)
  {
    if s.Of(f).status == Uploading {
      CancelArmed(o, s, f);
      CancelKeeps(o, s, f);
      var m := Cancel(o, s, f);
      assert Drop(m, f).Idle() <==> m.Idle();
    }
  }

  lemma RejectedArmed<F>(o: Options, s: State<F>, f: F, i: Info)
    requires Inv(o, s) && f !in s.info && i.xhr == None && i.accepted == Some(false)
    ensures Armed(s, ErrorProcessing(o, Push(s, f, i), [f]), 1)
  {
    hide Safe, Refill, Complete;
    RejectedClosed(o, s, f, i);
    RejectedSafe(o, s, f, i);
    RefillArmed(o, Push(s, f, i.(status := Error)), 1);
  }

  lemma AddArmed<F>(o: Options, s: State<F>, f: F, d: Desc)
    requires Inv(o, s) && f !in s.info
    ensures Armed(s, Add(o, s, f, d), if Rejects(o, s, d) then 1 else 0)
  {
    var i := Info(d, Added, None, None, d.size, 0);
    FullMeansFull(o, s, f, i);
    if Rejects(o, s, d) {
      var j := i.(accepted := Some(false));
      RejectedArmed(o, s, f, j);
    }
  }

  lemma ProcessArmed<F>(o: Options, s: State<F>)
    requires Safe(o, s)
    ensures ProcessQueue(o, s).armed == s.armed
  {
    Processed(o, s);
  }

  lemma RequestStepArms<F>(o: Options, s: State<F>, e: Event<F>)
    requires Inv(o, s) && Possible(s, e) && (e.OnProgress? || e.OnLoad? || e.OnError?)
    ensures Armed(s, Step(o, s, e), ReportsOf(o, s, e))
  {
    match e
    case OnProgress(x, loaded, total) =>
    case OnLoad(x, ready, ok) => LoadArmed(o, s, x, ready, ok);
    case OnError(x) => FailArmed(o, s, x);
  }

  lemma FireArmed<F>(o: Options, s: State<F>)
    requires Inv(o, s) && s.timers > 0
    ensures Fire(o, s).armed == s.armed
  {
    SafeCounters(o, s, s.(timers := s.timers - 1));
    ProcessArmed(o, s.(timers := s.timers - 1));
  }

  lemma FileStepArms<F>(o: Options, s: State<F>, e: Event<F>)
    requires Inv(o, s) && Possible(s, e) && (e.AddFile? || e.EnqueueFile? || e.CancelUpload? || e.RemoveFile?)
    ensures Armed(s, Step(o, s, e), ReportsOf(o, s, e))
  {
    match e
    case AddFile(f, d) => AddArmed(o, s, f, d);
    case EnqueueFile(f) =>
    case CancelUpload(f) => CancelArmed(o, s, f);
    case RemoveFile(f) => RemoveArmed(o, s, f);
  }

  /**
   * queuecomplete, to the count: an event arms exactly ReportsOf timers if no file is uploading or queued when it ends,
   * and none otherwise. Disabling and removing everything with cancellation are treated below.
   */
  lemma StepArms<F>(o: Options, s: State<F>, e: Event<F>)
    requires Inv(o, s) && Possible(s, e) && !e.DisableAll? && e != RemoveAllFiles(true)
    ensures Armed(s, Step(o, s, e), ReportsOf(o, s, e))
  {
    if e.AddFile? || e.EnqueueFile? || e.CancelUpload? || e.RemoveFile? {
      FileStepArms(o, s, e);
    } else if e.Process? {
      ProcessArmed(o, s);
    } else if e.Timer? {
      FireArmed(o, s);
    } else if e.RemoveAllFiles? {
      RemoveAllSparesUploads(o, s);
    } else {
      RequestStepArms(o, s, e);
    }
  }

  lemma ReportsMeanCompletion<F>(o: Options, s: State<F>, e: Event<F>)
    requires Inv(o, s) && Possible(s, e)
    ensures ReportsOf(o, s, e) > 0 <==> Completes(o, s, e)
  {
    match e
    case OnLoad(x, _, _) =>
      assert RequestOk(s, x);
      ReportsPositive(|s.requests[x].files|);
    case OnError(x) =>
      assert RequestOk(s, x);
      ReportsPositive(|s.requests[x].files|);
    case CancelUpload(f) => WithdrawnPositive(o, s, f);
    case RemoveFile(f) => WithdrawnPositive(o, s, f);
    case _ =>
  }

  lemma ReportsPositive(k: nat)
    ensures k > 0 ==> Reports(k, k) > 0
  {
    if k > 0 {
      assert (k - 1) * k >= 0;
    }
  }

  // ----- completing a file is bringing one to an end -----

  ghost predicate Over<F>(s: State<F>, f: F) {
    f in s.info && (s.info[f].status == Success || s.info[f].status == Error || s.info[f].status == Canceled)
  }

  /** Some file is over in t that was not over in s, if it was there at all. */
  ghost predicate Ends<F>(s: State<F>, t: State<F>) { exists f | f in t.info :: Over(t, f) && !Over(s, f) }

  lemma SentEndsNothing<F>(s: State<F>, t: State<F>, g: seq<F>)
    requires Sent(s, t, g)
    ensures !Ends(s, t)
  {
  }

  lemma ProcessEndsNothing<F>(o: Options, s: State<F>)
    requires Safe(o, s)
    ensures !Ends(s, ProcessQueue(o, s)) && !Ends(s, Refill(o, s))
  {
    hide Sent;
    Processed(o, s);
    SentEndsNothing(s, ProcessQueue(o, s), Next(o, s));
    NothingEnds(s);
  }

  lemma NothingEnds<F>(s: State<F>)
    ensures !Ends(s, s)
  {
  }

  lemma FireEndsNothing<F>(o: Options, s: State<F>)
    requires Safe(o, s) && s.timers > 0
    ensures !Ends(s, Fire(o, s))
  {
    var m := s.(timers := s.timers - 1);
    SafeCounters(o, s, m);
    ProcessEndsNothing(o, m);
    assert forall f :: Over(m, f) == Over(s, f);
  }

  /** A group settled is a group that ended, whatever the refill then starts. */
  lemma SettledEnds<F>(o: Options, s: State<F>, m: State<F>, x: nat, status: Status, n: nat)
    requires Wf(o, s) && SameButBytes(s, m) && Safe(o, m) && x < |m.requests| && m.requests[x].phase == Live
    requires Agrees(status, Settled)
    ensures Ends(s, Refill(o, Complete(Settle(m, x, status, Settled), n)))
  {
    hide Refill, Complete;
    var k := Settle(m, x, status, Settled);
    var f := LeaderSettled(o, m, x, status);
    assert s.info[f].status == Uploading;
    hide Wf, Settle, Safe;
    SettleForward(o, m, x, status, Settled);
    ReportAndRefillKeeps(o, k, n);
    assert Ahead(k.info[f], Refill(o, Complete(k, n)).info[f]);
    assert Over(Refill(o, Complete(k, n)), f) && !Over(s, f);
  }

  lemma LeaderSettled<F>(o: Options, m: State<F>, x: nat, status: Status) returns (f: F)
    requires Wf(o, m) && x < |m.requests| && m.requests[x].phase == Live && Agrees(status, Settled)
    ensures f in m.info && m.info[f].status == Uploading
    ensures var k := Settle(m, x, status, Settled); f in k.info && k.info[f].status == status
  {
    LeaderIsOwn(o, m, x);
    f := m.requests[x].files[0];
    LiveFile(o, m, x, f);
  }

  lemma SameBytes<F>(s: State<F>)
    ensures SameButBytes(s, s)
  {
  }

  lemma FailEnds<F>(o: Options, s: State<F>, x: nat)
    requires Inv(o, s) && Possible(s, OnError(x))
    ensures Ends(s, Fail(o, s, x)) <==> s.requests[x].phase == Live
  {
    hide Settle, Refill, Complete, Ends;
    GuardIsSound(o, s, x);
    if s.requests[x].phase == Live {
      var k := |s.requests[x].files|;
      BreakClosed(o, s, x);
      SameBytes(s);
      SettledEnds(o, s, s, x, Error, Reports(k, k));
    } else {
      NothingEnds(s);
    }
  }

  lemma LoadEnds<F>(o: Options, s: State<F>, x: nat, ready: bool, ok: bool)
    requires Inv(o, s) && Possible(s, OnLoad(x, ready, ok))
    ensures Ends(s, Load(o, s, x, ready, ok)) <==> s.requests[x].phase == Live && ready
  {
    hide Settle, Refill, Complete, Ends;
    GuardIsSound(o, s, x);
    if s.requests[x].phase == Live && ready {
      var t := SendAll(s, Elems(s.requests[x].files));
      var k := |s.requests[x].files|;
      SendAllKeeps(o, s, Elems(s.requests[x].files));
      if ok {
        FinishedClosed(o, t, x);
        SettledEnds(o, s, t, x, Success, 1);
      } else {
        BreakClosed(o, t, x);
        SettledEnds(o, s, t, x, Error, Reports(k, k));
      }
    } else {
      NothingEnds(s);
    }
  }

  lemma CancelEnding<F>(o: Options, s: State<F>, f: F)
    requires Inv(o, s)
    ensures Ends(s, Cancel(o, s, f)) <==> s.Of(f).status == Added || Active(s.Of(f).status)
  {
    hide Refill;
    if s.Of(f).status == Added || Active(s.Of(f).status) {
      CancelKeeps(o, s, f);
      assert Over(Cancel(o, s, f), f) && !Over(s, f);
    } else {
      assert Withdraw(s, f) == s;
      ProcessEndsNothing(o, s);
    }
  }

  lemma AddEnds<F>(o: Options, s: State<F>, f: F, d: Desc)
    requires Inv(o, s) && f !in s.info
    ensures Ends(s, Add(o, s, f, d)) <==> Rejects(o, s, d)
  {
    var i := Info(d, Added, None, None, d.size, 0);
    FullMeansFull(o, s, f, i);
    if Rejects(o, s, d) {
      RejectedEnds(o, s, f, i.(accepted := Some(false)));
    }
  }

  lemma RejectedEnds<F>(o: Options, s: State<F>, f: F, i: Info)
    requires Inv(o, s) && f !in s.info && i.xhr == None && i.accepted == Some(false)
    ensures Ends(s, ErrorProcessing(o, Push(s, f, i), [f]))
  {
    hide Refill, Complete, Inv, Safe;
    var p := Push(s, f, i.(status := Error));
    RejectedClosed(o, s, f, i);
    RejectedSafe(o, s, f, i);
    ReportAndRefillKeeps(o, p, 1);
    assert Ahead(p.info[f], Refill(o, Complete(p, 1)).info[f]);
    assert Over(Refill(o, Complete(p, 1)), f) && !Over(s, f);
  }

  lemma FileStepEnds<F>(o: Options, s: State<F>, e: Event<F>)
    requires Inv(o, s) && Possible(s, e) && (e.AddFile? || e.EnqueueFile? || e.CancelUpload? || e.RemoveFile?)
    ensures Ends(s, Step(o, s, e)) <==> Completes(o, s, e)
  {
    hide Inv, Add, Cancel, Rejects;
    match e
    case AddFile(f, d) => AddEnds(o, s, f, d);
    case EnqueueFile(f) =>
    case CancelUpload(f) => CancelEnding(o, s, f);
    case RemoveFile(f) =>
      if s.Of(f).status == Uploading {
        CancelEnding(o, s, f);
        assert forall g :: Over(Drop(Cancel(o, s, f), f), g) == Over(Cancel(o, s, f), g);
      }
  }

  /** Which events complete a file can be told beforehand: exactly those after which some file is newly at an end. */
  lemma CompletesMeansEnds<F>(o: Options, s: State<F>, e: Event<F>)
    requires Inv(o, s) && Possible(s, e) && !e.DisableAll? && e != RemoveAllFiles(true)
    ensures Ends(s, Step(o, s, e)) <==> Completes(o, s, e)
  {
    hide Inv, Ends, Load, Fail;
    InvIsSafe(o, s);
    match e
    case Process => ProcessEndsNothing(o, s);
    case Timer => FireEndsNothing(o, s);
    case OnProgress(x, loaded, total) => ProgressEndsNothing(s, x, loaded, total);
    case OnLoad(x, ready, ok) => LoadEnds(o, s, x, ready, ok);
    case OnError(x) => FailEnds(o, s, x);
    case RemoveAllFiles(c) =>
      RemoveAllSparesUploads(o, s);
      DroppingEndsNothing(s, FilesWithStatus(s, Uploading));
    case _ => FileStepEnds(o, s, e);
  }

  lemma ProgressEndsNothing<F>(s: State<F>, x: nat, loaded: nat, total: nat)
    requires x < |s.requests|
    ensures !Ends(s, Progress(s, x, loaded, total))
  {
  }

  lemma DroppingEndsNothing<F>(s: State<F>, fs: seq<F>)
    ensures !Ends(s, s.(files := fs))
  {
  }

  /** A step arms queuecomplete if and only if it brings a file to its end and leaves nothing uploading or queued. */
  lemma QueueCompleteIsExact<F>(o: Options, s: State<F>, e: Event<F>)
    requires Inv(o, s) && Possible(s, e) && !e.DisableAll? && e != RemoveAllFiles(true)
    ensures var t := Step(o, s, e);
      t.armed > s.armed <==>
        && (exists f | f in t.info :: Over(t, f) && !Over(s, f))
        && forall f | f in t.files :: t.Of(f).status != Uploading && t.Of(f).status != Queued
  {
    hide Inv, Step, Completes, ReportsOf;
    assert Ends(s, Step(o, s, e)) <==> exists f | f in Step(o, s, e).info :: Over(Step(o, s, e), f) && !Over(s, f);
    StepArms(o, s, e);
    ReportsMeanCompletion(o, s, e);
    CompletesMeansEnds(o, s, e);
  }

  // ----- disable and removeAllFiles(true) -----

  ghost predicate AllOver<F>(s: State<F>) { forall f | f in s.files :: Terminal(s.Of(f).status) }

  lemma WithdrawnPositive<F>(o: Options, s: State<F>, f: F)
    requires Wf(o, s)
    ensures Withdrawn(s, f) > 0 <==> s.Of(f).status == Added || Active(s.Of(f).status)
  {
    if s.Of(f).status == Uploading {
      assert FileOk(o, s, f);
      assert RequestOk(s, s.Of(f).xhr.value);
    }
  }

  lemma SentOver<F>(s: State<F>, t: State<F>, g: seq<F>)
    requires Sent(s, t, g) && forall f | f in s.files :: f in s.info
    ensures AllOver(t) <==> AllOver(s)
  {
    assert forall f | f in s.files :: Terminal(t.Of(f).status) == Terminal(s.Of(f).status);
  }

  /** Cancelling a file that has ended ends no other file. */
  lemma CancelOver<F>(o: Options, s: State<F>, f: F)
    requires Safe(o, s) && f in s.files && Terminal(s.Of(f).status)
    ensures AllOver(Cancel(o, s, f)) <==> AllOver(s)
  {
    assert Withdraw(s, f) == s;
    Refilled(o, s);
    SentOver(s, Refill(o, s), Taken(o, s));
  }

  lemma OverIsIdle<F>(s: State<F>)
    requires AllOver(s)
    ensures s.Idle()
  {
  }

  lemma CancelDone<F>(o: Options, s: State<F>, f: F)
    requires Safe(o, s) && f in s.files
    ensures Cancel(o, s, f).armed >= s.armed
    ensures AllOver(s) ==> Cancel(o, s, f).armed == s.armed
    ensures !AllOver(s) && AllOver(Cancel(o, s, f)) ==> Cancel(o, s, f).armed > s.armed
  {
    var t := Cancel(o, s, f);
    CancelArmed(o, s, f);
    WithdrawnPositive(o, s, f);
    assert f in s.info && FileOk(o, s, f);
    if Terminal(s.Of(f).status) {
      CancelOver(o, s, f);
    } else if AllOver(t) {
      OverIsIdle(t);
    }
  }

  lemma {:induction false} DisableReports<F>(o: Options, s: State<F>, fs: seq<F>)
    requires Inv(o, s) && forall f | f in fs :: f in s.files
    ensures var t := CancelEach(o, s, fs);
      && t.armed >= s.armed
      && (AllOver(s) ==> AllOver(t) && t.armed == s.armed)
      && (!AllOver(s) && AllOver(t) ==> t.armed > s.armed)
  {
    if fs != [] {
      var n := |fs| - 1;
      var m, t := CancelEach(o, s, fs[..n]), CancelEach(o, s, fs);
      DisableReports(o, s, fs[..n]);
      CancelEachKeeps(o, s, fs[..n]);
      CancelKeeps(o, m, fs[n]);
      CancelDone(o, m, fs[n]);
      if AllOver(m) {
        forall f | f in t.files ensures Terminal(t.Of(f).status) {
          assert f in m.info && Ahead(m.info[f], t.info[f]);
        }
      }
    }
  }

  /** disable() arms queuecomplete if and only if it ends at least one file. */
  lemma DisableReportsExactly<F>(o: Options, s: State<F>)
    requires Inv(o, s)
    ensures Disable(o, s).armed > s.armed <==> exists f | f in s.files :: !Terminal(s.Of(f).status)
  {
    DisableReports(o, s, s.files);
    DisableEndsEverything(o, s);
  }

  lemma RemoveDone<F>(o: Options, s: State<F>, f: F)
    requires Inv(o, s) && o.autoProcessQueue
    ensures var t := Remove(o, s, f);
      && t.armed >= s.armed
      && (s.Having(Uploading) == {} ==> t.Having(Uploading) == {} && t.armed == s.armed)
      && (s.Having(Uploading) != {} && t.Having(Uploading) == {} ==> t.armed > s.armed)
  {
    var t := Remove(o, s, f);
    if s.Of(f).status == Uploading {
      var m := Cancel(o, s, f);
      UploadingFile(o, s, f);
      RemoveArmed(o, s, f);
      assert f in s.Having(Uploading);
      assert RequestOk(s, s.Of(f).xhr.value);
      WithdrawKeeps(o, s, f);
      Refilled(o, Withdraw(s, f));
      CancelKeeps(o, s, f);
      SafeDrop(o, m, f);
      if t.Having(Uploading) == {} {
        NothingLeft(t);
      }
    } else {
      SafeDrop(o, s, f);
    }
  }

  lemma NothingLeft<F>(s: State<F>)
    requires s.Having(Uploading) == {} && s.Having(Queued) == {}
    ensures s.Idle()
  {
    forall f | f in s.files ensures !Active(s.Of(f).status) {
      assert f !in s.Having(Uploading) && f !in s.Having(Queued);
    }
  }

  lemma {:induction false} RemoveAllReports<F>(o: Options, s: State<F>, fs: seq<F>)
    requires Inv(o, s) && o.autoProcessQueue
    ensures var t := RemoveEach(o, s, fs, true);
      && t.armed >= s.armed
      && (s.Having(Uploading) == {} ==> t.Having(Uploading) == {} && t.armed == s.armed)
      && (s.Having(Uploading) != {} && t.Having(Uploading) == {} ==> t.armed > s.armed)
  {
    if fs != [] {
      RemoveAllReports(o, s, fs[..|fs| - 1]);
      RemoveEachKeeps(o, s, fs[..|fs| - 1], true);
      RemoveDone(o, RemoveEach(o, s, fs[..|fs| - 1], true), fs[|fs| - 1]);
    }
  }

  /** With autoProcessQueue, removeAllFiles(true) arms queuecomplete if and only if something was uploading. */
  lemma RemoveAllReportsExactly<F>(o: Options, s: State<F>)
    requires Inv(o, s) && o.autoProcessQueue
    ensures RemoveAll(o, s, true).armed > s.armed <==> s.Having(Uploading) != {}
  {
    RemoveAllReports(o, s, s.files);
    RemoveAllAborts(o, s);
    assert RemoveAll(o, s, true).Having(Uploading) == {};
  }

  // ----- removeAllFiles(true) without autoProcessQueue -----

  /** File i is uploading, and no file before it shares its request: removing it aborts that request. */
  ghost predicate Aborts<F>(s: State<F>, i: nat)
    requires i < |s.files|
  {
    s.Of(s.files[i]).status == Uploading && !Mated(s, i, i)
  }

  /** A file before position n shares the request of file j. */
  ghost predicate Mated<F>(s: State<F>, j: nat, n: nat)
    requires j < |s.files|
  {
    exists k | 0 <= k < n && k < |s.files| :: s.Of(s.files[k]).xhr == s.Of(s.files[j]).xhr
  }

  /** Behind file i nothing is queued, and nothing uploads whose request the files up to i do not take along. */
  ghost predicate LastWork<F>(s: State<F>, i: nat) {
    forall j: nat | i < j < |s.files| ::
      s.Of(s.files[j]).status != Queued && (s.Of(s.files[j]).status == Uploading ==> Mated(s, j, i + 1))
  }

  /** What is left after the first n files were removed with cancellation. */
  ghost predicate Remains<F>(s: State<F>, t: State<F>, n: nat) {
    && n <= |s.files| && t.files == s.files[n..]
    && forall j: nat | n <= j < |s.files| ::
         t.Of(s.files[j]) == if s.Of(s.files[j]).status == Uploading && Mated(s, j, n)
                             then s.Of(s.files[j]).(status := Canceled) else s.Of(s.files[j])
  }

  ghost predicate Reported<F>(s: State<F>, n: nat) {
    exists i: nat | i < n && i < |s.files| :: Aborts(s, i) && LastWork(s, i)
  }

  lemma RemovedOne<F>(o: Options, s: State<F>, t: State<F>, n: nat)
    requires !o.autoProcessQueue && Inv(o, s) && Inv(o, t) && Remains(s, t, n) && n < |s.files|
    ensures Remains(s, Remove(o, t, s.files[n]), n + 1)
  {
    var f, u := s.files[n], Remove(o, t, s.files[n]);
    assert t.files[0] == f && t.files[1..] == s.files[n + 1..];
    RemoveHead(o, t, f);
    forall j: nat | n + 1 <= j < |s.files|
      ensures u.Of(s.files[j]) == if s.Of(s.files[j]).status == Uploading && Mated(s, j, n + 1)
                                  then s.Of(s.files[j]).(status := Canceled) else s.Of(s.files[j])
    {
      assert s.files[j] == t.files[j - n];
      RemovedMate(o, s, t, n, j);
    }
  }

  lemma RemovedMate<F>(o: Options, s: State<F>, t: State<F>, n: nat, j: nat)
    requires !o.autoProcessQueue && Inv(o, s) && Inv(o, t) && Remains(s, t, n) && n < j < |s.files|
    requires s.files[j] in t.files
    ensures Remove(o, t, s.files[n]).Of(s.files[j]) ==
      if s.Of(s.files[j]).status == Uploading && Mated(s, j, n + 1)
      then s.Of(s.files[j]).(status := Canceled) else s.Of(s.files[j])
  {
    hide Wf, Inv, FilesWithXhr, Mark, Mated, Remove;
    var f, g := s.files[n], s.files[j];
    InvFile(o, s, f);
    InvFile(o, t, f);
    InvFile(o, t, g);
    MatedOneMore(s, j, n);
    if t.Of(f).status == Uploading {
      RemovedFromGroup(o, t, f, g);
    } else {
      RemovedIdly(o, t, f);
      if s.Of(g).status == Uploading && s.Of(f).xhr == s.Of(g).xhr {
        MatesShare(o, s, f, g) by {
          InvFile(o, s, g);
        }
        MatedAlike(s, n, j);
      }
    }
  }

  lemma InvFile<F>(o: Options, s: State<F>, f: F)
    requires Inv(o, s) && f in s.files
    ensures Wf(o, s) && f in s.info && FileOk(o, s, f)
  {
  }

  lemma MatedOneMore<F>(s: State<F>, j: nat, n: nat)
    requires j < |s.files| && n < |s.files|
    ensures Mated(s, j, n + 1) <==> Mated(s, j, n) || s.Of(s.files[n]).xhr == s.Of(s.files[j]).xhr
  {
  }

  lemma MatedAlike<F>(s: State<F>, i: nat, j: nat)
    requires i < |s.files| && j < |s.files| && s.Of(s.files[i]).xhr == s.Of(s.files[j]).xhr
    ensures Mated(s, i, i) <==> Mated(s, j, i)
  {
  }

  /** Removing an uploading file cancels those of its request, and by hand nothing else happens. */
  lemma RemovedFromGroup<F>(o: Options, t: State<F>, f: F, g: F)
    requires !o.autoProcessQueue && f in t.info && g in t.info && g in t.files
    requires t.Of(f).status == Uploading && t.Of(f).xhr.Some?
    ensures Remove(o, t, f).Of(g) == if t.Of(g).xhr == t.Of(f).xhr then t.Of(g).(status := Canceled) else t.Of(g)
  {
    var x := t.Of(f).xhr.value;
    assert HasXhr(t, x)(g) <==> t.Of(g).xhr == t.Of(f).xhr;
    assert g in FilesWithXhr(t, x) <==> t.Of(g).xhr == t.Of(f).xhr;
  }

  lemma RemovedIdly<F>(o: Options, t: State<F>, f: F)
    requires t.Of(f).status != Uploading
    ensures Remove(o, t, f).info == t.info
  {
  }

  lemma MatesShare<F>(o: Options, s: State<F>, f: F, g: F)
    requires Wf(o, s) && f in s.info && g in s.info && s.Of(g).status == Uploading && s.Of(f).xhr == s.Of(g).xhr
    ensures s.Of(f).status == Uploading
  {
    assert FileOk(o, s, f) && FileOk(o, s, g);
    assert RequestOk(s, s.Of(g).xhr.value);
  }

  lemma IdleAfter<F>(s: State<F>, t: State<F>, n: nat)
    requires n < |s.files| && Remains(s, t, n + 1)
    ensures t.Idle() <==> LastWork(s, n)
  {
    forall j: nat | n < j < |s.files| ensures s.files[j] in t.files {
      assert s.files[j] == t.files[j - n - 1];
    }
    if LastWork(s, n) {
      forall f | f in t.files ensures !Active(t.Of(f).status) {
        var j: nat :| n < j < |s.files| && s.files[j] == f;
      }
    } else {
      var j: nat :| n < j < |s.files|
        && !(s.Of(s.files[j]).status != Queued && (s.Of(s.files[j]).status == Uploading ==> Mated(s, j, n + 1)));
      assert Active(t.Of(s.files[j]).status);
    }
  }

  lemma {:induction false} ManualPrefix<F>(o: Options, s: State<F>, n: nat)
    requires !o.autoProcessQueue && Inv(o, s) && n <= |s.files|
    ensures var t := RemoveEach(o, s, s.files[..n], true);
      Inv(o, t) && Remains(s, t, n) && t.armed >= s.armed && (t.armed > s.armed <==> Reported(s, n))
  {
    hide Inv, Remove, Reported, Aborts, LastWork;
    if n == 0 {
      assert s.files[..0] == [];
      NothingReported(s);
      NothingRemoved(s);
    } else {
      var fs := s.files[..n - 1];
      ManualPrefix(o, s, n - 1);
      assert s.files[..n][..n - 1] == fs && s.files[..n][n - 1] == s.files[n - 1];
      ManualStep(o, s, RemoveEach(o, s, fs, true), n - 1);
      ReportedOneMore(s, n - 1);
    }
  }

  lemma NothingReported<F>(s: State<F>)
    ensures !Reported(s, 0)
  {
  }

  lemma NothingRemoved<F>(s: State<F>)
    ensures Remains(s, s, 0)
  {
  }

  lemma ReportedOneMore<F>(s: State<F>, n: nat)
    requires n < |s.files|
    ensures Reported(s, n + 1) <==> Reported(s, n) || (Aborts(s, n) && LastWork(s, n))
  {
    hide Aborts, LastWork;
  }

  /** One more removal reports exactly if it aborts a request and no work is listed behind it. */
  lemma ManualStep<F>(o: Options, s: State<F>, m: State<F>, n: nat)
    requires !o.autoProcessQueue && Inv(o, s) && Inv(o, m) && n < |s.files| && Remains(s, m, n)
    ensures var t := Remove(o, m, s.files[n]);
      && Inv(o, t) && Remains(s, t, n + 1)
      && t.armed >= m.armed && (t.armed > m.armed <==> Aborts(s, n) && LastWork(s, n))
  {
    hide Inv, Remove, Remains, Aborts, LastWork, Withdrawn;
    RemovedOne(o, s, m, n);
    RemoveKeeps(o, m, s.files[n]);
    RemoveArmed(o, m, s.files[n]);
    IdleAfter(s, Remove(o, m, s.files[n]), n);
    AbortsNow(o, s, m, n);
  }

  lemma AbortsNow<F>(o: Options, s: State<F>, t: State<F>, n: nat)
    requires Inv(o, t) && n < |s.files| && Remains(s, t, n)
    ensures t.Of(s.files[n]).status == Uploading <==> Aborts(s, n)
    ensures Aborts(s, n) ==> Withdrawn(t, s.files[n]) > 0
  {
    WithdrawnPositive(o, t, s.files[n]);
  }

  /**
   * Without autoProcessQueue the report can be lost: removeAllFiles(true) drops queued files without a word, so it arms
   * queuecomplete if and only if some file whose removal aborts a request has no further work listed behind it.
   */
  lemma ManualRemoveAllReports<F>(o: Options, s: State<F>)
    requires !o.autoProcessQueue && Inv(o, s)
    ensures RemoveAll(o, s, true).armed > s.armed
        <==> exists i: nat | i < |s.files| :: Aborts(s, i) && LastWork(s, i)
  {
    ManualPrefix(o, s, |s.files|);
    assert s.files[..|s.files|] == s.files;
  }

  /** The smallest lost report: an upload listed before a queued file. */
  lemma ManualRemoveAllIsSilent<F>(o: Options, s: State<F>)
    requires Inv(o, s) && !o.autoProcessQueue
    requires |s.files| == 2 && s.Of(s.files[0]).status == Uploading && s.Of(s.files[1]).status == Queued
    ensures RemoveAll(o, s, true).armed == s.armed && RemoveAll(o, s, true).files == []
  {
    RemoveAllAborts(o, s);
    ManualPrefix(o, s, 2);
    assert s.files[..2] == s.files;
    assert !LastWork(s, 0) && !Aborts(s, 1);
  }
}
