/** Every event keeps the invariant and only moves files and requests forward. */
module UploadSteps {
  import opened Collections
  import opened FileTypes
  import opened Uploads
  import opened UploadInvariants

  // ----- one-way lifecycle -----

  function Rank(status: Status): nat {
    match status
    case Undefined => 0
    case Added => 1
    case Queued => 2
    case Uploading => 3
    case _ => 4
  }

  /** Later than: statuses only climb, an end is final, a request once given is kept. */
  predicate Ahead(a: Info, b: Info) {
    && b.desc == a.desc && b.accepted == a.accepted
    && Rank(a.status) <= Rank(b.status) && (Terminal(a.status) ==> b.status == a.status)
    && (a.xhr.Some? ==> b.xhr == a.xhr)
  }

  ghost predicate Forward<F>(s: State<F>, t: State<F>) {
    && (forall f | f in s.info :: f in t.info && Ahead(s.info[f], t.info[f]))
    && |s.requests| <= |t.requests|
    && (forall x | 0 <= x < |s.requests| ::
          && t.requests[x].files == s.requests[x].files
          && (s.requests[x].phase != Live ==> t.requests[x].phase == s.requests[x].phase))
  }

  lemma ForwardTwice<F>(s: State<F>, t: State<F>, u: State<F>)
    requires Forward(s, t) && Forward(t, u)
    ensures Forward(s, u)
  {
    forall f | f in s.info ensures f in u.info && Ahead(s.info[f], u.info[f]) {
      assert f in t.info && Ahead(t.info[f], u.info[f]);
    }
  }

  lemma SentForward<F>(s: State<F>, t: State<F>, g: seq<F>)
    requires Sent(s, t, g) && (forall f | f in s.info :: s.info[f].status == Queued ==> s.info[f].xhr == None)
    ensures Forward(s, t)
  {
    forall x | 0 <= x < |s.requests| ensures t.requests[x] == s.requests[x] {
      assert t.requests[x] == t.requests[..|s.requests|][x];
    }
  }

  // ----- the refill that ends most steps -----

  lemma SafeCounters<F>(o: Options, s: State<F>, t: State<F>)
    requires Safe(o, s) && t == s.(armed := t.armed, timers := t.timers)
    ensures Safe(o, t)
    ensures t.Having(Uploading) == s.Having(Uploading) && t.Having(Queued) == s.Having(Queued)
    ensures t.Idle() <==> s.Idle()
  {
    assert Wf(o, t) by {
      forall f | f in t.info ensures FileOk(o, t, f) {
        assert FileOk(o, s, f);
      }
      forall x | 0 <= x < |t.requests| ensures RequestOk(t, x) {
        assert RequestOk(s, x);
      }
    }
    assert forall f :: t.Of(f) == s.Of(f);
    assert t.Having(Uploading) == s.Having(Uploading) && t.Having(Queued) == s.Having(Queued);
    assert t.Approved() == s.Approved();
  }

  lemma QueuedUnsent<F>(o: Options, s: State<F>)
    requires Wf(o, s)
    ensures forall f | f in s.info :: s.info[f].status == Queued ==> s.info[f].xhr == None
  {
    assert forall f | f in s.info :: FileOk(o, s, f);
  }

  lemma RefillKeeps<F>(o: Options, s: State<F>)
    requires Safe(o, s)
    ensures Inv(o, Refill(o, s)) && Forward(s, Refill(o, s))
    ensures Refill(o, s).files == s.files
  {
    Refilled(o, s);
    QueuedUnsent(o, s);
    SentForward(s, Refill(o, s), Taken(o, s));
  }

  lemma ProcessKeeps<F>(o: Options, s: State<F>)
    requires Safe(o, s)
    ensures Inv(o, ProcessQueue(o, s)) && Forward(s, ProcessQueue(o, s))
  {
    Processed(o, s);
    QueuedUnsent(o, s);
    SentForward(s, ProcessQueue(o, s), Next(o, s));
  }

  lemma ReportAndRefillKeeps<F>(o: Options, s: State<F>, n: nat)
    requires Safe(o, s)
    ensures Inv(o, Refill(o, Complete(s, n))) && Forward(s, Refill(o, Complete(s, n)))
    ensures Refill(o, Complete(s, n)).files == s.files
  {
    SafeCounters(o, s, Complete(s, n));
    RefillKeeps(o, Complete(s, n));
    ForwardTwice(s, Complete(s, n), Refill(o, Complete(s, n)));
  }

  // ----- the settling loops -----

  lemma MarkTwice<F>(s: State<F>, a: set<F>, b: set<F>, status: Status)
    ensures Mark(Mark(s, a, status), b, status) == Mark(s, a + b, status)
    ensures Mark(s, {}, status) == s
  {
    assert Mark(Mark(s, a, status), b, status).info == Mark(s, a + b, status).info;
    assert Mark(s, {}, status).info == s.info;
  }

  lemma {:induction false} CompletePrefix<F>(s: State<F>, g: seq<F>, last: F, status: Status)
    requires Distinct(g) && Terminal(status) && last !in g
    requires last in s.files && last in s.info && Active(s.info[last].status)
    ensures CompleteEach(s, g, status) == Mark(s, Elems(g), status)
  {
    if g == [] {
      MarkTwice(s, {}, {}, status);
      assert Elems(g) == {};
    } else {
      var n := |g| - 1;
      CompletePrefix(s, g[..n], last, status);
      MarkTwice(s, Elems(g[..n]), {g[n]}, status);
      assert Elems(g) == Elems(g[..n]) + {g[n]};
      var t := Mark(s, Elems(g), status);
      assert t.Of(last) == s.Of(last) && last in t.files;
      assert !t.Idle();
    }
  }

  /**
   * Although the completion of every single file is reported, only the report for the last file of a group
   * can find the queue finished: until then the rest of the group still counts as uploading.
   */
  lemma CompleteEachIsOneReport<F>(s: State<F>, g: seq<F>, status: Status)
    requires g != [] && Distinct(g) && Terminal(status)
    requires forall f | f in g :: f in s.files && f in s.info && Active(s.info[f].status)
    ensures CompleteEach(s, g, status) == Complete(Mark(s, Elems(g), status), 1)
  {
    var n := |g| - 1;
    var rest, last := g[..n], g[n];
    assert g == rest + [last];
    assert last in g && last !in rest;
    CompletePrefix(s, rest, last, status);
    MarkTwice(s, Elems(rest), {last}, status);
    assert Elems(g) == Elems(rest) + {last};
  }

  lemma {:induction false} CompleteEachAgain<F>(s: State<F>, g: seq<F>, status: Status)
    requires forall f | f in g :: f in s.info && s.info[f].status == status
    ensures CompleteEach(s, g, status) == Complete(s, |g|)
  {
    if g != [] {
      var n := |g| - 1;
      CompleteEachAgain(s, g[..n], status);
      var t := Complete(s, n);
      assert Mark(t, {g[n]}, status).info == t.info;
      assert Mark(t, {g[n]}, status) == t;
      assert t.Idle() <==> s.Idle() by {
        assert forall f :: t.Of(f) == s.Of(f);
      }
    }
  }

  // ----- load and error -----

  lemma SettleForward<F>(o: Options, s: State<F>, x: nat, status: Status, phase: Phase)
    requires Safe(o, s) && x < |s.requests| && s.requests[x].phase == Live
    requires phase != Live && Agrees(status, phase)
    ensures Safe(o, Settle(s, x, status, phase)) && Forward(s, Settle(s, x, status, phase))
    ensures Settle(s, x, status, phase).files == s.files
  {
    hide Safe;
    SafeSettle(o, s, x, status, phase);
    MilderAhead(s, Settle(s, x, status, phase));
  }

  lemma MilderAhead<F>(s: State<F>, t: State<F>)
    requires Milder(s, t)
    ensures forall f | f in s.info :: f in t.info && Ahead(s.info[f], t.info[f])
  {
  }

  lemma SettleLoop<F>(o: Options, s: State<F>, x: nat, status: Status)
    requires Wf(o, s) && x < |s.requests| && s.requests[x].phase == Live && Terminal(status)
    ensures CompleteEach(Close(s, x, Settled), s.requests[x].files, status)
         == Complete(Settle(s, x, status, Settled), 1)
  {
    var g, b := s.requests[x].files, Close(s, x, Settled);
    assert RequestOk(s, x);
    LiveGroup(o, s, x);
    CompleteEachIsOneReport(b, g, status);
    assert Mark(b, Elems(g), status) == Settle(s, x, status, Settled);
  }

  lemma FinishedClosed<F>(o: Options, s: State<F>, x: nat)
    requires Wf(o, s) && x < |s.requests| && s.requests[x].phase == Live
    ensures Finished(o, Close(s, x, Settled), s.requests[x].files)
         == Refill(o, Complete(Settle(s, x, Success, Settled), 1))
  {
    SettleLoop(o, s, x, Success);
  }

  /**
   * How often the failure of a group of k files reports a finished queue: once in the first round, k times in each
   * later one.
   */
  function Reports(rounds: nat, k: nat): nat { if rounds == 0 then 0 else 1 + (rounds - 1) * k }

  lemma CompleteMore<F>(o: Options, m: State<F>, n: nat, k: nat)
    requires Safe(o, m)
    ensures Refill(o, Complete(Refill(o, Complete(m, n)), k)) == Refill(o, Complete(m, n + k))
  {
    hide Sent, FileOk, RequestOk, Slots, InOrder, Admission;
    var u := Complete(m, n);
    var t := Refill(o, u);
    SafeCounters(o, m, u);
    Refilled(o, u);
    RefilledSets(o, u);
    if m.Idle() {
      IdleRefill(o, u);
      assert Complete(t, k) == Complete(m, n + k);
    } else {
      assert Complete(t, k) == t && u == m == Complete(m, n + k);
      ProcessQueueTwice(o, u);
    }
  }

  lemma IdleRefill<F>(o: Options, s: State<F>)
    requires Wf(o, s) && s.Idle()
    ensures ProcessQueue(o, s) == s && Refill(o, s) == s
  {
    NextIsOldest(o, s);
    assert s.Having(Queued) == {};
  }

  lemma OneMoreReport(rounds: nat, k: nat)
    requires rounds > 1
    ensures Reports(rounds - 1, k) + k == Reports(rounds, k)
  {
    assert (rounds - 2) * k + k == (rounds - 1) * k;
  }

  /** After a round the whole group is in error, so settling it again only reports once more per file. */
  lemma SettleAgain<F>(o: Options, s: State<F>, x: nat, n: nat)
    requires Safe(o, s) && x < |s.requests| && s.requests[x].phase == Live
    ensures var g, t := s.requests[x].files, Refill(o, Complete(Settle(s, x, Error, Settled), n));
      ErrorProcessing(o, t, g) == Refill(o, Complete(t, |g|))
  {
    var m := Settle(s, x, Error, Settled);
    SettleForward(o, s, x, Error, Settled);
    ReportAndRefillKeeps(o, m, n);
    ErrorsStay(o, s, x, Refill(o, Complete(m, n)));
    CompleteEachAgain(Refill(o, Complete(m, n)), s.requests[x].files, Error);
  }

  lemma SettledMore<F>(o: Options, s: State<F>, x: nat, n: nat, k: nat)
    requires Safe(o, s) && x < |s.requests| && s.requests[x].phase == Live
    ensures var m := Settle(s, x, Error, Settled);
      Refill(o, Complete(Refill(o, Complete(m, n)), k)) == Refill(o, Complete(m, n + k))
  {
    SettleForward(o, s, x, Error, Settled);
    CompleteMore(o, Settle(s, x, Error, Settled), n, k);
  }

  /**
   * handleError calls _errorProcessing once per file, each time on the whole group; every call after the first
   * changes neither a status nor a request, it only repeats the reports.
   */
  lemma {:induction false} HandleErrorClosed<F>(o: Options, s: State<F>, x: nat, rounds: nat)
    requires Safe(o, s) && x < |s.requests| && s.requests[x].phase == Live && rounds > 0
    ensures HandleError(o, Close(s, x, Settled), s.requests[x].files, rounds)
         == Refill(o, Complete(Settle(s, x, Error, Settled), Reports(rounds, |s.requests[x].files|)))
  {
    hide Refill, ErrorProcessing, Safe, Settle, Complete, Reports, Close;
    var g, b, m := s.requests[x].files, Close(s, x, Settled), Settle(s, x, Error, Settled);
    if rounds == 1 {
      FirstRound(o, s, x);
      assert HandleError(o, b, g, 0) == b;
    } else {
      HandleErrorClosed(o, s, x, rounds - 1);
      SettleAgain(o, s, x, Reports(rounds - 1, |g|));
      SettledMore(o, s, x, Reports(rounds - 1, |g|), |g|);
      OneMoreReport(rounds, |g|);
    }
  }

  lemma FirstRound<F>(o: Options, s: State<F>, x: nat)
    requires Safe(o, s) && x < |s.requests| && s.requests[x].phase == Live
    ensures ErrorProcessing(o, Close(s, x, Settled), s.requests[x].files)
         == Refill(o, Complete(Settle(s, x, Error, Settled), Reports(1, |s.requests[x].files|)))
  {
    SettleLoop(o, s, x, Error);
  }

  lemma ErrorsStay<F>(o: Options, s: State<F>, x: nat, t: State<F>)
    requires Wf(o, s) && x < |s.requests|
    requires Forward(Settle(s, x, Error, Settled), t)
    ensures forall f | f in s.requests[x].files :: f in t.info && t.info[f].status == Error
  {
    var m := Settle(s, x, Error, Settled);
    assert RequestOk(s, x);
    forall f | f in s.requests[x].files ensures f in t.info && t.info[f].status == Error {
      assert f in m.info && m.info[f].status == Error;
      assert Ahead(m.info[f], t.info[f]);
    }
  }

  lemma BreakClosed<F>(o: Options, s: State<F>, x: nat)
    requires Safe(o, s) && x < |s.requests| && s.requests[x].phase == Live
    ensures var k := |s.requests[x].files|;
      Break(o, s, x) == Refill(o, Complete(Settle(s, x, Error, Settled), Reports(k, k)))
  {
    assert RequestOk(s, x);
    HandleErrorClosed(o, s, x, |s.requests[x].files|);
  }

  /**
   * The handlers' test of the first file tells exactly whether the request was aborted, and it speaks for the whole
   * group.
   */
  lemma GuardIsSound<F>(o: Options, s: State<F>, x: nat)
    requires Wf(o, s) && x < |s.requests|
    ensures Dropped(s, x) <==> s.requests[x].phase == Aborted
    ensures forall f | f in s.requests[x].files :: (s.Of(f).status == Canceled <==> Dropped(s, x))
  {
    var g := s.requests[x].files;
    assert RequestOk(s, x);
    assert g[0] in g && FileOk(o, s, g[0]);
  }

  lemma SettledKeeps<F>(o: Options, s: State<F>, x: nat, status: Status, n: nat)
    requires Safe(o, s) && x < |s.requests| && s.requests[x].phase == Live && Agrees(status, Settled)
    ensures var t := Refill(o, Complete(Settle(s, x, status, Settled), n));
      Inv(o, t) && Forward(s, t) && t.files == s.files
  {
    var m := Settle(s, x, status, Settled);
    SettleForward(o, s, x, status, Settled);
    ReportAndRefillKeeps(o, m, n);
    ForwardTwice(s, m, Refill(o, Complete(m, n)));
  }

  lemma FailKeeps<F>(o: Options, s: State<F>, x: nat)
    requires Inv(o, s) && x < |s.requests| && s.requests[x].phase != Settled
    ensures Inv(o, Fail(o, s, x)) && Forward(s, Fail(o, s, x))
  {
    GuardIsSound(o, s, x);
    if s.requests[x].phase == Live {
      var k := |s.requests[x].files|;
      BreakClosed(o, s, x);
      SettledKeeps(o, s, x, Error, Reports(k, k));
    }
  }

  lemma SendAllKeeps<F>(o: Options, s: State<F>, g: set<F>)
    requires Inv(o, s)
    ensures Inv(o, SendAll(s, g)) && Forward(s, SendAll(s, g)) && SameButBytes(s, SendAll(s, g))
  {
    SafeBytes(o, s, SendAll(s, g));
  }

  lemma LoadKeeps<F>(o: Options, s: State<F>, x: nat, ready: bool, ok: bool)
    requires Inv(o, s) && x < |s.requests| && s.requests[x].phase != Settled
    ensures Inv(o, Load(o, s, x, ready, ok)) && Forward(s, Load(o, s, x, ready, ok))
  {
    GuardIsSound(o, s, x);
    if s.requests[x].phase == Live && ready {
      var t := SendAll(s, Elems(s.requests[x].files));
      var k := |s.requests[x].files|;
      SendAllKeeps(o, s, Elems(s.requests[x].files));
      if ok {
        FinishedClosed(o, t, x);
        SettledKeeps(o, t, x, Success, 1);
      } else {
        BreakClosed(o, t, x);
        SettledKeeps(o, t, x, Error, Reports(k, k));
      }
      ForwardTwice(s, t, Load(o, s, x, ready, ok));
    }
  }

  lemma ProgressKeeps<F>(o: Options, s: State<F>, x: nat, loaded: nat, total: nat)
    requires Inv(o, s) && x < |s.requests|
    ensures Inv(o, Progress(s, x, loaded, total)) && Forward(s, Progress(s, x, loaded, total))
  {
    SafeBytes(o, s, Progress(s, x, loaded, total));
  }

  // ----- cancelling -----

  lemma WithdrawKeeps<F>(o: Options, s: State<F>, f: F)
    requires Safe(o, s)
    ensures Safe(o, Withdraw(s, f)) && Forward(s, Withdraw(s, f)) && Withdraw(s, f).files == s.files
    ensures s.Of(f).status != Undefined ==> Terminal(Withdraw(s, f).Of(f).status)
  {
    if f in s.info {
      assert FileOk(o, s, f);
      if s.info[f].status == Uploading {
        WithdrawGroup(o, s, f);
      } else if s.info[f].status == Added || s.info[f].status == Queued {
        WithdrawSingle(o, s, f);
      }
    }
  }

  lemma WithdrawSingle<F>(o: Options, s: State<F>, f: F)
    requires Safe(o, s) && f in s.info && (s.info[f].status == Added || s.info[f].status == Queued)
    ensures Safe(o, Withdraw(s, f)) && Forward(s, Withdraw(s, f)) && Withdraw(s, f).files == s.files
    ensures Withdraw(s, f).Of(f).status == Canceled
  {
    hide Safe;
    var m := Mark(s, {f}, Canceled);
    SafeWithdrawOne(o, s, f);
    SafeCounters(o, m, Withdraw(s, f));
    MilderAhead(s, m);
  }

  lemma WithdrawGroup<F>(o: Options, s: State<F>, f: F)
    requires Safe(o, s) && s.Of(f).status == Uploading
    ensures Safe(o, Withdraw(s, f)) && Forward(s, Withdraw(s, f)) && Withdraw(s, f).files == s.files
    ensures Withdraw(s, f).Of(f).status == Canceled
  {
    assert FileOk(o, s, f);
    var x := s.Of(f).xhr.value;
    LiveGroup(o, s, x);
    var m := Settle(s, x, Canceled, Aborted);
    assert Withdraw(s, f) == Complete(m, |FilesWithXhr(s, x)|);
    SettleForward(o, s, x, Canceled, Aborted);
    SafeCounters(o, m, Withdraw(s, f));
  }

  lemma CancelKeeps<F>(o: Options, s: State<F>, f: F)
    requires Safe(o, s) && (Inv(o, s) || o.autoProcessQueue)
    ensures Inv(o, Cancel(o, s, f)) && Forward(s, Cancel(o, s, f)) && Cancel(o, s, f).files == s.files
    ensures s.Of(f).status != Undefined ==> Terminal(Cancel(o, s, f).Of(f).status)
  {
    var m := Withdraw(s, f);
    WithdrawKeeps(o, s, f);
    RefillKeeps(o, m);
    ForwardTwice(s, m, Cancel(o, s, f));
    if f in s.info {
      assert f in m.info && Ahead(m.info[f], Cancel(o, s, f).info[f]);
    }
  }

  lemma {:induction false} CancelEachKeeps<F>(o: Options, s: State<F>, fs: seq<F>)
    requires Inv(o, s)
    ensures var t := CancelEach(o, s, fs); Inv(o, t) && Forward(s, t) && t.files == s.files
  {
    if fs != [] {
      var m, f := CancelEach(o, s, fs[..|fs| - 1]), fs[|fs| - 1];
      CancelEachKeeps(o, s, fs[..|fs| - 1]);
      CancelKeeps(o, m, f);
      ForwardTwice(s, m, CancelEach(o, s, fs));
    }
  }

  // ----- removing -----

  lemma DropKeeps<F>(o: Options, s: State<F>, f: F)
    requires Inv(o, s) && s.Of(f).status != Uploading
    ensures Inv(o, Drop(s, f)) && Forward(s, Drop(s, f))
  {
    SafeDrop(o, s, f);
  }

  lemma RemoveKeeps<F>(o: Options, s: State<F>, f: F)
    requires Inv(o, s)
    ensures Inv(o, Remove(o, s, f)) && Forward(s, Remove(o, s, f))
    ensures Remove(o, s, f).files == Without(s.files, f)
  {
    if s.Of(f).status == Uploading {
      var m := Cancel(o, s, f);
      CancelKeeps(o, s, f);
      DropKeeps(o, m, f);
      ForwardTwice(s, m, Drop(m, f));
    } else {
      DropKeeps(o, s, f);
    }
  }

  lemma {:induction false} RemoveEachKeeps<F>(o: Options, s: State<F>, fs: seq<F>, c: bool)
    requires Inv(o, s)
    ensures Inv(o, RemoveEach(o, s, fs, c)) && Forward(s, RemoveEach(o, s, fs, c))
  {
    if fs != [] {
      var m, f := RemoveEach(o, s, fs[..|fs| - 1], c), fs[|fs| - 1];
      RemoveEachKeeps(o, s, fs[..|fs| - 1], c);
      RemoveKeeps(o, m, f);
      ForwardTwice(s, m, Remove(o, m, f));
    }
  }

  // ----- adding -----

  lemma PushKeeps<F>(o: Options, s: State<F>, f: F, i: Info)
    requires Safe(o, s) && f !in s.info && i.xhr == None && i.status != Uploading
    requires FileOk(o, Push(s, f, i), f) && (o.autoQueue ==> i.status != Added)
    requires i.accepted == Some(true) && o.maxFiles.Some? ==> |s.Approved()| < o.maxFiles.value
    ensures Safe(o, Push(s, f, i)) && Forward(s, Push(s, f, i))
  {
    hide FileOk, RequestOk, InOrder, Push;
    WfPush(o, s, f, i);
    PushSets(o, s, f, i);
    OrderPush(o, s, f, i);
    PushForward(s, f, i);
  }

  lemma PushForward<F>(s: State<F>, f: F, i: Info)
    requires f !in s.info
    ensures Forward(s, Push(s, f, i))
  {
  }

  lemma OrderPush<F>(o: Options, s: State<F>, f: F, i: Info)
    requires InOrder(o, s) && f !in s.info && i.xhr == None && (o.autoQueue ==> i.status != Added)
    requires forall g | g in s.files :: g in s.info
    ensures InOrder(o, Push(s, f, i))
  {
    var t := Push(s, f, i);
    assert forall g | g in s.files :: t.Of(g) == s.Of(g);
  }

  lemma FullMeansFull<F>(o: Options, s: State<F>, f: F, i: Info)
    requires Wf(o, s) && f !in s.info && i.accepted == None && i.status != Uploading
    ensures Full(o, Push(s, f, i)) <==> o.maxFiles.Some? && |s.Approved()| >= o.maxFiles.value
  {
    CountAccepted(o, Push(s, f, i));
    PushSets(o, s, f, i);
  }

  lemma RejectedClosed<F>(o: Options, s: State<F>, f: F, i: Info)
    ensures ErrorProcessing(o, Push(s, f, i), [f])
         == Refill(o, Complete(Push(s, f, i.(status := Error)), 1))
  {
    var p := Push(s, f, i);
    assert [f][..0] == [] && CompleteEach(p, [], Error) == p;
    assert Mark(p, {f}, Error).info == Push(s, f, i.(status := Error)).info;
  }

  lemma RejectedSafe<F>(o: Options, s: State<F>, f: F, i: Info)
    requires Inv(o, s) && f !in s.info && i.xhr == None && i.accepted == Some(false)
    ensures var p := Push(s, f, i.(status := Error)); Safe(o, p) && Forward(s, p)
  {
    PushKeeps(o, s, f, i.(status := Error));
  }

  lemma AddRejectedKeeps<F>(o: Options, s: State<F>, f: F, i: Info)
    requires Inv(o, s) && f !in s.info && i.xhr == None && i.accepted == Some(false)
    ensures Inv(o, ErrorProcessing(o, Push(s, f, i), [f])) && Forward(s, ErrorProcessing(o, Push(s, f, i), [f]))
  {
    hide Safe, Push, Refill, Complete, Forward;
    RejectedClosed(o, s, f, i);
    var p := Push(s, f, i.(status := Error));
    RejectedSafe(o, s, f, i);
    ReportAndRefillKeeps(o, p, 1);
    ForwardTwice(s, p, Refill(o, Complete(p, 1)));
  }

  lemma AddQueuedKeeps<F>(o: Options, s: State<F>, f: F, i: Info)
    requires Inv(o, s) && f !in s.info && i.xhr == None && i.accepted == Some(true)
    requires i.status == Added && Fits(o, i.desc)
    requires o.maxFiles.Some? ==> |s.Approved()| < o.maxFiles.value
    ensures var t := Enqueue(o, Push(s, f, i), f);
      Inv(o, t) && Forward(s, t)
  {
    var j := i.(status := Queued);
    EnqueuePush(o, s, f, i);
    PushKeeps(o, s, f, j);
    hide Safe, Push, Enqueue;
    SafeCounters(o, Push(s, f, j), Enqueue(o, Push(s, f, i), f));
  }

  /** Queueing a file just listed is listing it as queued, and starting a timer where that is automatic. */
  lemma EnqueuePush<F>(o: Options, s: State<F>, f: F, i: Info)
    requires i.accepted == Some(true) && i.status == Added
    ensures Enqueue(o, Push(s, f, i), f)
         == Push(s, f, i.(status := Queued)).(timers := s.timers + if o.autoProcessQueue then 1 else 0)
  {
    assert Enqueue(o, Push(s, f, i), f).info == Push(s, f, i.(status := Queued)).info;
  }

  lemma AddAcceptedKeeps<F>(o: Options, s: State<F>, f: F, i: Info)
    requires Inv(o, s) && f !in s.info && i.xhr == None && i.accepted == Some(true)
    requires i.status == Added && Fits(o, i.desc)
    requires o.maxFiles.Some? ==> |s.Approved()| < o.maxFiles.value
    ensures var t := if o.autoQueue then Enqueue(o, Push(s, f, i), f) else Push(s, f, i);
      Inv(o, t) && Forward(s, t)
  {
    if o.autoQueue {
      AddQueuedKeeps(o, s, f, i);
    } else {
      PushKeeps(o, s, f, i);
      PushSets(o, s, f, i);
    }
  }

  lemma AddKeeps<F>(o: Options, s: State<F>, f: F, d: Desc)
    requires Inv(o, s) && f !in s.info
    ensures Inv(o, Add(o, s, f, d)) && Forward(s, Add(o, s, f, d))
  {
    var i := Info(d, Added, None, None, d.size, 0);
    FullMeansFull(o, s, f, i);
    if !Fits(o, d) || Full(o, Push(s, f, i)) {
      AddRejectedKeeps(o, s, f, i.(accepted := Some(false)));
    } else {
      AddAcceptedKeeps(o, s, f, i.(accepted := Some(true)));
    }
  }

  lemma EnqueueSafe<F>(o: Options, s: State<F>, f: F)
    requires Safe(o, s) && f in s.info && s.info[f].status == Added
    ensures Safe(o, Enqueue(o, s, f))
  {
    WfEnqueue(o, s, f);
    EnqueueSets(o, s, f);
  }

  lemma EnqueueForward<F>(o: Options, s: State<F>, f: F)
    ensures Forward(s, Enqueue(o, s, f))
  {
  }

  lemma EnqueueKeeps<F>(o: Options, s: State<F>, f: F)
    requires Inv(o, s)
    ensures Inv(o, Enqueue(o, s, f)) && Forward(s, Enqueue(o, s, f))
  {
    if f in s.info && s.info[f].status == Added {
      EnqueueSafe(o, s, f);
      EnqueueSets(o, s, f);
      EnqueueForward(o, s, f);
    }
  }

  // ----- all of them -----

  lemma TimerKeeps<F>(o: Options, s: State<F>)
    requires Inv(o, s) && s.timers > 0
    ensures Inv(o, Fire(o, s)) && Forward(s, Fire(o, s))
  {
    var m := s.(timers := s.timers - 1);
    SafeCounters(o, s, m);
    ProcessKeeps(o, m);
    ForwardTwice(s, m, ProcessQueue(o, m));
  }

  lemma RequestStepKeeps<F>(o: Options, s: State<F>, e: Event<F>)
    requires Inv(o, s) && Possible(s, e) && (e.OnProgress? || e.OnLoad? || e.OnError?)
    ensures Inv(o, Step(o, s, e)) && Forward(s, Step(o, s, e))
  {
    match e
    case OnProgress(x, loaded, total) => ProgressKeeps(o, s, x, loaded, total);
    case OnLoad(x, ready, ok) => LoadKeeps(o, s, x, ready, ok);
    case OnError(x) => FailKeeps(o, s, x);
  }

  lemma EntryStepKeeps<F>(o: Options, s: State<F>, e: Event<F>)
    requires Inv(o, s) && Possible(s, e) && (e.AddFile? || e.EnqueueFile?)
    ensures Inv(o, Step(o, s, e)) && Forward(s, Step(o, s, e))
  {
    match e
    case AddFile(f, d) => AddKeeps(o, s, f, d);
    case EnqueueFile(f) => EnqueueKeeps(o, s, f);
  }

  lemma InvIsSafe<F>(o: Options, s: State<F>)
    requires Inv(o, s)
    ensures Safe(o, s)
  {
  }

  lemma ListStepKeeps<F>(o: Options, s: State<F>, e: Event<F>)
    requires Inv(o, s) && (e.CancelUpload? || e.RemoveFile? || e.RemoveAllFiles? || e.DisableAll?)
    ensures Inv(o, Step(o, s, e)) && Forward(s, Step(o, s, e))
  {
    hide Safe, Cancel, Remove;
    match e
    case CancelUpload(f) => CancelKeeps(o, s, f) by {
      InvIsSafe(o, s);
    }
    case RemoveFile(f) => RemoveKeeps(o, s, f);
    case RemoveAllFiles(c) => RemoveEachKeeps(o, s, s.files, c);
    case DisableAll => CancelEachKeeps(o, s, s.files);
  }

  /** Every possible event keeps the invariant and moves files and requests only forward. */
  lemma StepKeeps<F>(o: Options, s: State<F>, e: Event<F>)
    requires Inv(o, s) && Possible(s, e)
    ensures Inv(o, Step(o, s, e)) && Forward(s, Step(o, s, e))
  {
    if e.OnProgress? || e.OnLoad? || e.OnError? {
      RequestStepKeeps(o, s, e);
    } else if e.Timer? {
      TimerKeeps(o, s);
    } else if e.Process? {
      ProcessKeeps(o, s);
    } else if e.AddFile? || e.EnqueueFile? {
      EntryStepKeeps(o, s, e);
    } else {
      ListStepKeeps(o, s, e);
    }
  }
}
