/**
 * What each event does to every file and every request, said without the functions that compute it: which files end and
 * how, which queued files are sent, in which requests, and that nothing else changes.
 */
module UploadEffects {
  import opened Collections
  import opened FileTypes
  import opened Uploads
  import opened UploadInvariants
  import opened UploadSteps
  import opened UploadTheorems
  import opened QueueComplete

  // ----- the two halves of an effect -----

  /** The requests the files of g go out in: one for all of them with uploadMultiple, one for each without. */
  ghost function Groups<F>(o: Options, g: seq<F>): seq<Request<F>> {
    if !o.uploadMultiple then Singles(g) else if g == [] then [] else [Request(g, Live)]
  }

  ghost function Singles<F>(g: seq<F>): seq<Request<F>> {
    seq(|g|, k requires 0 <= k < |g| => Request([g[k]], Live))
  }

  /** How many more files may upload. */
  ghost function Free<F>(o: Options, s: State<F>): nat {
    var used := |s.Having(Uploading)|;
    if o.parallelUploads > used then o.parallelUploads - used else 0
  }

  /** The queued files, oldest first, cut off where the slots run out. */
  ghost function Oldest<F>(o: Options, s: State<F>): seq<F> {
    var queue := FilesWithStatus(s, Queued);
    if Free(o, s) < |queue| then queue[..Free(o, s)] else queue
  }

  /** t is s with the oldest queued files sent into the free slots, and nothing else. */
  ghost predicate Dispatched<F>(o: Options, s: State<F>, t: State<F>) {
    var g := Oldest(o, s);
    && t.files == s.files && t.timers == s.timers && t.armed == s.armed && t.info.Keys == s.info.Keys
    && t.requests == s.requests + Groups(o, g)
    && (forall k | 0 <= k < |g| ::
          g[k] in s.info && t.info[g[k]] == s.info[g[k]].(status := Uploading, xhr := Some(Ticket(o, s, k))))
    && (forall f | f in s.info && f !in g :: t.info[f] == s.info[f])
  }

  /** The request that takes the k-th file sent. */
  ghost function Ticket<F>(o: Options, s: State<F>, k: nat): nat { |s.requests| + if o.uploadMultiple then 0 else k }

  /** The queue is looked after where that is automatic. */
  ghost predicate Followed<F>(o: Options, s: State<F>, t: State<F>) {
    if o.autoProcessQueue then Dispatched(o, s, t) else t == s
  }

  /** s with the files of g given a final status, their bytes counted as sent if full, and request x, if any, ended. */
  ghost function Amid<F>(s: State<F>, g: set<F>, status: Status, full: bool, x: Option<nat>, phase: Phase, armed: nat)
    : State<F>
  {
    State(s.files,
          map f | f in s.info ::
            if f !in g then s.info[f]
            else s.info[f].(status := status, bytesSent := if full then s.info[f].total else s.info[f].bytesSent),
          seq(|s.requests|, y requires 0 <= y < |s.requests| =>
            if x == Some(y) then s.requests[y].(phase := phase) else s.requests[y]),
          s.timers, armed)
  }

  // ----- sending -----

  lemma {:induction false} StartEachClosed<F>(s: State<F>, g: seq<F>)
    requires Distinct(g) && forall f | f in g :: f in s.info
    ensures var t := StartEach(s, g);
      && t == s.(info := t.info, requests := s.requests + Singles(g))
      && t.info.Keys == s.info.Keys
      && (forall k | 0 <= k < |g| ::
            t.info[g[k]] == s.info[g[k]].(status := Uploading, xhr := Some(|s.requests| + k)))
      && (forall f | f in s.info && f !in g :: t.info[f] == s.info[f])
  {
    if g != [] {
      var n := |g| - 1;
      StartEachClosed(s, g[..n]);
      StartLast(s, StartEach(s, g[..n]), g, n);
    }
  }

  lemma StartLast<F>(s: State<F>, m: State<F>, g: seq<F>, n: nat)
    requires Distinct(g) && |g| == n + 1 && (forall f | f in g :: f in s.info)
    requires m == s.(info := m.info, requests := s.requests + Singles(g[..n]))
    requires m.info.Keys == s.info.Keys
    requires forall k | 0 <= k < n :: m.info[g[k]] == s.info[g[k]].(status := Uploading, xhr := Some(|s.requests| + k))
    requires forall f | f in s.info && f !in g[..n] :: m.info[f] == s.info[f]
    ensures var t := Start(m, [g[n]]);
      && t == s.(info := t.info, requests := s.requests + Singles(g))
      && t.info.Keys == s.info.Keys
      && (forall k | 0 <= k < |g| ::
            t.info[g[k]] == s.info[g[k]].(status := Uploading, xhr := Some(|s.requests| + k)))
      && (forall f | f in s.info && f !in g :: t.info[f] == s.info[f])
  {
    assert g[n] in g && g[n] !in g[..n];
    var t := Start(m, [g[n]]);
    forall k | 0 <= k < |g|
      ensures t.info[g[k]] == s.info[g[k]].(status := Uploading, xhr := Some(|s.requests| + k))
    {
      assert g[k] in g;
    }
    assert Singles(g) == Singles(g[..n]) + [Request([g[n]], Live)];
  }

  lemma NextIsThose<F>(o: Options, s: State<F>)
    requires Wf(o, s)
    ensures Next(o, s) == Oldest(o, s) && Distinct(Oldest(o, s)) && forall f | f in Oldest(o, s) :: f in s.info
  {
    CountStatus(o, s, Uploading);
    NextIsOldest(o, s);
    var queue := FilesWithStatus(s, Queued);
    assert queue[..|queue|] == queue;
  }

  /** processQueue sends the oldest queued files into the free slots, each in a request of its own or all in one. */
  lemma ProcessEffect<F>(o: Options, s: State<F>)
    requires Wf(o, s)
    ensures Dispatched(o, s, ProcessQueue(o, s))
  {
    hide Wf, Next, Oldest, StartEach;
    var g := Oldest(o, s);
    NextIsThose(o, s);
    if o.uploadMultiple {
      GroupSent(o, s);
    } else {
      StartEachClosed(s, g);
      if g == [] {
        StartedNone(s);
      }
    }
  }

  lemma StartedNone<F>(s: State<F>)
    ensures StartEach(s, []) == s
  {
  }

  lemma GroupSent<F>(o: Options, s: State<F>)
    requires o.uploadMultiple && forall f | f in Oldest(o, s) :: f in s.info
    ensures Dispatched(o, s, if Oldest(o, s) == [] then s else Start(s, Oldest(o, s)))
  {
    hide Oldest;
  }

  lemma RefillEffect<F>(o: Options, s: State<F>)
    requires Wf(o, s)
    ensures Followed(o, s, Refill(o, s))
  {
    ProcessEffect(o, s);
  }

  /** A timer that fires is used up, and the queue processed. */
  lemma TimerEffect<F>(o: Options, s: State<F>)
    requires Inv(o, s) && s.timers > 0
    ensures Dispatched(o, s.(timers := s.timers - 1), Fire(o, s))
  {
    hide Dispatched, ProcessQueue;
    var m := s.(timers := s.timers - 1);
    SafeCounters(o, s, m);
    ProcessEffect(o, m);
  }

  // ----- answers -----

  /** Amid is told by what it holds for each file and each request. */
  lemma AmidIs<F>(s: State<F>, k: State<F>, g: set<F>, status: Status, full: bool, x: Option<nat>, phase: Phase)
    requires k.files == s.files && k.timers == s.timers && k.info.Keys == s.info.Keys
    requires forall f | f in s.info ::
      k.info[f] == if f !in g then s.info[f]
                   else s.info[f].(status := status, bytesSent := if full then s.info[f].total else s.info[f].bytesSent)
    requires |k.requests| == |s.requests|
    requires forall y | 0 <= y < |s.requests| ::
      k.requests[y] == if x == Some(y) then s.requests[y].(phase := phase) else s.requests[y]
    ensures k == Amid(s, g, status, full, x, phase, k.armed)
  {
    var a := Amid(s, g, status, full, x, phase, k.armed);
    assert k.info == a.info;
    assert k.requests == a.requests;
  }

  lemma AmidSettled<F>(s: State<F>, x: nat, status: Status, full: bool, phase: Phase, n: nat)
    requires x < |s.requests|
    ensures var g := Elems(s.requests[x].files);
      var k := Complete(Settle(if full then SendAll(s, g) else s, x, status, phase), n);
      k == Amid(s, g, status, full, Some(x), phase, k.armed)
  {
    var g := Elems(s.requests[x].files);
    var k := Complete(Settle(if full then SendAll(s, g) else s, x, status, phase), n);
    hide Amid, Settle, SendAll;
    SendAllAt(s, g);
    SettleAt(if full then SendAll(s, g) else s, x, status, phase);
    AmidIs(s, k, g, status, full, Some(x), phase);
  }

  lemma SendAllAt<F>(s: State<F>, g: set<F>)
    ensures var m := SendAll(s, g);
      && m == s.(info := m.info) && m.info.Keys == s.info.Keys
      && forall f | f in s.info ::
           m.info[f] == if f in g then s.info[f].(bytesSent := s.info[f].total) else s.info[f]
  {
  }

  lemma SettleAt<F>(s: State<F>, x: nat, status: Status, phase: Phase)
    requires x < |s.requests|
    ensures var m := Settle(s, x, status, phase);
      && m == s.(info := m.info, requests := s.requests[x := s.requests[x].(phase := phase)])
      && m.info.Keys == s.info.Keys
      && forall f | f in s.info ::
           m.info[f] == if f in Elems(s.requests[x].files) then s.info[f].(status := status) else s.info[f]
  {
  }

  lemma FollowedArmed<F>(o: Options, s: State<F>, t: State<F>)
    requires Followed(o, s, t)
    ensures t.armed == s.armed
  {
  }

  lemma SettledEffect<F>(o: Options, s: State<F>, x: nat, status: Status, full: bool, n: nat)
    requires Inv(o, s) && x < |s.requests| && s.requests[x].phase == Live && Agrees(status, Settled)
    ensures var g := Elems(s.requests[x].files);
      var t := Refill(o, Complete(Settle(if full then SendAll(s, g) else s, x, status, Settled), n));
      Followed(o, Amid(s, g, status, full, Some(x), Settled, t.armed), t)
  {
    hide Followed, Refill, Settle, Amid, Complete, SendAll;
    var g := Elems(s.requests[x].files);
    var m := if full then SendAll(s, g) else s;
    SendAllKeeps(o, s, g);
    SafeSettle(o, m, x, status, Settled);
    var k := Complete(Settle(m, x, status, Settled), n);
    SafeCounters(o, Settle(m, x, status, Settled), k) by {
      CompleteShape(Settle(m, x, status, Settled), n);
    }
    RefillEffect(o, k);
    FollowedArmed(o, k, Refill(o, k));
    AmidSettled(s, x, status, full, Settled, n);
  }

  lemma CompleteShape<F>(s: State<F>, n: nat)
    ensures Complete(s, n) == s.(armed := Complete(s, n).armed, timers := Complete(s, n).timers)
  {
  }

  /**
   * The answer to a live request: every file of the request succeeds, or fails if the status code says so, with all its
   * bytes counted as sent; then the queue is looked after. An answer that is not complete, or comes after the abort,
   * does nothing.
   */
  lemma LoadEffect<F>(o: Options, s: State<F>, x: nat, ready: bool, ok: bool)
    requires Inv(o, s) && x < |s.requests| && s.requests[x].phase != Settled
    ensures var t := Load(o, s, x, ready, ok);
      if s.requests[x].phase == Live && ready then
        var status := if ok then Success else Error;
        Followed(o, Amid(s, Elems(s.requests[x].files), status, true, Some(x), Settled, t.armed), t)
      else t == s
  {
    hide Followed, Amid, Refill, Settle, Complete, Break, Finished;
    GuardIsSound(o, s, x);
    if s.requests[x].phase == Live && ready {
      var g, k := Elems(s.requests[x].files), |s.requests[x].files|;
      var m := SendAll(s, g);
      SendAllKeeps(o, s, g);
      if ok {
        FinishedClosed(o, m, x);
        SettledEffect(o, s, x, Success, true, 1);
      } else {
        BreakClosed(o, m, x);
        SettledEffect(o, s, x, Error, true, Reports(k, k));
      }
    }
  }

  /** A network error on a live request: its files fail, their byte counts as they are; after an abort, nothing. */
  lemma FailEffect<F>(o: Options, s: State<F>, x: nat)
    requires Inv(o, s) && x < |s.requests| && s.requests[x].phase != Settled
    ensures var t := Fail(o, s, x);
      if s.requests[x].phase == Live then
        Followed(o, Amid(s, Elems(s.requests[x].files), Error, false, Some(x), Settled, t.armed), t)
      else t == s
  {
    hide Followed, Amid, Refill, Settle, Complete, Break;
    GuardIsSound(o, s, x);
    if s.requests[x].phase == Live {
      var k := |s.requests[x].files|;
      BreakClosed(o, s, x);
      SettledEffect(o, s, x, Error, false, Reports(k, k));
    }
  }

  // ----- cancelling -----

  /** The files a cancel of f ends: the whole group of an upload, a waiting or queued file alone, else none. */
  ghost function Cancelled<F>(s: State<F>, f: F): set<F> {
    var i := s.Of(f);
    if i.status == Uploading && i.xhr.Some? && i.xhr.value < |s.requests| then Elems(s.requests[i.xhr.value].files)
    else if i.status == Added || i.status == Queued then {f}
    else {}
  }

  /** The request it aborts. */
  ghost function Closing<F>(s: State<F>, f: F): Option<nat> {
    if s.Of(f).status == Uploading then s.Of(f).xhr else None
  }

  /** cancelUpload ends exactly those files, aborts their request if there is one, and looks after the queue. */
  lemma CancelEffect<F>(o: Options, s: State<F>, f: F)
    requires Inv(o, s)
    ensures var t := Cancel(o, s, f);
      Followed(o, Amid(s, Cancelled(s, f), Canceled, false, Closing(s, f), Aborted, t.armed), t)
  {
    hide Followed, Refill;
    var w := Withdraw(s, f);
    WithdrawKeeps(o, s, f);
    AmidWithdrawn(o, s, f);
    RefillEffect(o, w);
    FollowedArmed(o, w, Refill(o, w));
  }

  lemma AmidWithdrawn<F>(o: Options, s: State<F>, f: F)
    requires Inv(o, s)
    ensures var w := Withdraw(s, f);
      w == Amid(s, Cancelled(s, f), Canceled, false, Closing(s, f), Aborted, w.armed)
  {
    hide Amid, Withdraw, Inv;
    if s.Of(f).status == Uploading {
      AmidAborted(o, s, f);
    } else {
      AmidSingle(s, f);
    }
  }

  lemma AmidSingle<F>(s: State<F>, f: F)
    requires s.Of(f).status != Uploading
    ensures var w := Withdraw(s, f);
      w == Amid(s, Cancelled(s, f), Canceled, false, Closing(s, f), Aborted, w.armed)
  {
    hide Amid;
    AmidIs(s, Withdraw(s, f), Cancelled(s, f), Canceled, false, None, Aborted);
  }

  lemma AmidAborted<F>(o: Options, s: State<F>, f: F)
    requires Inv(o, s) && s.Of(f).status == Uploading
    ensures var w := Withdraw(s, f);
      w == Amid(s, Cancelled(s, f), Canceled, false, Closing(s, f), Aborted, w.armed)
  {
    hide Amid;
    UploadingFile(o, s, f);
    LiveGroup(o, s, s.Of(f).xhr.value);
    hide Inv;
    AmidIs(s, Withdraw(s, f), Cancelled(s, f), Canceled, false, s.Of(f).xhr, Aborted);
  }

  /** removeFile cancels an upload like cancelUpload, and takes the file, and only it, off the list. */
  lemma RemoveEffect<F>(o: Options, s: State<F>, f: F)
    requires Inv(o, s)
    ensures var t := Remove(o, s, f);
      && t.files == Without(s.files, f)
      && var u := t.(files := s.files);
         if s.Of(f).status == Uploading then
           Followed(o, Amid(s, Cancelled(s, f), Canceled, false, Closing(s, f), Aborted, t.armed), u)
         else u == s
  {
    hide Followed, Amid, Cancel;
    RemoveKeeps(o, s, f);
    if s.Of(f).status == Uploading {
      CancelEffect(o, s, f);
      CancelKeeps(o, s, f);
      assert Remove(o, s, f).(files := s.files) == Cancel(o, s, f);
    }
  }

  // ----- what that means file by file -----

  /** f is as it was, or it was queued and has been sent in a new request. */
  ghost predicate SameOrSent<F>(o: Options, s: State<F>, t: State<F>, f: F) {
    var i, j := s.Of(f), t.Of(f);
    || j == i
    || (o.autoProcessQueue && f in s.files && i.status == Queued && j.xhr.Some? && |s.requests| <= j.xhr.value
        && j == i.(status := Uploading, xhr := j.xhr))
  }

  lemma FileByFile<F>(o: Options, s: State<F>, g: set<F>, status: Status, full: bool, x: Option<nat>, phase: Phase,
                      t: State<F>)
    requires Terminal(status) && g <= s.info.Keys && Followed(o, Amid(s, g, status, full, x, phase, t.armed), t)
    ensures forall f | f in g ::
      t.Of(f) == s.Of(f).(status := status, bytesSent := if full then s.Of(f).total else s.Of(f).bytesSent)
    ensures forall f | f !in g :: SameOrSent(o, s, t, f)
  {
    var a := Amid(s, g, status, full, x, phase, t.armed);
    assert a.files == s.files && |a.requests| == |s.requests|;
    assert forall f | f !in g :: a.Of(f) == s.Of(f);
    assert forall f | f in g ::
      a.Of(f) == s.Of(f).(status := status, bytesSent := if full then s.Of(f).total else s.Of(f).bytesSent);
    hide Amid, Followed;
    forall f | f in g ensures t.Of(f) == a.Of(f) {
      FollowedFile(o, a, t, f);
    }
    forall f | f !in g ensures SameOrSent(o, s, t, f) {
      FollowedFile(o, a, t, f);
    }
  }

  lemma FollowedFile<F>(o: Options, s: State<F>, t: State<F>, f: F)
    requires Followed(o, s, t)
    ensures SameOrSent(o, s, t, f)
  {
    hide Oldest;
    if o.autoProcessQueue {
      var sent := Oldest(o, s);
      OldestAreQueued(o, s);
      if f in sent {
        var k :| 0 <= k < |sent| && sent[k] == f;
      }
    }
  }

  lemma OldestAreQueued<F>(o: Options, s: State<F>)
    ensures forall f | f in Oldest(o, s) :: f in s.files && s.Of(f).status == Queued
  {
    var queue := FilesWithStatus(s, Queued);
    assert forall f | f in queue :: f in s.files && HasStatus(s, Queued)(f);
  }

  lemma GroupKnown<F>(o: Options, s: State<F>, x: nat)
    requires Wf(o, s) && x < |s.requests|
    ensures Elems(s.requests[x].files) <= s.info.Keys
  {
    assert RequestOk(s, x);
  }

  /** Every file of an answered request succeeds or fails as the answer says; any other file stays or is sent next. */
  lemma AnswerOutcome<F>(o: Options, s: State<F>, x: nat, ok: bool)
    requires Inv(o, s) && x < |s.requests| && s.requests[x].phase == Live
    ensures var g, t := s.requests[x].files, Load(o, s, x, true, ok);
      && (forall f | f in g ::
            t.Of(f) == s.Of(f).(status := if ok then Success else Error, bytesSent := s.Of(f).total))
      && (forall f | f !in g :: SameOrSent(o, s, t, f))
  {
    hide Followed, Amid, Load;
    var t := Load(o, s, x, true, ok);
    LoadEffect(o, s, x, true, ok);
    GroupKnown(o, s, x);
    FileByFile(o, s, Elems(s.requests[x].files), if ok then Success else Error, true, Some(x), Settled, t);
  }

  lemma FailOutcome<F>(o: Options, s: State<F>, x: nat)
    requires Inv(o, s) && x < |s.requests| && s.requests[x].phase == Live
    ensures var g, t := s.requests[x].files, Fail(o, s, x);
      && (forall f | f in g :: t.Of(f) == s.Of(f).(status := Error))
      && (forall f | f !in g :: SameOrSent(o, s, t, f))
  {
    hide Followed, Amid, Fail;
    var t := Fail(o, s, x);
    FailEffect(o, s, x);
    GroupKnown(o, s, x);
    FileByFile(o, s, Elems(s.requests[x].files), Error, false, Some(x), Settled, t);
  }

  lemma CancelledKnown<F>(o: Options, s: State<F>, f: F)
    requires Wf(o, s)
    ensures Cancelled(s, f) <= s.info.Keys
  {
    if s.Of(f).status == Uploading {
      assert FileOk(o, s, f);
      GroupKnown(o, s, s.Of(f).xhr.value);
    }
  }

  /** A cancel ends a waiting or queued file alone, an upload with its request; others stay or are sent next. */
  lemma CancelOutcome<F>(o: Options, s: State<F>, f: F)
    requires Inv(o, s)
    ensures var t := Cancel(o, s, f);
      && (s.Of(f).status == Added || Active(s.Of(f).status) ==> t.Of(f).status == Canceled)
      && (forall g | g in Cancelled(s, f) :: t.Of(g) == s.Of(g).(status := Canceled))
      && (forall g | g !in Cancelled(s, f) :: SameOrSent(o, s, t, g))
  {
    hide Followed, Amid, Cancel;
    var t := Cancel(o, s, f);
    CancelEffect(o, s, f);
    CancelledKnown(o, s, f);
    FileByFile(o, s, Cancelled(s, f), Canceled, false, Closing(s, f), Aborted, t);
    if s.Of(f).status == Uploading {
      assert FileOk(o, s, f);
    }
  }

  /** When a live request ends, the queue is what it was, and as many slots come free as the request has files. */
  lemma SlotsAfter<F>(o: Options, s: State<F>, x: nat, status: Status, full: bool, phase: Phase, armed: nat)
    requires Inv(o, s) && x < |s.requests| && s.requests[x].phase == Live && Terminal(status)
    ensures var a := Amid(s, Elems(s.requests[x].files), status, full, Some(x), phase, armed);
      && FilesWithStatus(a, Queued) == FilesWithStatus(s, Queued)
      && |a.Having(Uploading)| == |s.Having(Uploading)| - |s.requests[x].files|
  {
    var g := Elems(s.requests[x].files);
    var a := Amid(s, g, status, full, Some(x), phase, armed);
    LiveGroup(o, s, x);
    assert RequestOk(s, x);
    DistinctCard(s.requests[x].files);
    AmidStatus(s, g, status, full, Some(x), phase, armed);
    assert g <= s.Having(Uploading);
  }

  lemma AmidStatus<F>(s: State<F>, g: set<F>, status: Status, full: bool, x: Option<nat>, phase: Phase, armed: nat)
    requires Terminal(status) && (forall f | f in g :: f in s.info && s.info[f].status == Uploading)
    ensures var a := Amid(s, g, status, full, x, phase, armed);
      FilesWithStatus(a, Queued) == FilesWithStatus(s, Queued) && a.Having(Uploading) == s.Having(Uploading) - g
  {
    hide Amid;
    AmidAt(s, g, status, full, x, phase, armed);
    StatusesAgree(s, Amid(s, g, status, full, x, phase, armed), g, status);
  }

  lemma AmidAt<F>(s: State<F>, g: set<F>, status: Status, full: bool, x: Option<nat>, phase: Phase, armed: nat)
    requires g <= s.info.Keys
    ensures var a := Amid(s, g, status, full, x, phase, armed);
      a.files == s.files && forall f :: a.Of(f).status == if f in g then status else s.Of(f).status
  {
  }

  lemma StatusesAgree<F>(s: State<F>, a: State<F>, g: set<F>, status: Status)
    requires Terminal(status) && (forall f | f in g :: s.Of(f).status == Uploading)
    requires a.files == s.files && forall f :: a.Of(f).status == if f in g then status else s.Of(f).status
    ensures FilesWithStatus(a, Queued) == FilesWithStatus(s, Queued) && a.Having(Uploading) == s.Having(Uploading) - g
  {
    PickAgrees(s.files, HasStatus(a, Queued), HasStatus(s, Queued));
  }

  // ----- adding, queueing, progress -----

  /**
   * A first addition: a file too big, of no accepted type, or one too many is listed as failed and the queue looked
   * after; any other is listed as waiting, or with autoQueue as queued, with a timer started where that is automatic.
   */
  lemma AddEffect<F>(o: Options, s: State<F>, f: F, d: Desc)
    requires Inv(o, s) && f !in s.info
    ensures var t := Add(o, s, f, d);
      if d.size as real > o.maxFilesize * 1024.0 * 1024.0 || !Accepted(o.acceptedFiles, d)
         || (o.maxFiles.Some? && |s.Approved()| >= o.maxFiles.value)
      then
        var i := Info(d, Error, Some(false), None, d.size, 0);
        Followed(o, State(s.files + [f], s.info[f := i], s.requests, s.timers, t.armed), t)
      else
        var i := Info(d, if o.autoQueue then Queued else Added, Some(true), None, d.size, 0);
        t == State(s.files + [f], s.info[f := i], s.requests,
                   s.timers + if o.autoQueue && o.autoProcessQueue then 1 else 0, s.armed)
  {
    hide Followed, Refill, Enqueue;
    var i := Info(d, Added, None, None, d.size, 0);
    FullMeansFull(o, s, f, i);
    if Rejects(o, s, d) {
      RejectedEffect(o, s, f, i.(accepted := Some(false)));
    } else if o.autoQueue {
      EnqueuePush(o, s, f, i.(accepted := Some(true)));
    }
  }

  lemma RejectedEffect<F>(o: Options, s: State<F>, f: F, i: Info)
    requires Inv(o, s) && f !in s.info && i.xhr == None && i.accepted == Some(false)
    ensures var t := ErrorProcessing(o, Push(s, f, i), [f]);
      var j := i.(status := Error);
      Followed(o, State(s.files + [f], s.info[f := j], s.requests, s.timers, t.armed), t)
  {
    hide Followed, Refill, Safe;
    var p := Push(s, f, i.(status := Error));
    RejectedClosed(o, s, f, i);
    RejectedSafe(o, s, f, i);
    SafeCounters(o, p, Complete(p, 1));
    assert Wf(o, Complete(p, 1)) by {
      SafeIsWf(o, Complete(p, 1));
    }
    RefillEffect(o, Complete(p, 1));
    FollowedArmed(o, Complete(p, 1), Refill(o, Complete(p, 1)));
  }

  lemma SafeIsWf<F>(o: Options, s: State<F>)
    requires Safe(o, s)
    ensures Wf(o, s)
  {
  }

  /** A waiting accepted file becomes queued, with a timer where that is automatic; for any other the script throws. */
  lemma EnqueueEffect<F>(o: Options, s: State<F>, f: F)
    ensures var t := Enqueue(o, s, f);
      if s.Of(f).status == Added && s.Of(f).accepted == Some(true) then
        && f in s.info
        && t == State(s.files, s.info[f := s.info[f].(status := Queued)], s.requests,
                      s.timers + if o.autoProcessQueue then 1 else 0, s.armed)
      else t == s
  {
    if s.Of(f).status == Added && s.Of(f).accepted == Some(true) {
      assert Enqueue(o, s, f).info == s.info[f := s.info[f].(status := Queued)];
    }
  }

  /** A progress event gives every file of its request the event's two counts, whatever has become of the request. */
  lemma ProgressEffect<F>(o: Options, s: State<F>, x: nat, loaded: nat, total: nat)
    requires Wf(o, s) && x < |s.requests|
    ensures var g, t := s.requests[x].files, Progress(s, x, loaded, total);
      && t == s.(info := t.info) && t.info.Keys == s.info.Keys
      && (forall f | f in g :: t.Of(f) == s.Of(f).(total := total, bytesSent := loaded))
      && (forall f | f !in g :: t.Of(f) == s.Of(f))
  {
    GroupKnown(o, s, x);
  }
}
