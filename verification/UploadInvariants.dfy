/** What every state of the upload queue satisfies, and why each elementary change keeps it. */
module UploadInvariants {
  import opened Collections
  import opened Uploads

  predicate Agrees(status: Status, phase: Phase) {
    match phase
    case Live => status == Uploading
    case Settled => status == Success || status == Error
    case Aborted => status == Canceled
  }

  /** A file without a request is waiting, withdrawn or rejected; one with a request mirrors that request's fate. */
  ghost predicate FileOk<F>(o: Options, s: State<F>, f: F)
    requires f in s.info
  {
    var i := s.info[f];
    && (i.accepted == Some(true) ==> Fits(o, i.desc))
    && (i.status == Uploading ==> f in s.files)
    && match i.xhr
       case None =>
         || (i.accepted == Some(true) && (i.status == Added || i.status == Queued || i.status == Canceled))
         || (i.accepted == Some(false) && i.status == Error)
       case Some(x) =>
         && i.accepted == Some(true)
         && x < |s.requests| && f in s.requests[x].files && Agrees(i.status, s.requests[x].phase)
  }

  /** The files of a request are its own, and all share one status. */
  ghost predicate RequestOk<F>(s: State<F>, x: nat)
    requires x < |s.requests|
  {
    var g := s.requests[x].files;
    && g != [] && Distinct(g)
    && forall f | f in g :: f in s.info && s.info[f].xhr == Some(x) && s.info[f].status == s.Of(g[0]).status
  }

  ghost predicate Wf<F>(o: Options, s: State<F>) {
    && Distinct(s.files)
    && (forall f | f in s.files :: f in s.info)
    && (forall f | f in s.info :: FileOk(o, s, f))
    && (forall x | 0 <= x < |s.requests| :: RequestOk(s, x))
  }

  /** At most parallelUploads files are uploading. */
  ghost predicate Slots<F>(o: Options, s: State<F>) {
    s.Having(Uploading) == {} || |s.Having(Uploading)| <= o.parallelUploads
  }

  /** With autoProcessQueue, a queued file and a free slot mean that a processQueue timer is pending. */
  ghost predicate NotStuck<F>(o: Options, s: State<F>) {
    o.autoProcessQueue && s.Having(Queued) != {} && |s.Having(Uploading)| < o.parallelUploads ==> s.timers > 0
  }

  /** At most maxFiles accepted files are listed. */
  ghost predicate Admission<F>(o: Options, s: State<F>) {
    o.maxFiles.Some? ==> |s.Approved()| <= o.maxFiles.value
  }

  /** No file that was sent has an earlier one still queued: nothing has been overtaken. */
  ghost predicate Ordered<F>(s: State<F>) {
    forall i, j | 0 <= i < j < |s.files| :: s.Of(s.files[j]).xhr.Some? ==> s.Of(s.files[i]).status != Queued
  }

  /** With autoQueue nothing waits unqueued, and nothing is overtaken. */
  ghost predicate InOrder<F>(o: Options, s: State<F>) {
    o.autoQueue ==> (forall f | f in s.info :: s.info[f].status != Added) && Ordered(s)
  }

  /** What holds even between the statements of a step. */
  ghost predicate Safe<F>(o: Options, s: State<F>) {
    Wf(o, s) && Slots(o, s) && Admission(o, s) && InOrder(o, s)
  }

  ghost predicate Inv<F>(o: Options, s: State<F>) {
    Safe(o, s) && NotStuck(o, s)
  }

  lemma CountStatus<F>(o: Options, s: State<F>, status: Status)
    requires Wf(o, s)
    ensures |FilesWithStatus(s, status)| == |s.Having(status)|
    ensures Distinct(FilesWithStatus(s, status))
    ensures Elems(FilesWithStatus(s, status)) == s.Having(status)
  {
    PickDistinct(s.files, HasStatus(s, status));
    assert s.Having(status) == set f | f in s.files && HasStatus(s, status)(f);
  }

  lemma CountAccepted<F>(o: Options, s: State<F>)
    requires Distinct(s.files)
    ensures |AcceptedFiles(s)| == |s.Approved()|
  {
    PickDistinct(s.files, IsAccepted(s, true));
    assert s.Approved() == set f | f in s.files && IsAccepted(s, true)(f);
  }

  // ----- starting requests -----

  /** t is s with the queued files g sent: nothing else moved. */
  ghost predicate Sent<F>(s: State<F>, t: State<F>, g: seq<F>) {
    && t.files == s.files && t.timers == s.timers && t.armed == s.armed && t.info.Keys == s.info.Keys
    && |s.requests| <= |t.requests| && t.requests[..|s.requests|] == s.requests
    && (forall x | |s.requests| <= x < |t.requests| :: t.requests[x].phase == Live)
    && (forall f | f in g :: f in s.files && f in s.info && s.info[f].status == Queued)
    && (forall f | f in s.info ::
          if f in g then t.info[f] == s.info[f].(status := Uploading, xhr := t.info[f].xhr) && t.info[f].xhr.Some?
          else t.info[f] == s.info[f])
  }

  lemma SentSets<F>(s: State<F>, t: State<F>, g: seq<F>)
    requires Sent(s, t, g) && Distinct(g) && (forall f | f in s.files :: f in s.info)
    ensures t.Having(Uploading) == s.Having(Uploading) + Elems(g) && s.Having(Uploading) !! Elems(g)
    ensures t.Having(Queued) == s.Having(Queued) - Elems(g) && Elems(g) <= s.Having(Queued)
    ensures |t.Having(Uploading)| == |s.Having(Uploading)| + |g|
    ensures |t.Having(Queued)| == |s.Having(Queued)| - |g|
    ensures t.Approved() == s.Approved()
    ensures t.Idle() <==> s.Idle()
  {
    DistinctCard(g);
    SentHaving(s, t, g);
    assert |s.Having(Queued)| == |t.Having(Queued)| + |Elems(g)| by {
      assert s.Having(Queued) == t.Having(Queued) + Elems(g);
    }
    assert forall f | f in s.files :: Active(s.Of(f).status) == Active(t.Of(f).status);
  }

  lemma SentHaving<F>(s: State<F>, t: State<F>, g: seq<F>)
    requires Sent(s, t, g) && (forall f | f in s.files :: f in s.info)
    ensures t.Having(Uploading) == s.Having(Uploading) + Elems(g) && s.Having(Uploading) !! Elems(g)
    ensures t.Having(Queued) == s.Having(Queued) - Elems(g) && Elems(g) <= s.Having(Queued)
    ensures t.Approved() == s.Approved()
  {
    assert forall f | f in s.files && f !in g :: t.Of(f) == s.Of(f);
    assert forall f | f in g :: t.Of(f).status == Uploading && t.Of(f).accepted == s.Of(f).accepted;
  }

  lemma WfStart<F>(o: Options, s: State<F>, g: seq<F>)
    requires Wf(o, s) && g != [] && Distinct(g)
    requires forall f | f in g :: f in s.Having(Queued)
    ensures Wf(o, Start(s, g)) && Sent(s, Start(s, g), g)
  {
    var t := Start(s, g);
    forall f | f in t.info ensures FileOk(o, t, f) {
      assert FileOk(o, s, f);
    }
    forall x | 0 <= x < |t.requests| ensures RequestOk(t, x) {
      RequestsStart(o, s, g, x);
    }
  }

  lemma RequestsStart<F>(o: Options, s: State<F>, g: seq<F>, x: nat)
    requires Wf(o, s) && g != [] && Distinct(g) && x <= |s.requests|
    requires forall f | f in g :: f in s.Having(Queued)
    ensures RequestOk(Start(s, g), x)
  {
    var t := Start(s, g);
    if x < |s.requests| {
      var h := s.requests[x].files;
      assert RequestOk(s, x) && t.requests[x] == s.requests[x] && h[0] in h;
      forall f | f in h ensures f in t.info && t.info[f] == s.info[f] {
        assert FileOk(o, s, f);
      }
    } else {
      assert t.requests[x].files == g && g[0] in g;
    }
  }

  lemma SentTwice<F>(s: State<F>, t: State<F>, u: State<F>, g: seq<F>, h: seq<F>)
    requires Sent(s, t, g) && Sent(t, u, h)
    ensures Sent(s, u, g + h)
  {
    forall x | |s.requests| <= x < |u.requests| ensures u.requests[x].phase == Live {
      if x < |t.requests| {
        assert u.requests[x] == u.requests[..|t.requests|][x];
      }
    }
    assert u.requests[..|s.requests|] == u.requests[..|t.requests|][..|s.requests|];
    forall f | f in h ensures f in s.info && s.info[f].status == Queued {
    }
  }

  lemma {:induction false} WfStartEach<F>(o: Options, s: State<F>, g: seq<F>)
    requires Wf(o, s) && Distinct(g)
    requires forall f | f in g :: f in s.Having(Queued)
    ensures Wf(o, StartEach(s, g)) && Sent(s, StartEach(s, g), g)
  {
    hide Wf, Sent, Start;
    if g == [] {
      SentNothing(s);
    } else {
      var n := |g| - 1;
      var t := StartEach(s, g[..n]);
      WfStartEach(o, s, g[..n]);
      StillQueued(o, s, t, g[..n], g[n]) by {
        assert g[n] in g;
      }
      WfStart(o, t, [g[n]]);
      SentTwice(s, t, Start(t, [g[n]]), g[..n], [g[n]]);
      assert g == g[..n] + [g[n]];
    }
  }

  lemma SentNothing<F>(s: State<F>)
    ensures Sent(s, s, [])
  {
  }

  lemma StillQueued<F>(o: Options, s: State<F>, t: State<F>, g: seq<F>, f: F)
    requires Wf(o, s) && Sent(s, t, g) && f in s.Having(Queued) && f !in g
    ensures f in t.Having(Queued)
  {
    assert f in s.info;
  }

  /** Sending a prefix of the queue leaves no earlier file queued behind a later one. */
  lemma SentOrdered<F>(s: State<F>, t: State<F>, k: nat)
    requires Distinct(s.files) && (forall f | f in s.files :: f in s.info)
    requires Ordered(s) && k <= |FilesWithStatus(s, Queued)|
    requires Sent(s, t, FilesWithStatus(s, Queued)[..k])
    ensures Ordered(t)
  {
    var g := FilesWithStatus(s, Queued)[..k];
    forall i, j | 0 <= i < j < |t.files| && t.Of(t.files[j]).xhr.Some?
      ensures t.Of(t.files[i]).status != Queued
    {
      var a, b := s.files[i], s.files[j];
      if b in g && s.Of(a).status == Queued {
        PickKeepsOrder(s.files, HasStatus(s, Queued), i, j, k);
      }
    }
  }

  lemma OrderSent<F>(o: Options, s: State<F>, t: State<F>, k: nat)
    requires Distinct(s.files) && (forall f | f in s.files :: f in s.info)
    requires InOrder(o, s) && k <= |FilesWithStatus(s, Queued)|
    requires Sent(s, t, FilesWithStatus(s, Queued)[..k])
    ensures InOrder(o, t)
  {
    hide Ordered;
    if o.autoQueue {
      SentOrdered(s, t, k);
    }
  }

  /** Sending the oldest queued files, within the free slots, keeps everything that holds between statements. */
  lemma SafeSent<F>(o: Options, s: State<F>, t: State<F>, k: nat)
    requires Safe(o, s) && Wf(o, t)
    requires k <= |FilesWithStatus(s, Queued)| && (k == 0 || |s.Having(Uploading)| + k <= o.parallelUploads)
    requires Sent(s, t, FilesWithStatus(s, Queued)[..k])
    ensures Safe(o, t)
  {
    OrderSent(o, s, t, k);
    var g := FilesWithStatus(s, Queued)[..k];
    assert Slots(o, t) && Admission(o, t) by {
      CountStatus(o, s, Queued);
      SentSets(s, t, g);
    }
  }

  /** Every slot is taken or nothing is queued. */
  ghost predicate Drained<F>(o: Options, s: State<F>) {
    |s.Having(Uploading)| >= o.parallelUploads || s.Having(Queued) == {}
  }

  lemma NextIsOldest<F>(o: Options, s: State<F>)
    requires Wf(o, s)
    ensures |Next(o, s)| <= |FilesWithStatus(s, Queued)| && Next(o, s) == FilesWithStatus(s, Queued)[..|Next(o, s)|]
    ensures Distinct(Next(o, s)) && (forall f | f in Next(o, s) :: f in s.Having(Queued))
    ensures Next(o, s) == [] || |s.Having(Uploading)| + |Next(o, s)| <= o.parallelUploads
    ensures Next(o, s) == [] <==> Drained(o, s)
    ensures |s.Having(Uploading)| + |Next(o, s)| >= o.parallelUploads || |Next(o, s)| == |s.Having(Queued)|
  {
    CountStatus(o, s, Uploading);
    CountStatus(o, s, Queued);
    assert forall f | f in FilesWithStatus(s, Queued) :: f in Elems(FilesWithStatus(s, Queued));
  }

  /** One call of processQueue: the oldest queued files are sent until the slots or the queue run out. */
  lemma Processed<F>(o: Options, s: State<F>)
    requires Safe(o, s)
    ensures Safe(o, ProcessQueue(o, s)) && Drained(o, ProcessQueue(o, s))
    ensures Sent(s, ProcessQueue(o, s), Next(o, s))
  {
    var g, t := Next(o, s), ProcessQueue(o, s);
    NextIsOldest(o, s);
    if g != [] {
      WfStart(o, s, g);
      WfStartEach(o, s, g);
    }
    SafeSent(o, s, t, |g|);
    SentSets(s, t, g);
  }

  lemma Refilled<F>(o: Options, s: State<F>)
    requires Safe(o, s)
    ensures Safe(o, Refill(o, s)) && (o.autoProcessQueue ==> Drained(o, Refill(o, s)))
    ensures Sent(s, Refill(o, s), Taken(o, s))
  {
    if o.autoProcessQueue {
      Processed(o, s);
    } else {
      assert Sent(s, s, []);
    }
  }

  ghost function Taken<F>(o: Options, s: State<F>): seq<F> { if o.autoProcessQueue then Next(o, s) else [] }

  lemma RefilledSets<F>(o: Options, s: State<F>)
    requires Wf(o, s) && Sent(s, Refill(o, s), Taken(o, s))
    ensures var t := Refill(o, s);
      && (t.Idle() <==> s.Idle())
      && |t.Having(Uploading)| == |s.Having(Uploading)| + |Taken(o, s)|
      && |t.Having(Queued)| == |s.Having(Queued)| - |Taken(o, s)|
  {
    NextIsOldest(o, s);
    SentSets(s, Refill(o, s), Taken(o, s));
  }

  /** Work-conserving and idempotent: a second call finds nothing to do. */
  lemma ProcessQueueTwice<F>(o: Options, s: State<F>)
    requires Safe(o, s)
    ensures ProcessQueue(o, ProcessQueue(o, s)) == ProcessQueue(o, s)
  {
    Processed(o, s);
    NextIsOldest(o, ProcessQueue(o, s));
  }

  // ----- ending requests -----

  ghost function Settle<F>(s: State<F>, x: nat, status: Status, phase: Phase): State<F>
    requires x < |s.requests|
  {
    Close(Mark(s, Elems(s.requests[x].files), status), x, phase)
  }

  /**
   * t is s with some files brought to an end, or byte counts changed: no file is sent and none is listed or dropped.
   */
  ghost predicate Milder<F>(s: State<F>, t: State<F>) {
    && t.files == s.files && t.info.Keys == s.info.Keys
    && forall f | f in s.info ::
         && t.info[f] ==
              s.info[f].(status := t.info[f].status, total := t.info[f].total, bytesSent := t.info[f].bytesSent)
         && (t.info[f].status == s.info[f].status || (!Terminal(s.info[f].status) && Terminal(t.info[f].status)))
  }

  lemma MilderSets<F>(s: State<F>, t: State<F>)
    requires Milder(s, t) && forall f | f in s.files :: f in s.info
    ensures t.Having(Uploading) <= s.Having(Uploading) && t.Having(Queued) <= s.Having(Queued)
    ensures t.Approved() == s.Approved()
  {
    assert forall f | f in s.files :: t.Of(f).accepted == s.Of(f).accepted;
  }

  lemma MilderOrdered<F>(s: State<F>, t: State<F>)
    requires Milder(s, t) && (forall f | f in s.files :: f in s.info) && Ordered(s)
    ensures Ordered(t)
  {
    forall i, j | 0 <= i < j < |t.files| && t.Of(t.files[j]).xhr.Some?
      ensures t.Of(t.files[i]).status != Queued
    {
      assert s.Of(s.files[j]).xhr.Some?;
      assert t.files[i] in s.info;
    }
  }

  lemma SafeMilder<F>(o: Options, s: State<F>, t: State<F>)
    requires Milder(s, t) && Safe(o, s) && Wf(o, t)
    ensures Safe(o, t)
    ensures t.Having(Uploading) <= s.Having(Uploading) && t.Having(Queued) <= s.Having(Queued)
  {
    hide Ordered, FileOk, RequestOk;
    MilderSets(s, t);
    CardLeq(t.Having(Uploading), s.Having(Uploading));
    if o.autoQueue {
      MilderOrdered(s, t);
    }
  }

  lemma CardLeq<F>(a: set<F>, b: set<F>)
    requires a <= b
    ensures |a| <= |b|
  {
    assert b == a + (b - a);
  }

  lemma LiveGroup<F>(o: Options, s: State<F>, x: nat)
    requires Wf(o, s) && x < |s.requests| && s.requests[x].phase == Live
    ensures forall f | f in s.requests[x].files :: f in s.Having(Uploading)
    ensures Elems(FilesWithXhr(s, x)) == Elems(s.requests[x].files)
    ensures |FilesWithXhr(s, x)| == |s.requests[x].files| > 0
    ensures Distinct(FilesWithXhr(s, x))
  {
    var g, h := s.requests[x].files, FilesWithXhr(s, x);
    assert RequestOk(s, x);
    forall f | f in g ensures f in s.Having(Uploading) && f in h {
      assert FileOk(o, s, f);
      assert HasXhr(s, x)(f);
    }
    forall f | f in h ensures f in g {
      assert FileOk(o, s, f) && HasXhr(s, x)(f);
    }
    PickDistinct(s.files, HasXhr(s, x));
    DistinctCard(g);
    DistinctCard(h);
  }

  lemma SafeSettle<F>(o: Options, s: State<F>, x: nat, status: Status, phase: Phase)
    requires Safe(o, s) && x < |s.requests| && s.requests[x].phase == Live
    requires phase != Live && Agrees(status, phase)
    ensures Safe(o, Settle(s, x, status, phase)) && Milder(s, Settle(s, x, status, phase))
  {
    assert forall f | f in s.requests[x].files :: s.Of(f).status == Uploading by {
      LiveGroup(o, s, x);
    }
    MilderSettle(s, x, status, phase);
    WfSettle(o, s, x, status, phase);
    SafeMilder(o, s, Settle(s, x, status, phase));
  }

  lemma MilderSettle<F>(s: State<F>, x: nat, status: Status, phase: Phase)
    requires x < |s.requests| && Terminal(status)
    requires forall f | f in s.requests[x].files :: s.Of(f).status == Uploading
    ensures Milder(s, Settle(s, x, status, phase))
  {
  }

  /** Ending a live request frees as many slots as its group has files, and touches nothing queued. */
  lemma SlotsFreed<F>(o: Options, s: State<F>, x: nat, status: Status, phase: Phase)
    requires Wf(o, s) && x < |s.requests| && s.requests[x].phase == Live && Terminal(status)
    ensures var t := Settle(s, x, status, phase);
      && |t.Having(Uploading)| == |s.Having(Uploading)| - |s.requests[x].files|
      && t.Having(Queued) == s.Having(Queued)
  {
    var g := s.requests[x].files;
    LiveGroup(o, s, x);
    SettleSets(s, x, status, phase);
    assert Elems(g) <= s.Having(Uploading);
    assert RequestOk(s, x);
    DistinctCard(g);
  }

  lemma SettleSets<F>(s: State<F>, x: nat, status: Status, phase: Phase)
    requires x < |s.requests| && Terminal(status)
    requires forall f | f in s.requests[x].files :: f in s.info && s.Of(f).status == Uploading
    ensures var t := Settle(s, x, status, phase);
      t.Having(Uploading) == s.Having(Uploading) - Elems(s.requests[x].files) && t.Having(Queued) == s.Having(Queued)
  {
    var g, t := s.requests[x].files, Settle(s, x, status, phase);
    assert forall f :: t.Of(f) == if f in g then s.Of(f).(status := status) else s.Of(f);
    assert t.Having(Uploading) == s.Having(Uploading) - Elems(g);
    assert t.Having(Queued) == s.Having(Queued);
  }

  lemma WfSettle<F>(o: Options, s: State<F>, x: nat, status: Status, phase: Phase)
    requires Wf(o, s) && x < |s.requests| && s.requests[x].phase == Live
    requires phase != Live && Agrees(status, phase)
    ensures Wf(o, Settle(s, x, status, phase))
  {
    var g, t := s.requests[x].files, Settle(s, x, status, phase);
    assert RequestOk(s, x);
    assert forall f | f in g :: s.Of(f).status == Uploading by {
      LiveGroup(o, s, x);
    }
    hide FileOk, RequestOk, Settle;
    assert t.files == s.files && t.info.Keys == s.info.Keys && |t.requests| == |s.requests| by {
      SettleShape(s, x, status, phase);
    }
    forall f | f in t.info ensures FileOk(o, t, f) {
      SettledFile(o, s, x, f, status, phase);
    }
    forall y | 0 <= y < |t.requests| ensures RequestOk(t, y) {
      SettledRequest(s, x, y, status, phase);
    }
  }

  lemma SettleShape<F>(s: State<F>, x: nat, status: Status, phase: Phase)
    requires x < |s.requests|
    ensures var t := Settle(s, x, status, phase);
      t.files == s.files && t.info.Keys == s.info.Keys && |t.requests| == |s.requests|
  {
  }

  lemma SettledFile<F>(o: Options, s: State<F>, x: nat, f: F, status: Status, phase: Phase)
    requires f in s.info && FileOk(o, s, f) && x < |s.requests| && RequestOk(s, x)
    requires phase != Live && Agrees(status, phase)
    requires forall g | g in s.requests[x].files :: s.Of(g).status == Uploading
    ensures f in Settle(s, x, status, phase).info && FileOk(o, Settle(s, x, status, phase), f)
  {
    var t := Settle(s, x, status, phase);
    if f in s.requests[x].files {
      assert t.info[f] == s.info[f].(status := status);
    } else {
      assert t.info[f] == s.info[f] && s.info[f].xhr != Some(x);
    }
  }

  lemma SettledRequest<F>(s: State<F>, x: nat, y: nat, status: Status, phase: Phase)
    requires x < |s.requests| && y < |s.requests| && RequestOk(s, x) && RequestOk(s, y)
    ensures RequestOk(Settle(s, x, status, phase), y)
  {
    var g, h, t := s.requests[x].files, s.requests[y].files, Settle(s, x, status, phase);
    assert h[0] in h && t.requests[y].files == h;
    if y != x {
      forall f | f in h ensures f !in g {
        assert s.info[f].xhr == Some(y);
      }
    }
  }

  // ----- files without a request -----

  lemma WfWithdrawOne<F>(o: Options, s: State<F>, f: F)
    requires Wf(o, s) && f in s.info && (s.info[f].status == Added || s.info[f].status == Queued)
    ensures Wf(o, Mark(s, {f}, Canceled))
  {
    var t := Mark(s, {f}, Canceled);
    assert FileOk(o, s, f);
    forall g | g in t.info ensures FileOk(o, t, g) {
      assert FileOk(o, s, g);
    }
    forall x | 0 <= x < |t.requests| ensures RequestOk(t, x) {
      assert RequestOk(s, x);
    }
  }

  lemma SafeWithdrawOne<F>(o: Options, s: State<F>, f: F)
    requires Safe(o, s) && f in s.info && (s.info[f].status == Added || s.info[f].status == Queued)
    ensures Safe(o, Mark(s, {f}, Canceled)) && Milder(s, Mark(s, {f}, Canceled))
  {
    WfWithdrawOne(o, s, f);
    SafeMilder(o, s, Mark(s, {f}, Canceled));
  }

  lemma WfEnqueue<F>(o: Options, s: State<F>, f: F)
    requires Wf(o, s) && s.Of(f).status == Added
    ensures Wf(o, Enqueue(o, s, f))
  {
    assert FileOk(o, s, f);
    var t := Enqueue(o, s, f);
    forall g | g in t.info ensures FileOk(o, t, g) {
      assert FileOk(o, s, g);
    }
    forall x | 0 <= x < |t.requests| ensures RequestOk(t, x) {
      assert RequestOk(s, x);
    }
  }

  lemma EnqueueSets<F>(o: Options, s: State<F>, f: F)
    requires Wf(o, s) && s.Of(f).status == Added
    ensures var t := Enqueue(o, s, f);
      && t == s.(info := s.info[f := s.info[f].(status := Queued)],
                 timers := s.timers + if o.autoProcessQueue then 1 else 0)
      && t.Having(Uploading) == s.Having(Uploading)
      && t.Having(Queued) == s.Having(Queued) + (if f in s.files then {f} else {})
      && t.Approved() == s.Approved()
  {
    assert FileOk(o, s, f);
    EnqueuedSets(s, Enqueue(o, s, f), f);
  }

  lemma EnqueuedSets<F>(s: State<F>, t: State<F>, f: F)
    requires f in s.info && s.info[f].status == Added
    requires t.files == s.files && t.info == Mark(s, {f}, Queued).info
    ensures t.info == s.info[f := s.info[f].(status := Queued)]
    ensures t.Having(Uploading) == s.Having(Uploading) && t.Approved() == s.Approved()
    ensures t.Having(Queued) == s.Having(Queued) + (if f in s.files then {f} else {})
  {
    assert t.info == s.info[f := s.info[f].(status := Queued)];
    assert forall g :: t.Of(g) == if g == f then s.Of(f).(status := Queued) else s.Of(g);
    assert t.Having(Queued) == s.Having(Queued) + (if f in s.files then {f} else {});
  }

  lemma WfDrop<F>(o: Options, s: State<F>, f: F)
    requires Wf(o, s) && s.Of(f).status != Uploading
    ensures Wf(o, Drop(s, f))
  {
    var t := Drop(s, f);
    PickDistinct(s.files, Other(f));
    forall g | g in t.info ensures FileOk(o, t, g) {
      assert FileOk(o, s, g);
    }
    forall x | 0 <= x < |t.requests| ensures RequestOk(t, x) {
      assert RequestOk(s, x);
    }
  }

  lemma DropOrdered<F>(s: State<F>, f: F)
    requires Ordered(s)
    ensures Ordered(Drop(s, f))
  {
    var t := Drop(s, f);
    forall i, j | 0 <= i < j < |t.files| && t.Of(t.files[j]).xhr.Some?
      ensures t.Of(t.files[i]).status != Queued
    {
      var i', j' := PickTraces(s.files, Other(f), i, j);
    }
  }

  lemma OrderDrop<F>(o: Options, s: State<F>, f: F)
    requires InOrder(o, s)
    ensures InOrder(o, Drop(s, f))
  {
    hide Ordered;
    if o.autoQueue {
      DropOrdered(s, f);
    }
  }

  lemma SafeDrop<F>(o: Options, s: State<F>, f: F)
    requires Safe(o, s) && s.Of(f).status != Uploading
    ensures Safe(o, Drop(s, f))
    ensures Drop(s, f).Having(Uploading) == s.Having(Uploading)
    ensures Drop(s, f).Having(Queued) <= s.Having(Queued)
  {
    WfDrop(o, s, f);
    OrderDrop(o, s, f);
    var t := Drop(s, f);
    assert t.Having(Uploading) == s.Having(Uploading);
    CardLeq(t.Approved(), s.Approved());
  }

  /** Two elements of a filter stand in the same order in the list. */
  lemma {:induction false} PickTraces<F>(fs: seq<F>, keep: F -> bool, i: nat, j: nat) returns (i': nat, j': nat)
    requires i < j < |Pick(fs, keep)|
    ensures i' < j' < |fs| && fs[i'] == Pick(fs, keep)[i] && fs[j'] == Pick(fs, keep)[j]
  {
    var n := |fs| - 1;
    var rest := Pick(fs[..n], keep);
    if j < |rest| {
      i', j' := PickTraces(fs[..n], keep, i, j);
    } else {
      assert rest[i] in fs[..n];
      i' :| 0 <= i' < n && fs[i'] == rest[i];
      j' := n;
    }
  }

  /** A file newly listed without a request: accepted and waiting, or rejected. */
  lemma WfPush<F>(o: Options, s: State<F>, f: F, i: Info)
    requires Wf(o, s) && f !in s.info && i.xhr == None && i.status != Uploading
    requires FileOk(o, Push(s, f, i), f)
    ensures Wf(o, Push(s, f, i))
  {
    var t := Push(s, f, i);
    forall g | g in t.info ensures FileOk(o, t, g) {
      if g != f {
        assert FileOk(o, s, g);
      }
    }
    forall x | 0 <= x < |t.requests| ensures RequestOk(t, x) {
      assert RequestOk(s, x);
    }
  }

  lemma PushSets<F>(o: Options, s: State<F>, f: F, i: Info)
    requires Wf(o, s) && f !in s.info && i.status != Uploading
    ensures var t := Push(s, f, i);
      && t.Having(Uploading) == s.Having(Uploading)
      && t.Having(Queued) == s.Having(Queued) + (if i.status == Queued then {f} else {})
      && t.Approved() == s.Approved() + (if i.accepted == Some(true) then {f} else {}) && f !in s.Approved()
  {
    var t := Push(s, f, i);
    assert forall g | g in s.files :: g != f && t.Of(g) == s.Of(g);
    assert t.Having(Uploading) == s.Having(Uploading);
    assert t.Having(Queued) == s.Having(Queued) + (if i.status == Queued then {f} else {});
    assert t.Approved() == s.Approved() + (if i.accepted == Some(true) then {f} else {});
  }

  /** Byte counts may change freely: nothing else looks at them. */
  ghost predicate SameButBytes<F>(s: State<F>, t: State<F>) {
    && t.info.Keys == s.info.Keys && t == s.(info := t.info)
    && forall f | f in s.info :: t.info[f] == s.info[f].(total := t.info[f].total, bytesSent := t.info[f].bytesSent)
  }

  lemma WfBytes<F>(o: Options, s: State<F>, t: State<F>)
    requires SameButBytes(s, t) && Wf(o, s)
    ensures Wf(o, t)
  {
    forall f | f in t.info ensures FileOk(o, t, f) {
      assert FileOk(o, s, f);
    }
    forall x | 0 <= x < |t.requests| ensures RequestOk(t, x) {
      assert RequestOk(s, x);
    }
  }

  lemma SafeBytes<F>(o: Options, s: State<F>, t: State<F>)
    requires SameButBytes(s, t) && Safe(o, s)
    ensures Safe(o, t) && Milder(s, t)
    ensures t.Having(Uploading) == s.Having(Uploading) && t.Having(Queued) == s.Having(Queued)
    ensures t.Idle() <==> s.Idle()
  {
    WfBytes(o, s, t);
    SafeMilder(o, s, t);
    assert t.Having(Uploading) == s.Having(Uploading) && t.Having(Queued) == s.Having(Queued);
    assert forall f | f in s.files :: Active(s.Of(f).status) == Active(t.Of(f).status);
  }
}
