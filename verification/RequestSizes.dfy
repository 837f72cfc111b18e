/** How many files a request carries, in every reachable state. */
module RequestSizes {
  import opened Collections
  import opened FileTypes
  import opened Uploads
  import opened UploadInvariants
  import opened UploadSteps
  import opened UploadTheorems
  import opened UploadEffects

  /** One file a request without uploadMultiple, at most as many as there are slots with it. */
  ghost predicate SizeOk<F>(o: Options, r: Request<F>) {
    if o.uploadMultiple then 1 <= |r.files| <= o.parallelUploads else |r.files| == 1
  }

  ghost predicate Sized<F>(o: Options, s: State<F>) { forall r | r in s.requests :: SizeOk(o, r) }

  lemma DispatchedSized<F>(o: Options, s: State<F>, t: State<F>)
    requires Sized(o, s) && Dispatched(o, s, t)
    ensures Sized(o, t)
  {
    forall r | r in t.requests ensures SizeOk(o, r) {
      if r !in s.requests {
        assert r in Groups(o, Oldest(o, s));
      }
    }
  }

  lemma FollowedSized<F>(o: Options, s: State<F>, t: State<F>)
    requires Sized(o, s) && Followed(o, s, t)
    ensures Sized(o, t)
  {
    hide Dispatched, Sized;
    if o.autoProcessQueue {
      DispatchedSized(o, s, t);
    }
  }

  lemma AmidSized<F>(o: Options, s: State<F>, g: set<F>, status: Status, full: bool, x: Option<nat>, phase: Phase,
                     armed: nat)
    requires Sized(o, s)
    ensures Sized(o, Amid(s, g, status, full, x, phase, armed))
  {
    var a := Amid(s, g, status, full, x, phase, armed);
    forall r | r in a.requests ensures SizeOk(o, r) {
      var y :| 0 <= y < |a.requests| && a.requests[y] == r;
      assert s.requests[y] in s.requests && r.files == s.requests[y].files;
    }
  }

  lemma AnswerSized<F>(o: Options, s: State<F>, e: Event<F>)
    requires Inv(o, s) && Sized(o, s) && Possible(s, e) && (e.OnLoad? || e.OnError?)
    ensures Sized(o, Step(o, s, e))
  {
    hide Followed, Amid, Sized, Load, Fail;
    var g, t := Elems(s.requests[e.x].files), Step(o, s, e);
    var status := if e.OnLoad? && e.ok then Success else Error;
    AmidSized(o, s, g, status, e.OnLoad?, Some(e.x), Settled, t.armed);
    if e.OnLoad? {
      LoadEffect(o, s, e.x, e.ready, e.ok);
    } else {
      FailEffect(o, s, e.x);
    }
    if s.requests[e.x].phase == Live && (e.OnLoad? ==> e.ready) {
      FollowedSized(o, Amid(s, g, status, e.OnLoad?, Some(e.x), Settled, t.armed), t);
    }
  }

  lemma CancelSized<F>(o: Options, s: State<F>, f: F)
    requires Inv(o, s) && Sized(o, s)
    ensures Sized(o, Cancel(o, s, f))
  {
    hide Followed, Amid, Sized, Cancel;
    var t := Cancel(o, s, f);
    CancelEffect(o, s, f);
    AmidSized(o, s, Cancelled(s, f), Canceled, false, Closing(s, f), Aborted, t.armed);
    FollowedSized(o, Amid(s, Cancelled(s, f), Canceled, false, Closing(s, f), Aborted, t.armed), t);
  }

  lemma RemoveSized<F>(o: Options, s: State<F>, f: F)
    requires Inv(o, s) && Sized(o, s)
    ensures Sized(o, Remove(o, s, f))
  {
    hide Inv, Cancel;
    CancelSized(o, s, f);
  }

  lemma {:induction false} CancelEachSized<F>(o: Options, s: State<F>, fs: seq<F>)
    requires Inv(o, s) && Sized(o, s)
    ensures Sized(o, CancelEach(o, s, fs))
  {
    hide Inv, Sized, Cancel;
    if fs != [] {
      CancelEachSized(o, s, fs[..|fs| - 1]);
      CancelEachKeeps(o, s, fs[..|fs| - 1]);
      CancelSized(o, CancelEach(o, s, fs[..|fs| - 1]), fs[|fs| - 1]);
    }
  }

  lemma {:induction false} RemoveEachSized<F>(o: Options, s: State<F>, fs: seq<F>, c: bool)
    requires Inv(o, s) && Sized(o, s)
    ensures Sized(o, RemoveEach(o, s, fs, c))
  {
    hide Inv, Sized, Remove;
    if fs != [] {
      RemoveEachSized(o, s, fs[..|fs| - 1], c);
      RemoveEachKeeps(o, s, fs[..|fs| - 1], c);
      RemoveSized(o, RemoveEach(o, s, fs[..|fs| - 1], c), fs[|fs| - 1]);
    }
  }

  lemma AddSized<F>(o: Options, s: State<F>, f: F, d: Desc)
    requires Inv(o, s) && Sized(o, s) && f !in s.info
    ensures Sized(o, Add(o, s, f, d))
  {
    hide Followed, Add, Inv;
    var t := Add(o, s, f, d);
    AddEffect(o, s, f, d);
    if t.requests != s.requests {
      var i := Info(d, Error, Some(false), None, d.size, 0);
      FollowedSized(o, State(s.files + [f], s.info[f := i], s.requests, s.timers, t.armed), t);
    }
  }

  lemma ProcessSized<F>(o: Options, s: State<F>)
    requires Wf(o, s) && Sized(o, s)
    ensures Sized(o, ProcessQueue(o, s))
  {
    hide Dispatched, Sized, ProcessQueue, Wf;
    ProcessEffect(o, s);
    DispatchedSized(o, s, ProcessQueue(o, s));
  }

  lemma TimerSized<F>(o: Options, s: State<F>)
    requires Inv(o, s) && Sized(o, s) && s.timers > 0
    ensures Sized(o, Fire(o, s))
  {
    hide Dispatched, Inv, Fire;
    TimerEffect(o, s);
    DispatchedSized(o, s.(timers := s.timers - 1), Fire(o, s));
  }

  lemma StepSized<F>(o: Options, s: State<F>, e: Event<F>)
    requires Inv(o, s) && Possible(s, e) && Sized(o, s)
    ensures Sized(o, Step(o, s, e))
  {
    hide Safe, Add, Cancel, Remove, Load, Fail, Fire, ProcessQueue;
    match e
    case AddFile(f, d) => AddSized(o, s, f, d);
    case EnqueueFile(f) =>
    case Process =>
      SafeIsWf(o, s);
      ProcessSized(o, s);
    case Timer => TimerSized(o, s);
    case OnProgress(_, _, _) =>
    case OnLoad(_, _, _) => AnswerSized(o, s, e);
    case OnError(_) => AnswerSized(o, s, e);
    case CancelUpload(f) => CancelSized(o, s, f);
    case RemoveFile(f) => RemoveSized(o, s, f);
    case RemoveAllFiles(c) => RemoveEachSized(o, s, s.files, c);
    case DisableAll => CancelEachSized(o, s, s.files);
  }

  lemma {:induction false} RunSized<F>(o: Options, s: State<F>, es: seq<Event<F>>)
    requires Inv(o, s) && Sized(o, s) && Feasible(o, s, es)
    ensures Sized(o, Run(o, s, es))
    decreases |es|
  {
    hide Inv, Sized, Step;
    if es != [] {
      StepKeeps(o, s, es[0]);
      StepSized(o, s, es[0]);
      RunSized(o, Step(o, s, es[0]), es[1..]);
    }
  }

  /**
   * In every reachable state: without uploadMultiple each request ever opened is for one file, and with it for at least
   * one and at most parallelUploads.
   */
  lemma EveryRequestSized<F>(o: Options, es: seq<Event<F>>)
    requires Feasible(o, Init<F>(), es)
    ensures forall r | r in Run(o, Init<F>(), es).requests ::
      if o.uploadMultiple then 1 <= |r.files| <= o.parallelUploads else |r.files| == 1
  {
    InitInv<F>(o);
    RunSized(o, Init<F>(), es);
  }
}
