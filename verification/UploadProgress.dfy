/** Byte counts and the total progress the page is told. */
module UploadProgress {
  import opened Collections
  import opened FileTypes
  import opened Uploads
  import opened UploadInvariants
  import opened UploadSteps
  import opened UploadTheorems

  /** No file has sent more bytes than it has. */
  ghost predicate Bounded<F>(s: State<F>) { forall f | f in s.info :: s.info[f].bytesSent <= s.info[f].total }

  /** Events whose progress report, if they carry one, is not over its own total. */
  predicate Honest<F>(e: Event<F>) { e.OnProgress? ==> e.loaded <= e.total }

  lemma RefillBounded<F>(o: Options, s: State<F>)
    requires Safe(o, s) && Bounded(s)
    ensures Bounded(Refill(o, s))
  {
    Refilled(o, s);
  }

  lemma ReportBounded<F>(o: Options, s: State<F>, n: nat)
    requires Safe(o, s) && Bounded(s)
    ensures Bounded(Refill(o, Complete(s, n)))
  {
    SafeCounters(o, s, Complete(s, n));
    RefillBounded(o, Complete(s, n));
  }

  lemma SettledBounded<F>(o: Options, s: State<F>, x: nat, status: Status, n: nat)
    requires Safe(o, s) && Bounded(s) && x < |s.requests| && s.requests[x].phase == Live && Agrees(status, Settled)
    ensures Bounded(Refill(o, Complete(Settle(s, x, status, Settled), n)))
  {
    SettleForward(o, s, x, status, Settled);
    ReportBounded(o, Settle(s, x, status, Settled), n);
  }

  lemma FailBounded<F>(o: Options, s: State<F>, x: nat)
    requires Inv(o, s) && Bounded(s) && x < |s.requests| && s.requests[x].phase != Settled
    ensures Bounded(Fail(o, s, x))
  {
    GuardIsSound(o, s, x);
    if s.requests[x].phase == Live {
      var k := |s.requests[x].files|;
      BreakClosed(o, s, x);
      SettledBounded(o, s, x, Error, Reports(k, k));
    }
  }

  lemma LoadBounded<F>(o: Options, s: State<F>, x: nat, ready: bool, ok: bool)
    requires Inv(o, s) && Bounded(s) && x < |s.requests| && s.requests[x].phase != Settled
    ensures Bounded(Load(o, s, x, ready, ok))
  {
    GuardIsSound(o, s, x);
    if s.requests[x].phase == Live && ready {
      var t := SendAll(s, Elems(s.requests[x].files));
      var k := |s.requests[x].files|;
      SendAllKeeps(o, s, Elems(s.requests[x].files));
      assert Bounded(t);
      if ok {
        FinishedClosed(o, t, x);
        SettledBounded(o, t, x, Success, 1);
      } else {
        BreakClosed(o, t, x);
        SettledBounded(o, t, x, Error, Reports(k, k));
      }
    }
  }

  lemma CancelBounded<F>(o: Options, s: State<F>, f: F)
    requires Safe(o, s) && Bounded(s)
    ensures Bounded(Cancel(o, s, f))
  {
    hide Safe, Refill, Withdraw, Bounded;
    WithdrawKeeps(o, s, f);
    WithdrawBounded(s, f);
    RefillBounded(o, Withdraw(s, f));
  }

  lemma WithdrawBounded<F>(s: State<F>, f: F)
    requires Bounded(s)
    ensures Bounded(Withdraw(s, f))
  {
  }

  lemma {:induction false} CancelEachBounded<F>(o: Options, s: State<F>, fs: seq<F>)
    requires Inv(o, s) && Bounded(s)
    ensures Bounded(CancelEach(o, s, fs))
  {
    if fs != [] {
      CancelEachBounded(o, s, fs[..|fs| - 1]);
      CancelEachKeeps(o, s, fs[..|fs| - 1]);
      CancelBounded(o, CancelEach(o, s, fs[..|fs| - 1]), fs[|fs| - 1]);
    }
  }

  lemma {:induction false} RemoveEachBounded<F>(o: Options, s: State<F>, fs: seq<F>, c: bool)
    requires Inv(o, s) && Bounded(s)
    ensures Bounded(RemoveEach(o, s, fs, c))
  {
    if fs != [] {
      RemoveEachBounded(o, s, fs[..|fs| - 1], c);
      RemoveEachKeeps(o, s, fs[..|fs| - 1], c);
      CancelBounded(o, RemoveEach(o, s, fs[..|fs| - 1], c), fs[|fs| - 1]);
    }
  }

  lemma AddBounded<F>(o: Options, s: State<F>, f: F, d: Desc)
    requires Inv(o, s) && Bounded(s) && f !in s.info
    ensures Bounded(Add(o, s, f, d))
  {
    var i := Info(d, Added, None, None, d.size, 0);
    if !Fits(o, d) || Full(o, Push(s, f, i)) {
      RejectedBounded(o, s, f, i.(accepted := Some(false)));
    }
  }

  lemma RejectedBounded<F>(o: Options, s: State<F>, f: F, i: Info)
    requires Inv(o, s) && Bounded(s) && f !in s.info
    requires i.xhr == None && i.accepted == Some(false) && i.bytesSent <= i.total
    ensures Bounded(ErrorProcessing(o, Push(s, f, i), [f]))
  {
    hide Refill, Complete, Safe;
    RejectedClosed(o, s, f, i);
    RejectedSafe(o, s, f, i);
    ReportBounded(o, Push(s, f, i.(status := Error)), 1);
  }

  lemma ProcessBounded<F>(o: Options, s: State<F>)
    requires Safe(o, s) && Bounded(s)
    ensures Bounded(ProcessQueue(o, s))
  {
    Processed(o, s);
  }

  lemma FireBounded<F>(o: Options, s: State<F>)
    requires Inv(o, s) && Bounded(s) && s.timers > 0
    ensures Bounded(Fire(o, s))
  {
    SafeCounters(o, s, s.(timers := s.timers - 1));
    ProcessBounded(o, s.(timers := s.timers - 1));
  }

  lemma StepBounded<F>(o: Options, s: State<F>, e: Event<F>)
    requires Inv(o, s) && Bounded(s) && Possible(s, e) && Honest(e)
    ensures Bounded(Step(o, s, e))
  {
    match e
    case AddFile(f, d) => AddBounded(o, s, f, d);
    case EnqueueFile(f) =>
    case Process => ProcessBounded(o, s);
    case Timer => FireBounded(o, s);
    case OnProgress(x, loaded, total) =>
    case OnLoad(x, ready, ok) => LoadBounded(o, s, x, ready, ok);
    case OnError(x) => FailBounded(o, s, x);
    case CancelUpload(f) => CancelBounded(o, s, f);
    case RemoveFile(f) => CancelBounded(o, s, f);
    case RemoveAllFiles(c) => RemoveEachBounded(o, s, s.files, c);
    case DisableAll => CancelEachBounded(o, s, s.files);
  }

  lemma {:induction false} RunBounded<F>(o: Options, s: State<F>, es: seq<Event<F>>)
    requires Inv(o, s) && Bounded(s) && Feasible(o, s, es) && (forall e | e in es :: Honest(e))
    ensures Bounded(Run(o, s, es))
    decreases |es|
  {
    if es != [] {
      assert es[0] in es && forall e | e in es[1..] :: e in es;
      StepKeeps(o, s, es[0]);
      StepBounded(o, s, es[0]);
      RunBounded(o, Step(o, s, es[0]), es[1..]);
    }
  }

  // ----- the report -----

  ghost function IsActive<F>(s: State<F>): F -> bool { f => Active(s.Of(f).status) }

  ghost function ActiveFiles<F>(s: State<F>): seq<F> { Pick(s.files, IsActive(s)) }

  ghost function SentBytes<F>(s: State<F>, fs: seq<F>): nat {
    if fs == [] then 0 else SentBytes(s, fs[..|fs| - 1]) + s.Of(fs[|fs| - 1]).bytesSent
  }

  ghost function TotalBytes<F>(s: State<F>, fs: seq<F>): nat {
    if fs == [] then 0 else TotalBytes(s, fs[..|fs| - 1]) + s.Of(fs[|fs| - 1]).total
  }

  /** 100 * sent / total, where zero by zero has no value. */
  function Percent(sent: nat, total: nat): Option<real> {
    if total == 0 then None else Some(100.0 * sent as real / total as real)
  }

  /** The percentage given to totaluploadprogress. */
  ghost function Report<F>(s: State<F>): Option<real> {
    var fs := ActiveFiles(s);
    if fs == [] then Some(100.0) else Percent(SentBytes(s, fs), TotalBytes(s, fs))
  }

  lemma {:induction false} SentWithinTotal<F>(s: State<F>, fs: seq<F>)
    requires Bounded(s) && forall f | f in fs :: f in s.info
    ensures SentBytes(s, fs) <= TotalBytes(s, fs)
    ensures SentBytes(s, fs) == TotalBytes(s, fs) <==> forall f | f in fs :: s.Of(f).bytesSent == s.Of(f).total
  {
    if fs != [] {
      var n := |fs| - 1;
      SentWithinTotal(s, fs[..n]);
      assert fs == fs[..n] + [fs[n]];
      assert s.info[fs[n]].bytesSent <= s.info[fs[n]].total;
    }
  }

  // ----- what the sums and the percentage are -----

  lemma ActiveExactly<F>(s: State<F>)
    ensures forall f | f in ActiveFiles(s) :: f in s.files
    ensures forall f | f in s.files ::
      f in ActiveFiles(s) <==> s.Of(f).status == Uploading || s.Of(f).status == Queued
  {
    assert forall f | f in ActiveFiles(s) :: IsActive(s)(f);
    assert forall f | f in s.files && IsActive(s)(f) :: f in ActiveFiles(s);
  }

  lemma {:induction false} SumsOfParts<F>(s: State<F>, fs: seq<F>, gs: seq<F>)
    ensures SentBytes(s, fs + gs) == SentBytes(s, fs) + SentBytes(s, gs)
    ensures TotalBytes(s, fs + gs) == TotalBytes(s, fs) + TotalBytes(s, gs)
  {
    if gs == [] {
      assert fs + gs == fs;
    } else {
      var n := |gs| - 1;
      SumsOfParts(s, fs, gs[..n]);
      assert (fs + gs)[..|fs + gs| - 1] == fs + gs[..n];
    }
  }

  lemma SumsOfOne<F>(s: State<F>, f: F)
    ensures SentBytes(s, [f]) == s.Of(f).bytesSent && TotalBytes(s, [f]) == s.Of(f).total
  {
    assert [f][..0] == [];
  }

  lemma TakeOut<F>(fs: seq<F>, x: F) returns (a: seq<F>, b: seq<F>)
    requires x in fs
    ensures fs == a + [x] + b
  {
    var i :| 0 <= i < |fs| && fs[i] == x;
    a, b := fs[..i], fs[i + 1..];
  }

  /** A sum does not depend on the order of the files. */
  lemma {:induction false} SumsIgnoreOrder<F>(s: State<F>, fs: seq<F>, gs: seq<F>)
    requires multiset(fs) == multiset(gs)
    ensures SentBytes(s, fs) == SentBytes(s, gs) && TotalBytes(s, fs) == TotalBytes(s, gs)
  {
    if fs == [] {
      assert |multiset(gs)| == 0;
    } else {
      var n, x := |fs| - 1, fs[|fs| - 1];
      assert fs == fs[..n] + [x];
      assert x in gs by {
        assert x in multiset(fs) && multiset(gs)[x] > 0;
      }
      var a, b := TakeOut(gs, x);
      BagsWithout(fs[..n], a, b, x);
      SumsIgnoreOrder(s, fs[..n], a + b);
      SumsAround(s, a, x, b);
    }
  }

  lemma BagsWithout<F>(fs: seq<F>, a: seq<F>, b: seq<F>, x: F)
    requires multiset(fs + [x]) == multiset(a + [x] + b)
    ensures multiset(fs) == multiset(a + b)
  {
    assert multiset(fs) == multiset(fs + [x]) - multiset{x};
    assert multiset(a + [x] + b) == multiset(a + b) + multiset{x};
  }

  lemma SumsAround<F>(s: State<F>, a: seq<F>, x: F, b: seq<F>)
    ensures SentBytes(s, a + [x] + b) == SentBytes(s, a + b) + s.Of(x).bytesSent
    ensures TotalBytes(s, a + [x] + b) == TotalBytes(s, a + b) + s.Of(x).total
  {
    hide SentBytes, TotalBytes;
    SumsOfParts(s, a + [x], b);
    SumsOfParts(s, a, [x]);
    SumsOfParts(s, a, b);
    SumsOfOne(s, x);
  }

  /** Whatever the state: the report times the bytes of the active files is a hundred times those sent. */
  lemma ReportIsShare<F>(s: State<F>)
    ensures ActiveFiles(s) == [] ==> Report(s) == Some(100.0)
    ensures ActiveFiles(s) != [] && Report(s).Some? ==>
      Report(s).value * TotalBytes(s, ActiveFiles(s)) as real == 100.0 * SentBytes(s, ActiveFiles(s)) as real
  {
    var fs := ActiveFiles(s);
    if fs != [] && TotalBytes(s, fs) > 0 {
      PercentIsShare(SentBytes(s, fs), TotalBytes(s, fs));
    }
  }

  lemma PercentIsShare(sent: nat, total: nat)
    requires total > 0
    ensures Percent(sent, total).value * total as real == 100.0 * sent as real
  {
    var a, b := sent as real, total as real;
    assert 100.0 * a / b * b == 100.0 * a;
  }

  /** t is s but that the active file f has sent more. */
  ghost predicate MoreSent<F>(s: State<F>, t: State<F>, f: F) {
    && f in ActiveFiles(s) && f in s.info && t == s.(info := t.info)
    && t.info == s.info[f := s.info[f].(bytesSent := t.Of(f).bytesSent)] && s.Of(f).bytesSent < t.Of(f).bytesSent
  }

  lemma {:induction false} SumsMove<F>(s: State<F>, t: State<F>, fs: seq<F>, f: F)
    requires Distinct(fs) && t.info.Keys == s.info.Keys && f in s.info
    requires t.info == s.info[f := s.info[f].(bytesSent := t.Of(f).bytesSent)]
    ensures TotalBytes(t, fs) == TotalBytes(s, fs)
    ensures SentBytes(t, fs) == SentBytes(s, fs) + if f in fs then t.Of(f).bytesSent - s.Of(f).bytesSent else 0
  {
    if fs != [] {
      var n := |fs| - 1;
      assert fs == fs[..n] + [fs[n]];
      SumsMove(s, t, fs[..n], f);
      assert t.Of(fs[n]) == if fs[n] == f then t.Of(f) else s.Of(fs[n]);
      assert t.Of(f).total == s.Of(f).total;
    }
  }

  /** Any further byte an active file sends raises the report. */
  lemma ReportRises<F>(s: State<F>, t: State<F>, f: F)
    requires Distinct(s.files) && MoreSent(s, t, f) && Report(s).Some?
    ensures Report(t).Some? && Report(t).value > Report(s).value
  {
    var fs := ActiveFiles(s);
    PickAgrees(s.files, IsActive(s), IsActive(t)) by {
      assert forall g :: t.Of(g).status == s.Of(g).status;
    }
    PickDistinct(s.files, IsActive(s));
    SumsMove(s, t, fs, f);
    PercentRises(SentBytes(s, fs), SentBytes(t, fs), TotalBytes(s, fs));
  }

  lemma PercentRises(a: nat, b: nat, total: nat)
    requires a < b && total > 0
    ensures Percent(a, total).value < Percent(b, total).value
  {
    var p, q, n := Percent(a, total).value, Percent(b, total).value, total as real;
    PercentIsShare(a, total);
    PercentIsShare(b, total);
    assert (q - p) * n == 100.0 * (b as real - a as real);
  }

  lemma PercentRange(sent: nat, total: nat)
    requires sent <= total && total > 0
    ensures 0.0 <= Percent(sent, total).value <= 100.0
    ensures Percent(sent, total).value == 100.0 <==> sent == total
  {
    var a, b := sent as real, total as real;
    var p := 100.0 * a / b;
    assert p * b == 100.0 * a;
    assert (p - 100.0) * b == 100.0 * (a - b);
  }

  /**
   * In every reachable state whose progress events were honest, the report, when it has a value, lies between 0 and
   * 100, and it is 100 if and only if every active file is fully sent.
   */
  lemma TotalProgressIsAPercentage<F>(o: Options, es: seq<Event<F>>)
    requires Feasible(o, Init<F>(), es) && forall e | e in es :: Honest(e)
    ensures var s := Run(o, Init<F>(), es);
      && (Report(s) == None <==> ActiveFiles(s) != [] && TotalBytes(s, ActiveFiles(s)) == 0)
      && (Report(s).Some? ==>
            && 0.0 <= Report(s).value <= 100.0
            && (Report(s).value == 100.0 <==> forall f | f in ActiveFiles(s) :: s.Of(f).bytesSent == s.Of(f).total))
  {
    var s := Run(o, Init<F>(), es);
    EveryRunIsGood(o, es);
    InitInv<F>(o);
    RunBounded(o, Init<F>(), es);
    var fs := ActiveFiles(s);
    SentWithinTotal(s, fs);
    if TotalBytes(s, fs) > 0 {
      PercentRange(SentBytes(s, fs), TotalBytes(s, fs));
    }
  }
}
