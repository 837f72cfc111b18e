/**
 * The thumbnail workers. The queue hangs on the prototype, so all Dropzone instances share it; the flag that keeps
 * an instance to one thumbnail at a time is its own.
 */
module Thumbnails {
  import opened Collections
  import opened FileTypes
  import Text

  datatype Settings = Settings(createImageThumbnails: bool, maxThumbnailFilesize: real)

  predicate Eligible(c: Settings, d: Desc) {
    && c.createImageThumbnails && Text.OccursFrom(d.mime, "image", 0)
    && d.size as real <= c.maxThumbnailFilesize * 1024.0 * 1024.0
  }

  /** Thumbnails are made of files whose type has the word image anywhere in it, up to the size limit in MiB. */
  lemma EligibleExactly(c: Settings, d: Desc)
    ensures Eligible(c, d) <==>
      && c.createImageThumbnails && d.size as real <= c.maxThumbnailFilesize * 1048576.0
      && exists a, b :: d.mime == a + "image" + b
  {
    var word := "image";
    if Text.OccursFrom(d.mime, word, 0) {
      var p :| 0 <= p <= |d.mime| && Text.OccursAt(d.mime, word, p);
      assert d.mime == d.mime[..p] + "image" + d.mime[p + |word|..];
    }
    forall a: string, b: string | d.mime == a + "image" + b ensures Text.OccursAt(d.mime, word, |a|) {
    }
  }

  /** A file put on the shared queue, and the instance it was added to; the script keeps only the file. */
  datatype Offer<I, F> = Offer(file: F, owner: I)

  /**
   * queue is what still waits of everything enqueued, handed says to which instance each file begun was given; current
   * says which of the enqueued files each busy instance is at, and finished lists those created, both by position.
   */
  datatype Bench<I(==), F> = Bench(enqueued: seq<Offer<I, F>>, queue: seq<Offer<I, F>>, handed: seq<I>,
                                   current: map<I, nat>, finished: seq<nat>, timers: multiset<I>)
  {
    function Head(): int { |enqueued| - |queue| }
  }

  function Empty<I(==), F>(): Bench<I, F> { Bench([], [], [], map[], [], multiset{}) }

  function FilesOf<I, F>(offers: seq<Offer<I, F>>): seq<F> {
    seq(|offers|, k requires 0 <= k < |offers| => offers[k].file)
  }

  function Enqueue<I(==), F>(c: Settings, b: Bench<I, F>, i: I, f: F, d: Desc): Bench<I, F> {
    if Eligible(c, d) then
      b.(enqueued := b.enqueued + [Offer(f, i)], queue := b.queue + [Offer(f, i)], timers := b.timers + multiset{i})
    else b
  }

  function Process<I(==), F>(b: Bench<I, F>, i: I): Bench<I, F>
    requires |b.queue| <= |b.enqueued|
  {
    if i in b.current || b.queue == [] then b
    else b.(queue := b.queue[1..], handed := b.handed + [i], current := b.current[i := b.Head()])
  }

  function Tick<I(==), F>(b: Bench<I, F>, i: I): Bench<I, F>
    requires |b.queue| <= |b.enqueued|
  {
    Process(b.(timers := b.timers - multiset{i}), i)
  }

  function Created<I(==), F>(b: Bench<I, F>, i: I): Bench<I, F>
    requires |b.queue| <= |b.enqueued| && i in b.current
  {
    Process(b.(finished := b.finished + [b.current[i]], current := b.current - {i}), i)
  }

  // ----- the invariant -----

  /**
   * The first Head() enqueued files have been begun, in that order: each is finished once or in exactly one
   * instance's hands.
   */
  ghost predicate Accounted<I, F>(b: Bench<I, F>) {
    && |b.queue| <= |b.enqueued| && b.queue == b.enqueued[b.Head()..]
    && |b.handed| == b.Head() && Distinct(b.finished)
    && (forall k | k in b.finished :: k < b.Head())
    && (forall i | i in b.current ::
          b.current[i] < b.Head() && b.current[i] !in b.finished && b.handed[b.current[i]] == i)
    && (forall i, j | i in b.current && j in b.current && i != j :: b.current[i] != b.current[j])
    && (forall k: nat | k < b.Head() :: k in b.finished || k in b.current.Values)
  }

  /** Waiting files are never forgotten: a timer is pending or some instance is at work. */
  ghost predicate Attended<I, F>(b: Bench<I, F>) {
    b.queue != [] ==> b.timers != multiset{} || b.current != map[]
  }

  ghost predicate Good<I, F>(b: Bench<I, F>) { Accounted(b) && Attended(b) }

  lemma EnqueueGood<I, F>(c: Settings, b: Bench<I, F>, i: I, f: F, d: Desc)
    requires Good(b)
    ensures Good(Enqueue(c, b, i, f, d))
  {
    var t := Enqueue(c, b, i, f, d);
    if t != b {
      assert t.enqueued[t.Head()..] == b.enqueued[b.Head()..] + [Offer(f, i)];
      assert i in t.timers;
    }
  }

  lemma ProcessAccounted<I, F>(b: Bench<I, F>, i: I)
    requires Accounted(b)
    ensures Accounted(Process(b, i)) && (Process(b, i).queue != [] ==> i in Process(b, i).current)
  {
    var t := Process(b, i);
    if t != b {
      assert t.queue == b.enqueued[b.Head()..][1..];
      forall k: nat | k < t.Head() ensures k in t.finished || k in t.current.Values {
        if k == b.Head() {
          assert t.current[i] == k;
        } else if k in b.current.Values {
          var j :| j in b.current && b.current[j] == k;
          assert t.current[j] == k;
        }
      }
    }
  }

  lemma TickGood<I, F>(b: Bench<I, F>, i: I)
    requires Good(b)
    ensures Good(Tick(b, i))
  {
    ProcessAccounted(b.(timers := b.timers - multiset{i}), i);
  }

  lemma HandOver<I, F>(b: Bench<I, F>, i: I)
    requires Accounted(b) && i in b.current
    ensures Accounted(b.(finished := b.finished + [b.current[i]], current := b.current - {i}))
  {
    var t := b.(finished := b.finished + [b.current[i]], current := b.current - {i});
    forall k: nat | k < t.Head() ensures k in t.finished || k in t.current.Values {
      if k !in b.finished && k != b.current[i] {
        var j :| j in b.current && b.current[j] == k;
        assert t.current[j] == k;
      } else {
        assert k in b.finished || k == t.finished[|b.finished|];
      }
    }
  }

  lemma CreatedGood<I, F>(b: Bench<I, F>, i: I)
    requires Good(b) && i in b.current
    ensures Good(Created(b, i))
  {
    HandOver(b, i);
    ProcessAccounted(b.(finished := b.finished + [b.current[i]], current := b.current - {i}), i);
  }

  // ----- one instance -----

  /** With a single instance, work is finished in the order it was enqueued. */
  ghost predicate Alone<I, F>(b: Bench<I, F>, me: I) {
    && b.current.Keys <= {me}
    && (forall k | 0 <= k < |b.finished| :: b.finished[k] == k)
    && b.Head() == |b.finished| + |b.current|
    && (me in b.current ==> b.current[me] == |b.finished|)
  }

  /** The files whose thumbnails are done, in the order they were done. */
  function CreatedFiles<I, F>(b: Bench<I, F>): seq<Offer<I, F>>
    requires forall j | 0 <= j < |b.finished| :: b.finished[j] < |b.enqueued|
  {
    seq(|b.finished|, j requires 0 <= j < |b.finished| => b.enqueued[b.finished[j]])
  }

  /** Finished, then in creation, then waiting: together exactly what was enqueued, in order. */
  lemma NothingLostOrReordered<I, F>(b: Bench<I, F>, me: I)
    requires |b.queue| <= |b.enqueued| && b.queue == b.enqueued[b.Head()..] && Alone(b, me)
    ensures forall j | 0 <= j < |b.finished| :: b.finished[j] < |b.enqueued|
    ensures b.enqueued == CreatedFiles(b) + (if me in b.current then [b.enqueued[b.current[me]]] else []) + b.queue
  {
    assert b.current.Keys == if me in b.current then {me} else {};
    assert |b.current| == |b.current.Keys|;
    assert CreatedFiles(b) == b.enqueued[..|b.finished|];
  }

  lemma ProcessAlone<I, F>(b: Bench<I, F>, me: I)
    requires |b.queue| <= |b.enqueued| && Alone(b, me)
    ensures Alone(Process(b, me), me)
  {
    if me !in b.current {
      assert b.current.Keys == {};
      assert b.current == map[];
    }
  }

  lemma OfferAlone<I, F>(c: Settings, b: Bench<I, F>, me: I, f: F, d: Desc)
    requires Alone(b, me)
    ensures Alone(Enqueue(c, b, me, f, d), me)
  {
  }

  lemma TickAlone<I, F>(b: Bench<I, F>, me: I)
    requires |b.queue| <= |b.enqueued| && Alone(b, me)
    ensures Alone(Tick(b, me), me)
  {
    ProcessAlone(b.(timers := b.timers - multiset{me}), me);
  }

  lemma CreatedAlone<I, F>(b: Bench<I, F>, me: I)
    requires |b.queue| <= |b.enqueued| && Alone(b, me) && me in b.current
    ensures Alone(Created(b, me), me)
  {
    var t := b.(finished := b.finished + [b.current[me]], current := b.current - {me});
    assert b.current.Keys == {me} && |b.current| == |b.current.Keys|;
    assert t.current == map[];
    ProcessAlone(t, me);
  }

  // ----- runs, with options of each instance's own -----

  /** A file is offered for a thumbnail, a timer fires, or an instance's thumbnail is done. */
  datatype Event<I, F> = Offers(worker: I, file: F, desc: Desc) | Ticks(worker: I) | Creates(worker: I)

  ghost predicate Possible<I, F>(b: Bench<I, F>, e: Event<I, F>) {
    match e
    case Offers(_, _, _) => true
    case Ticks(i) => i in b.timers
    case Creates(i) => i in b.current
  }

  ghost function Step<I, F>(c: I -> Settings, b: Bench<I, F>, e: Event<I, F>): Bench<I, F>
    requires Good(b) && Possible(b, e)
    ensures Good(Step(c, b, e))
  {
    match e
    case Offers(i, f, d) => EnqueueGood(c(i), b, i, f, d); Enqueue(c(i), b, i, f, d)
    case Ticks(i) => TickGood(b, i); Tick(b, i)
    case Creates(i) => CreatedGood(b, i); Created(b, i)
  }

  ghost predicate Feasible<I, F>(c: I -> Settings, b: Bench<I, F>, es: seq<Event<I, F>>)
    requires Good(b)
    decreases |es|
  {
    es == [] || (Possible(b, es[0]) && Feasible(c, Step(c, b, es[0]), es[1..]))
  }

  ghost function Run<I, F>(c: I -> Settings, b: Bench<I, F>, es: seq<Event<I, F>>): Bench<I, F>
    requires Good(b) && Feasible(c, b, es)
    ensures Good(Run(c, b, es))
    decreases |es|
  {
    if es == [] then b else Run(c, Step(c, b, es[0]), es[1..])
  }

  /** The files offered in a run that are eligible by the options of the instance they are offered to, in order. */
  function Offered<I, F>(c: I -> Settings, es: seq<Event<I, F>>): seq<Offer<I, F>> {
    if es == [] then [] else OfferedBy(c, es[0]) + Offered(c, es[1..])
  }

  function OfferedBy<I, F>(c: I -> Settings, e: Event<I, F>): seq<Offer<I, F>> {
    if e.Offers? && Eligible(c(e.worker), e.desc) then [Offer(e.file, e.worker)] else []
  }

  lemma StepEnqueues<I, F>(c: I -> Settings, b: Bench<I, F>, e: Event<I, F>)
    requires Good(b) && Possible(b, e)
    ensures Step(c, b, e).enqueued == b.enqueued + OfferedBy(c, e)
  {
  }

  /** Nothing is enqueued but what was offered, whoever offered it. */
  lemma {:induction false} RunEnqueues<I, F>(c: I -> Settings, b: Bench<I, F>, es: seq<Event<I, F>>)
    requires Good(b) && Feasible(c, b, es)
    ensures Run(c, b, es).enqueued == b.enqueued + Offered(c, es)
    decreases |es|
  {
    hide Step, Good, OfferedBy;
    if es != [] {
      StepEnqueues(c, b, es[0]);
      RunEnqueues(c, Step(c, b, es[0]), es[1..]);
      assert Offered(c, es) == OfferedBy(c, es[0]) + Offered(c, es[1..]);
    }
  }

  /** Every event of a single instance keeps it so. */
  lemma AloneStays<I, F>(c: I -> Settings, b: Bench<I, F>, me: I, e: Event<I, F>)
    requires Good(b) && Possible(b, e)
    ensures Alone(b, me) && e.worker == me ==> Alone(Step(c, b, e), me)
  {
    hide Alone;
    if Alone(b, me) && e.worker == me {
      match e
      case Offers(_, f, d) => OfferAlone(c(me), b, me, f, d);
      case Ticks(_) => TickAlone(b, me);
      case Creates(_) => CreatedAlone(b, me);
    }
  }

  lemma {:induction false} RunAlone<I, F>(c: I -> Settings, b: Bench<I, F>, me: I, es: seq<Event<I, F>>)
    requires Good(b) && Feasible(c, b, es)
    ensures Alone(b, me) && AllFor(me, es) ==> Alone(Run(c, b, es), me)
    decreases |es|
  {
    hide Good, Step, Alone;
    if es != [] && Alone(b, me) && AllFor(me, es) {
      var e := es[0];
      assert e in es && AllFor(me, es[1..]);
      AloneStays(c, b, me, e);
      RunAlone(c, Step(c, b, e), me, es[1..]);
    }
  }

  /** Every event of the run is for this instance. */
  ghost predicate AllFor<I, F>(me: I, es: seq<Event<I, F>>) { forall e | e in es :: e.worker == me }

  /**
   * For a single instance, after any run: the thumbnails created, the one in creation, and those waiting are exactly
   * the eligible files offered, in that order; and if any wait, a timer is pending or one is in creation.
   */
  lemma RunKeepsOrder<I, F>(c: I -> Settings, me: I, es: seq<Event<I, F>>)
    requires Feasible(c, Empty<I, F>(), es) && AllFor(me, es)
    ensures var b := Run(c, Empty<I, F>(), es);
      && b.current.Keys <= {me} && (me in b.current ==> b.current[me] < |b.enqueued|)
      && (forall j | 0 <= j < |b.finished| :: b.finished[j] < |b.enqueued|)
      && Offered(c, es) == CreatedFiles(b) + (if me in b.current then [b.enqueued[b.current[me]]] else []) + b.queue
      && (b.queue != [] ==> b.timers != multiset{} || me in b.current)
  {
    var b := Run(c, Empty<I, F>(), es);
    hide Run, Feasible, Alone, Good, Offered;
    EmptyIsAlone<I, F>(me);
    RunAlone(c, Empty<I, F>(), me, es);
    RunEnqueues(c, Empty<I, F>(), es);
    AloneSummary(b, me);
  }

  lemma EmptyIsAlone<I, F>(me: I)
    ensures var b := Empty<I, F>(); Good(b) && Alone(b, me) && b.enqueued == []
  {
  }

  lemma AloneSummary<I, F>(b: Bench<I, F>, me: I)
    requires Good(b)
    ensures Alone(b, me) ==>
      && b.current.Keys <= {me} && (me in b.current ==> b.current[me] < |b.enqueued|)
      && (forall j | 0 <= j < |b.finished| :: b.finished[j] < |b.enqueued|)
      && b.enqueued == CreatedFiles(b) + (if me in b.current then [b.enqueued[b.current[me]]] else []) + b.queue
      && (b.queue != [] ==> b.timers != multiset{} || me in b.current)
  {
    if Alone(b, me) {
      NothingLostOrReordered(b, me);
      assert b.current != map[] ==> exists i :: i in b.current;
    }
  }

  // ----- the workers -----

  /** The shared queue, which holds files alone, and the instances' flags, updated in place. */
  class Workshop<I(==), F> {
    const settings: I -> Settings
    var queue: seq<F>
    var processing: set<I>
    ghost var bench: Bench<I, F>

    constructor (c: I -> Settings)
      ensures settings == c && Valid() && bench == Empty()
    {
      settings, queue, processing := c, [], {};
      bench := Empty();
    }

    ghost predicate Tied()
      reads this
    {
      queue == FilesOf(bench.queue) && processing == bench.current.Keys
    }

    ghost predicate Valid()
      reads this
    {
      Tied() && Good(bench)
    }

    method EnqueueThumbnail(i: I, f: F, d: Desc)
      requires Valid()
      modifies this
      ensures Valid() && bench == Enqueue(settings(i), old(bench), i, f, d)
    {
      EnqueueGood(settings(i), bench, i, f, d);
      if Eligible(settings(i), d) {
        queue := queue + [f];
      }
      bench := Enqueue(settings(i), bench, i, f, d);
    }

    /** Returns the file handed to createThumbnail, if one is. */
    method ProcessThumbnailQueue(i: I) returns (next: Option<F>)
      requires Tied() && Accounted(bench)
      modifies this
      ensures Tied() && bench == Process(old(bench), i)
      ensures next == if i in old(processing) || old(queue) == [] then None else Some(old(queue)[0])
    {
      if i in processing || queue == [] {
        return None;
      }
      processing := processing + {i};
      next := Some(queue[0]);
      bench := Process(bench, i);
      queue := queue[1..];
    }

    method OnTimer(i: I) returns (next: Option<F>)
      requires Valid() && i in bench.timers
      modifies this
      ensures Valid() && bench == Tick(old(bench), i)
      ensures next == if i in old(processing) || old(queue) == [] then None else Some(old(queue)[0])
    {
      TickGood(bench, i);
      bench := bench.(timers := bench.timers - multiset{i});
      next := ProcessThumbnailQueue(i);
    }

    /** The callback of createThumbnail. */
    method OnCreated(i: I) returns (next: Option<F>)
      requires Valid() && i in processing
      modifies this
      ensures Valid() && bench == Created(old(bench), i)
      ensures next == if old(queue) == [] then None else Some(old(queue)[0])
    {
      CreatedGood(bench, i);
      HandOver(bench, i);
      processing := processing - {i};
      bench := bench.(finished := bench.finished + [bench.current[i]], current := bench.current - {i});
      next := ProcessThumbnailQueue(i);
    }
  }
}
