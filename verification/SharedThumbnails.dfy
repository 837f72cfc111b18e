/** Several instances on the one thumbnail queue: what a single instance is sure of, and exactly when it is lost. */
module SharedThumbnails {
  import opened Collections
  import opened FileTypes
  import opened Thumbnails

  // ----- over runs -----

  type Test<!I(!new), !F(!new)> = Bench<I, F> -> bool
  type Hazard<!I(!new), !F(!new)> = (Bench<I, F>, Event<I, F>) -> bool

  /** Some event of the run is a hazard in the state it comes upon. */
  ghost predicate Ever<I(!new), F(!new)>(c: I -> Settings, b: Bench<I, F>, es: seq<Event<I, F>>, bad: Hazard<I, F>)
    requires Good(b) && Feasible(c, b, es)
    decreases |es|
  {
    es != [] && (bad(b, es[0]) || Ever(c, Step(c, b, es[0]), es[1..], bad))
  }

  /** The test holds at every point of the run. */
  ghost predicate Throughout<I(!new), F(!new)>(c: I -> Settings, b: Bench<I, F>, es: seq<Event<I, F>>, ok: Test<I, F>)
    requires Good(b) && Feasible(c, b, es)
    decreases |es|
  {
    ok(b) && (es == [] || Throughout(c, Step(c, b, es[0]), es[1..], ok))
  }

  /** What an event breaks exactly if it is a hazard holds throughout a run if and only if no event of it is one. */
  lemma {:induction false} ThroughoutExactly<I(!new), F(!new)>(c: I -> Settings, b: Bench<I, F>, es: seq<Event<I, F>>,
                                                                ok: Test<I, F>, bad: Hazard<I, F>)
    requires Good(b) && Feasible(c, b, es) && ok(b)
    requires forall x, e | Good(x) && Possible(x, e) && ok(x) :: ok(Step(c, x, e)) <==> !bad(x, e)
    ensures Throughout(c, b, es, ok) <==> !Ever(c, b, es, bad)
    decreases |es|
  {
    hide Step, Good, Possible;
    if es != [] && ok(Step(c, b, es[0])) {
      ThroughoutExactly(c, Step(c, b, es[0]), es[1..], ok, bad);
    }
  }

  /** And if what is once broken is never mended, it is enough to look at the end of the run. */
  lemma {:induction false} AtTheEndExactly<I(!new), F(!new)>(c: I -> Settings, b: Bench<I, F>, es: seq<Event<I, F>>,
                                                              ok: Test<I, F>, bad: Hazard<I, F>)
    requires Good(b) && Feasible(c, b, es)
    requires forall x, e | Good(x) && Possible(x, e) :: ok(Step(c, x, e)) <==> ok(x) && !bad(x, e)
    ensures ok(Run(c, b, es)) <==> ok(b) && !Ever(c, b, es, bad)
    decreases |es|
  {
    hide Step, Good, Possible;
    if es != [] {
      AtTheEndExactly(c, Step(c, b, es[0]), es[1..], ok, bad);
    }
  }

  // ----- done in the order of the queue -----

  /** The thumbnails done are the first ones enqueued, in order. */
  ghost predicate InTurn<I, F>(b: Bench<I, F>) { forall k | 0 <= k < |b.finished| :: b.finished[k] == k }

  /** An instance is done while another is still at a file begun before. */
  ghost predicate Overtakes<I(!new), F>(b: Bench<I, F>, e: Event<I, F>) {
    e.Creates? && e.worker in b.current && exists j | j in b.current :: b.current[j] < b.current[e.worker]
  }

  /** With every thumbnail done in turn, the one in hand is next unless an earlier one is in another's hands. */
  lemma NextInTurn<I(!new), F>(b: Bench<I, F>, i: I)
    requires Accounted(b) && InTurn(b) && i in b.current
    ensures b.current[i] == |b.finished| <==> !exists j | j in b.current :: b.current[j] < b.current[i]
  {
    var n := |b.finished|;
    forall k: nat | k < n ensures k in b.finished {
      assert b.finished[k] == k;
    }
    if b.current[i] > n {
      assert n in b.current.Values;
    }
  }

  /** A good state in which everything was done in turn is left if and only if the event overtakes. */
  lemma StepInTurn<I(!new), F(!new)>(c: I -> Settings, b: Bench<I, F>, e: Event<I, F>)
    requires Good(b) && Possible(b, e)
    ensures InTurn(Step(c, b, e)) <==> InTurn(b) && !Overtakes(b, e)
  {
    var t := Step(c, b, e);
    if e.Creates? {
      assert t.finished == b.finished + [b.current[e.worker]];
      OneMoreInTurn(b.finished, b.current[e.worker]);
      if InTurn(b) {
        NextInTurn(b, e.worker);
      }
    } else {
      assert t.finished == b.finished;
    }
  }

  lemma OneMoreInTurn(s: seq<nat>, x: nat)
    ensures (forall k | 0 <= k < |s + [x]| :: (s + [x])[k] == k) <==> (forall k | 0 <= k < |s| :: s[k] == k) && x == |s|
  {
    var t := s + [x];
    assert t[|s|] == x && forall k | 0 <= k < |s| :: t[k] == s[k];
  }

  /** Over any run of any instances: thumbnails are done in the order of the queue if and only if no event overtakes. */
  lemma DoneInTurnExactly<I(!new), F(!new)>(c: I -> Settings, es: seq<Event<I, F>>)
    requires Feasible(c, Empty<I, F>(), es)
    ensures InTurn(Run(c, Empty<I, F>(), es)) <==> !Ever(c, Empty<I, F>(), es, (x, e) => Overtakes(x, e))
  {
    forall x: Bench<I, F>, e | Good(x) && Possible(x, e)
      ensures InTurn(Step(c, x, e)) <==> InTurn(x) && !Overtakes(x, e)
    {
      StepInTurn(c, x, e);
    }
    AtTheEndExactly(c, Empty<I, F>(), es, x => InTurn(x), (x, e) => Overtakes(x, e));
  }

  // ----- one at a time -----

  /** No two instances are at work. */
  ghost predicate AtMostOne<I(!new), F>(b: Bench<I, F>) { forall i, j | i in b.current && j in b.current :: i == j }

  /** A timer of a free instance finds a file waiting while another instance is at work. */
  ghost predicate Joins<I(!new), F>(b: Bench<I, F>, e: Event<I, F>) {
    e.Ticks? && e.worker !in b.current && b.current != map[] && b.queue != []
  }

  lemma StepOneAtATime<I(!new), F(!new)>(c: I -> Settings, b: Bench<I, F>, e: Event<I, F>)
    requires Good(b) && Possible(b, e) && AtMostOne(b)
    ensures AtMostOne(Step(c, b, e)) <==> !Joins(b, e)
  {
    hide Accounted, Attended, Created, Tick;
    if e.Creates? {
      CreatedStep(c, b, e.worker);
      CreatedAlready(b, e.worker);
    } else if e.Ticks? {
      TickStep(c, b, e.worker);
      TickJoins(b, e.worker);
    }
  }

  lemma CreatedAlready<I(!new), F>(b: Bench<I, F>, i: I)
    requires |b.queue| <= |b.enqueued| && i in b.current && AtMostOne(b)
    ensures AtMostOne(Created(b, i))
  {
  }

  lemma TickJoins<I(!new), F>(b: Bench<I, F>, i: I)
    requires |b.queue| <= |b.enqueued| && AtMostOne(b)
    ensures AtMostOne(Tick(b, i)) <==> !Joins(b, Ticks(i))
  {
    if Joins(b, Ticks(i)) {
      var j :| j in b.current;
      assert i in Tick(b, i).current && j in Tick(b, i).current && i != j;
    }
    assert b.current == map[] <==> forall j :: j !in b.current;
  }

  /** Over any run: never more than one thumbnail in creation, over all instances, if and only if none joins another. */
  lemma OneAtATimeExactly<I(!new), F(!new)>(c: I -> Settings, es: seq<Event<I, F>>)
    requires Feasible(c, Empty<I, F>(), es)
    ensures Throughout(c, Empty<I, F>(), es, x => AtMostOne(x))
      <==> !Ever(c, Empty<I, F>(), es, (x, e) => Joins(x, e))
  {
    forall x: Bench<I, F>, e | Good(x) && Possible(x, e) && AtMostOne(x)
      ensures AtMostOne(Step(c, x, e)) <==> !Joins(x, e)
    {
      StepOneAtATime(c, x, e);
    }
    ThroughoutExactly(c, Empty<I, F>(), es, x => AtMostOne(x), (x, e) => Joins(x, e));
  }

  // ----- whose file, and in whose hands -----

  /** The event makes an instance begin the oldest waiting file. */
  ghost predicate HandsOut<I(!new), F>(b: Bench<I, F>, e: Event<I, F>) {
    b.queue != [] && ((e.Ticks? && e.worker !in b.current) || e.Creates?)
  }

  /**
   * A file is begun exactly then, by the instance the event is for and with its options, whoever the file belongs to.
   */
  lemma HandedExactly<I(!new), F(!new)>(c: I -> Settings, b: Bench<I, F>, e: Event<I, F>)
    requires Good(b) && Possible(b, e)
    ensures Step(c, b, e).handed == b.handed + if HandsOut(b, e) then [e.worker] else []
    ensures HandsOut(b, e) ==> b.enqueued[|b.handed|] == b.queue[0] && Step(c, b, e).current[e.worker] == |b.handed|
  {
  }

  /** Every file begun was handed to the instance it was added to. */
  ghost predicate AllOwn<I, F>(b: Bench<I, F>) {
    |b.handed| <= |b.enqueued| && forall k | 0 <= k < |b.handed| :: b.handed[k] == b.enqueued[k].owner
  }

  /** The oldest waiting file goes to another instance than its own. */
  ghost predicate Misroutes<I(!new), F>(b: Bench<I, F>, e: Event<I, F>) {
    HandsOut(b, e) && b.queue[0].owner != e.worker
  }

  lemma StepOwn<I(!new), F(!new)>(c: I -> Settings, b: Bench<I, F>, e: Event<I, F>)
    requires Good(b) && Possible(b, e)
    ensures AllOwn(Step(c, b, e)) <==> AllOwn(b) && !Misroutes(b, e)
  {
    hide Step, Attended;
    var t, n := Step(c, b, e), |b.handed|;
    HandedExactly(c, b, e);
    StepEnqueues(c, b, e);
    assert forall k | 0 <= k < n :: t.handed[k] == b.handed[k] && t.enqueued[k] == b.enqueued[k];
    if HandsOut(b, e) {
      assert t.handed[n] == e.worker && t.enqueued[n] == b.queue[0];
    }
  }

  /** Over any run: every instance made only the thumbnails of its own files if and only if no event misroutes one. */
  lemma OwnFilesExactly<I(!new), F(!new)>(c: I -> Settings, es: seq<Event<I, F>>)
    requires Feasible(c, Empty<I, F>(), es)
    ensures AllOwn(Run(c, Empty<I, F>(), es)) <==> !Ever(c, Empty<I, F>(), es, (x, e) => Misroutes(x, e))
  {
    forall x: Bench<I, F>, e | Good(x) && Possible(x, e)
      ensures AllOwn(Step(c, x, e)) <==> AllOwn(x) && !Misroutes(x, e)
    {
      StepOwn(c, x, e);
    }
    AtTheEndExactly(c, Empty<I, F>(), es, x => AllOwn(x), (x, e) => Misroutes(x, e));
  }

  // ----- runs that get there -----

  lemma {:induction false} RunPlus<I(!new), F(!new)>(c: I -> Settings, b: Bench<I, F>, es: seq<Event<I, F>>,
                                                      e: Event<I, F>)
    requires Good(b) && Feasible(c, b, es) && Possible(Run(c, b, es), e)
    ensures Feasible(c, b, es + [e]) && Run(c, b, es + [e]) == Step(c, Run(c, b, es), e)
    decreases |es|
  {
    hide Step, Possible, Good;
    var more := es + [e];
    if es == [] {
      assert more == [e] && more[1..] == [];
      assert Feasible(c, Step(c, b, e), []);
    } else {
      assert more[0] == es[0] && more[1..] == es[1..] + [e];
      RunPlus(c, Step(c, b, es[0]), es[1..], e);
    }
  }

  /** The run so far ends in b; an eligible file is offered next. */
  lemma ThenOffer<I(!new), F(!new)>(c: I -> Settings, es: seq<Event<I, F>>, b: Bench<I, F>, i: I, f: F, d: Desc)
    requires Feasible(c, Empty(), es) && Run(c, Empty(), es) == b && Eligible(c(i), d)
    ensures Feasible(c, Empty(), es + [Offers(i, f, d)])
    ensures Run(c, Empty(), es + [Offers(i, f, d)]) ==
      var x := [Offer(f, i)];
      b.(enqueued := b.enqueued + x, queue := b.queue + x, timers := b.timers + multiset{i})
  {
    hide Good, Step, Run, Feasible;
    EmptyIsGood<I, F>();
    OfferStep(c, b, i, f, d);
    RunPlus(c, Empty(), es, Offers(i, f, d));
  }

  lemma EmptyIsGood<I(!new), F(!new)>()
    ensures Good(Empty<I, F>())
  {
  }

  lemma OfferStep<I(!new), F(!new)>(c: I -> Settings, b: Bench<I, F>, i: I, f: F, d: Desc)
    requires Good(b)
    ensures Step(c, b, Offers(i, f, d)) == Enqueue(c(i), b, i, f, d)
  {
    hide Good;
  }

  lemma TickStep<I(!new), F(!new)>(c: I -> Settings, b: Bench<I, F>, i: I)
    requires Good(b) && i in b.timers
    ensures |b.queue| <= |b.enqueued| && Step(c, b, Ticks(i)) == Tick(b, i)
  {
  }

  lemma NothingYet<I(!new), F(!new)>(c: I -> Settings)
    ensures Good(Empty<I, F>()) && Feasible(c, Empty<I, F>(), []) && Run(c, Empty<I, F>(), []) == Empty()
  {
  }

  lemma OneOffer<I(!new), F(!new)>(c: I -> Settings, i: I, f: F, d: Desc)
    requires Eligible(c(i), d)
    ensures Feasible(c, Empty(), [Offers(i, f, d)])
    ensures Run(c, Empty(), [Offers(i, f, d)]) == Bench([Offer(f, i)], [Offer(f, i)], [], map[], [], multiset{i})
  {
    hide Run, Feasible, Good;
    NothingYet<I, F>(c);
    ThenOffer(c, [], Empty<I, F>(), i, f, d);
    assert [] + [Offers(i, f, d)] == [Offers(i, f, d)] && [] + [Offer(f, i)] == [Offer(f, i)];
  }

  /** Two files are offered to begin with. */
  lemma TwoOffers<I(!new), F(!new)>(c: I -> Settings, i: I, f: F, d: Desc, j: I, g: F, e: Desc)
    requires Eligible(c(i), d) && Eligible(c(j), e)
    ensures Feasible(c, Empty(), [Offers(i, f, d), Offers(j, g, e)])
    ensures var offers := [Offer(f, i), Offer(g, j)];
      Run(c, Empty(), [Offers(i, f, d), Offers(j, g, e)]) == Bench(offers, offers, [], map[], [], multiset{i, j})
  {
    hide Run, Feasible, Good;
    OneOffer(c, i, f, d);
    ThenOffer(c, [Offers(i, f, d)], Bench([Offer(f, i)], [Offer(f, i)], [], map[], [], multiset{i}), j, g, e);
    assert [Offers(i, f, d)] + [Offers(j, g, e)] == [Offers(i, f, d), Offers(j, g, e)];
    assert [Offer(f, i)] + [Offer(g, j)] == [Offer(f, i), Offer(g, j)];
  }

  /** The run so far ends in b; a timer fires next. */
  lemma ThenTick<I(!new), F(!new)>(c: I -> Settings, es: seq<Event<I, F>>, b: Bench<I, F>, i: I)
    requires Feasible(c, Empty(), es) && Run(c, Empty(), es) == b && i in b.timers
    ensures Feasible(c, Empty(), es + [Ticks(i)]) && |b.queue| <= |b.enqueued|
    ensures Run(c, Empty(), es + [Ticks(i)]) == Tick(b, i)
  {
    hide Good, Step, Run, Feasible;
    EmptyIsGood<I, F>();
    TickStep(c, b, i);
    RunPlus(c, Empty(), es, Ticks(i));
  }

  /** Two instances with a file each are at work at once. */
  lemma TwoAtWork<I(!new), F(!new)>(c: I -> Settings, i: I, f: F, d: Desc, j: I, g: F, e: Desc)
    requires i != j && Eligible(c(i), d) && Eligible(c(j), e)
    ensures var es := [Offers(i, f, d), Offers(j, g, e), Ticks(i), Ticks(j)];
      && Feasible(c, Empty(), es)
      && Run(c, Empty(), es) == Bench([Offer(f, i), Offer(g, j)], [], [i, j], map[i := 0, j := 1], [], multiset{})
  {
    hide Run, Feasible, Good;
    var x, y := Offer(f, i), Offer(g, j);
    var es := [Offers(i, f, d), Offers(j, g, e)];
    var b := Bench([x, y], [x, y], [], map[], [], multiset{i, j});
    TwoOffers(c, i, f, d, j, g, e);
    ThenTick(c, es, b, i);
    assert Tick(b, i) == Bench([x, y], [y], [i], map[i := 0], [], multiset{j});
    ThenTick(c, es + [Ticks(i)], Bench([x, y], [y], [i], map[i := 0], [], multiset{j}), j);
    assert es + [Ticks(i)] + [Ticks(j)] == [Offers(i, f, d), Offers(j, g, e), Ticks(i), Ticks(j)];
  }

  lemma CreatedStep<I(!new), F(!new)>(c: I -> Settings, b: Bench<I, F>, i: I)
    requires Good(b) && i in b.current
    ensures |b.queue| <= |b.enqueued| && Step(c, b, Creates(i)) == Created(b, i)
  {
  }

  /** And if the second is done first, the thumbnails are done out of turn. */
  lemma TwoOutOfTurn<I(!new), F(!new)>(c: I -> Settings, i: I, f: F, d: Desc, j: I, g: F, e: Desc)
    requires i != j && Eligible(c(i), d) && Eligible(c(j), e)
    ensures var es := [Offers(i, f, d), Offers(j, g, e), Ticks(i), Ticks(j), Creates(j), Creates(i)];
      Feasible(c, Empty(), es) && Run(c, Empty(), es).finished == [1, 0]
  {
    hide Run, Feasible, Good, Step;
    var es := [Offers(i, f, d), Offers(j, g, e), Ticks(i), Ticks(j)];
    EmptyIsGood<I, F>();
    TwoAtWork(c, i, f, d, j, g, e);
    var b := Run(c, Empty<I, F>(), es);
    CreatedStep(c, b, j);
    RunPlus(c, Empty<I, F>(), es, Creates(j));
    CreatedStep(c, Step(c, b, Creates(j)), i);
    RunPlus(c, Empty<I, F>(), es + [Creates(j)], Creates(i));
    assert es + [Creates(j)] + [Creates(i)]
        == [Offers(i, f, d), Offers(j, g, e), Ticks(i), Ticks(j), Creates(j), Creates(i)];
  }

  /**
   * Even if timers fire in the order they were set: of two files of one instance and then one of another, the other
   * instance gets the second.
   */
  lemma SecondFileMisrouted<I(!new), F(!new)>(c: I -> Settings, i: I, f: F, d: Desc, f2: F, d2: Desc,
                                               j: I, g: F, e: Desc)
    requires i != j && Eligible(c(i), d) && Eligible(c(i), d2) && Eligible(c(j), e)
    ensures var es := [Offers(i, f, d), Offers(i, f2, d2), Offers(j, g, e), Ticks(i), Ticks(i), Ticks(j)];
      && Feasible(c, Empty(), es)
      && var b := Run(c, Empty(), es); b.handed == [i, j] && b.enqueued == [Offer(f, i), Offer(f2, i), Offer(g, j)]
  {
    hide Run, Feasible, Good;
    var x, y, z := Offer(f, i), Offer(f2, i), Offer(g, j);
    var es := [Offers(i, f, d), Offers(i, f2, d2), Offers(j, g, e)];
    var b := Bench([x, y, z], [x, y, z], [], map[], [], multiset{i, i, j});
    TwoOffers(c, i, f, d, i, f2, d2);
    ThenOffer(c, [Offers(i, f, d), Offers(i, f2, d2)], Bench([x, y], [x, y], [], map[], [], multiset{i, i}), j, g, e);
    assert [Offers(i, f, d), Offers(i, f2, d2)] + [Offers(j, g, e)] == es;
    assert [x, y] + [z] == [x, y, z];
    var b1 := Bench([x, y, z], [y, z], [i], map[i := 0], [], multiset{i, j});
    ThreeTicks(x, y, z, i, j);
    hide Tick;
    ThenTick(c, es, b, i);
    ThenTick(c, es + [Ticks(i)], b1, i);
    ThenTick(c, es + [Ticks(i)] + [Ticks(i)], b1.(timers := multiset{j}), j);
    assert es + [Ticks(i)] + [Ticks(i)] + [Ticks(j)]
        == [Offers(i, f, d), Offers(i, f2, d2), Offers(j, g, e), Ticks(i), Ticks(i), Ticks(j)];
  }

  /** A free instance's timer hands it the oldest waiting file; a busy instance's does nothing. */
  lemma TickHands<I(!new), F>(b: Bench<I, F>, i: I, rest: multiset<I>)
    requires |b.queue| <= |b.enqueued| && b.queue != [] && b.timers == multiset{i} + rest
    ensures Tick(b, i) ==
      if i in b.current then b.(timers := rest)
      else b.(timers := rest, queue := b.queue[1..], handed := b.handed + [i], current := b.current[i := b.Head()])
  {
    assert b.timers - multiset{i} == rest;
  }

  /** Two timers of one instance and one of another, when three files wait. */
  lemma ThreeTicks<I(!new), F>(x: Offer<I, F>, y: Offer<I, F>, z: Offer<I, F>, i: I, j: I)
    requires i != j
    ensures var b, b1 := Bench([x, y, z], [x, y, z], [], map[], [], multiset{i, i, j}),
                         Bench([x, y, z], [y, z], [i], map[i := 0], [], multiset{i, j});
      var b2 := b1.(timers := multiset{j});
      && Tick(b, i) == b1 && Tick(b1, i) == b2
      && Tick(b2, j).handed == [i, j] && Tick(b2, j).enqueued == [x, y, z]
  {
    hide Tick;
    var b1 := Bench([x, y, z], [y, z], [i], map[i := 0], [], multiset{i, j});
    assert multiset{i, i, j} == multiset{i} + multiset{i, j} && [x, y, z][1..] == [y, z] && [] + [i] == [i];
    TickHands(Bench([x, y, z], [x, y, z], [], map[], [], multiset{i, i, j}), i, multiset{i, j});
    TickHands(b1, i, multiset{j});
    TickHands(b1.(timers := multiset{j}), j, multiset{});
  }
}
