/** With one period for everybody, virtual time is a grid, and a message arrives in the step
    it was sent in or just before: what the deterministic simulation test relies on. */
module TimeSyncTicks {
  import opened TimeConfig
  import opened TimeSync
  import opened TimeSyncTheorems
  import opened TimeSyncStart
  import opened DeterministicSim

  predicate OnGrid(t: int)
  {
    t >= 0 && t % PERIOD == 0
  }

  ghost predicate NodeOnGrid(n: Node)
  {
    && n.cfg.next.duration == PERIOD && OnGrid(n.cfg.next.timePoint) && n.cfg.current.timePoint >= -1
    && (n.cfg.current.timePoint == -1 ==> n.cfg.next.timePoint == 0 && !n.executing)
    && (n.cfg.current.timePoint != -1 ==>
          OnGrid(n.cfg.current.timePoint) && n.cfg.next.timePoint == n.cfg.current.timePoint + PERIOD)
    && (forall s :: s in n.published ==> OnGrid(s.stamp))
  }

  ghost predicate AllOnGrid(g: Net)
  {
    forall p {:trigger NodeOnGrid(g[p])} :: p in g ==> NodeOnGrid(g[p])
  }

  lemma ProcessOnGrid(n: Node)
    requires NodeOnGrid(n)
    ensures NodeOnGrid(Process(n))
  {
  }

  lemma StaysOnGrid(g: Net, e: Event)
    requires AllOnGrid(g) && Enabled(g, e) && (e.SetPeriod? ==> e.period == PERIOD)
    ensures AllOnGrid(Apply(g, e))
  {
    var g' := Apply(g, e);
    forall p | p in g' ensures NodeOnGrid(g'[p]) {
      assert p in g && NodeOnGrid(g[p]);
      if p == e.p {
        match e
        case Deliver(_, from) => ReceiveOnGrid(g[p], from);
        case RunDeferred(_) => ProcessOnGrid(g[p].(pending := g[p].pending - 1));
        case _ =>
      }
    }
  }

  lemma ReceiveOnGrid(n: Node, from: Name)
    requires NodeOnGrid(n) && from in n.inbox && n.inbox[from] != []
    ensures NodeOnGrid(Receive(n, from))
  {
    var rest := n.(inbox := n.inbox[from := n.inbox[from][1..]]);
    match n.inbox[from][0]
    case Announce(task) => ProcessOnGrid(rest.(cfg := n.cfg.(others := n.cfg.others[from := task])));
    case Publication(_) =>
  }

  /** What the step handler of the test has last stored. */
  function Tick(n: Node): nat
  {
    if n.cfg.current.timePoint < 0 then 0 else n.cfg.current.timePoint
  }

  function Sent(s: Sample): nat
  {
    if s.stamp < 0 then 0 else s.stamp
  }

  lemma Neighbours(current: int, stamp: int)
    requires OnGrid(current) && OnGrid(stamp) && current <= stamp <= current + PERIOD
    ensures stamp == current || stamp == current + PERIOD
  {
    assert (stamp - current) % PERIOD == 0;
  }

  lemma ArrivesInTime(g: Net, p: Name, q: Name)
    requires Inv(g) && AllOnGrid(g) && Enabled(g, Deliver(p, q)) && g[p].inbox[q][0].Publication?
    ensures var s := g[p].inbox[q][0].sample; s.stamp >= 0 && TickOk(Tick(g[p]), Sent(s))
  {
    DeliveryWindowOf(g, p, q);
    var s := g[p].inbox[q][0].sample;
    assert NodeOnGrid(g[p]) && NodeOnGrid(g[q]) && OnGrid(s.stamp);
    if g[p].cfg.current.timePoint >= 0 {
      Neighbours(g[p].cfg.current.timePoint, s.stamp);
    }
  }

  /** When each message that participant `p` handles was sent, and the tick of `p` then. */
  ghost function ArrivalTimes(g: Net, es: seq<Event>, p: Name): seq<Times>
    requires ValidRun(g, es)
  {
    if es == [] then []
    else
      var e, rest := es[0], ArrivalTimes(Apply(g, es[0]), es[1..], p);
      if e.Deliver? && e.p == p && g[p].inbox[e.from][0].Publication?
      then [Times(Sent(g[p].inbox[e.from][0].sample), Tick(g[p]))] + rest
      else rest
  }

  predicate InTime(times: seq<Times>)
  {
    forall k :: 0 <= k < |times| ==> TickOk(times[k].current, times[k].sent)
  }

  lemma {:induction false} ArrivalsInTime(g: Net, es: seq<Event>, p: Name)
    requires Inv(g) && AllOnGrid(g) && ValidRun(g, es) && OnlyPeriod(es, PERIOD)
    ensures InTime(ArrivalTimes(g, es, p))
    decreases |es|
  {
    if es != [] {
      var e := es[0];
      Preserve(g, e);
      StaysOnGrid(g, e);
      ArrivalsInTime(Apply(g, e), es[1..], p);
      if e.Deliver? && e.p == p && g[p].inbox[e.from][0].Publication? {
        ArrivesInTime(g, p, e.from);
      }
    }
  }

  lemma InitOnGrid(g: Net)
    requires Init(g) && forall x :: x in g ==> g[x].cfg.next.duration == PERIOD
    ensures Inv(g) && AllOnGrid(g)
  {
    InitInv(g);
    forall x | x in g ensures NodeOnGrid(g[x]) {
      assert Idle(g[x], g.Keys - {x});
    }
  }

  /** For any number of participants with the test's period, in every run, every message is
      handled in the step it was sent in or just before: the arrival times are what
      `StopsExactlyOnceIff` asks for, as long as the ticks can be represented. */
  lemma EveryArrivalIsInTime(g: Net, es: seq<Event>, p: Name)
    requires Init(g) && (forall x :: x in g ==> g[x].cfg.next.duration == PERIOD)
    requires ValidRun(g, es) && OnlyPeriod(es, PERIOD)
    requires forall k :: 0 <= k < |ArrivalTimes(g, es, p)| ==> ArrivalTimes(g, es, p)[k].sent < TICK_LIMIT
    ensures TimesOk(ArrivalTimes(g, es, p))
  {
    InitOnGrid(g);
    ArrivalsInTime(g, es, p);
  }
}
