/** How far virtual time has got after a number of steps. */
module TimeSyncAdvance {
  import opened TimeConfig
  import opened TimeSync
  import opened TimeSyncTheorems
  import opened TimeSyncProgress
  import opened TimeSyncStart

  ghost predicate LongSteps(g: Net, d: nat)
  {
    forall p {:trigger g[p]} :: p in g ==> g[p].cfg.next.duration >= d
  }

  predicate LongPeriods(es: seq<Event>, d: nat)
  {
    forall i :: 0 <= i < |es| && es[i].SetPeriod? ==> es[i].period >= d
  }

  /** How many steps are started by participants in `who`. */
  ghost function StepsOf(g: Net, es: seq<Event>, who: set<Name>): nat
    requires ValidRun(g, es)
  {
    if es == [] then 0
    else StepsOf(Apply(g, es[0]), es[1..], who) + Bit(StartsStep(g, es[0]) && es[0].p in who)
  }

  lemma OneEvent(g: Net, e: Event, p: Name, d: nat)
    requires Inv(g) && Enabled(g, e) && p in g && g[p].cfg.next.duration >= d && (e.SetPeriod? ==> e.period >= d)
    ensures p in Apply(g, e)
    ensures var was, now := g[p].cfg, Apply(g, e)[p].cfg;
            && now.next.duration >= d && was.current.timePoint <= now.current.timePoint
            && (if StartsStep(g, e) && e.p == p
                then now.current == was.next && now.next.timePoint >= was.next.timePoint + d
                else now.next.timePoint == was.next.timePoint)
  {
    assert NodeOk(g[p]);
    Monotone(g, e, p);
  }

  // --------------------------------------------------------------------- exact spacing

  /** A step follows the one before it without a gap, whatever the periods. */
  ghost predicate Spaced(n: Node)
  {
    && (n.cfg.current.timePoint != -1 ==> n.cfg.next.timePoint == n.cfg.current.timePoint + n.cfg.current.duration)
    && (n.cfg.current.timePoint == -1 ==> n.cfg.next.timePoint == 0)
    && n.cfg.current.timePoint >= -1
  }

  /** One check begins exactly the step that was next, or none. */
  lemma SpacedProcess(n: Node)
    requires Spaced(n) && n.cfg.next.timePoint >= 0
    ensures var r := Process(n);
            && Spaced(r) && r.cfg.next.duration == n.cfg.next.duration
            && (if !n.executing && r.executing then
                  r.cfg.current == n.cfg.next && r.cfg.next.timePoint == n.cfg.next.timePoint + n.cfg.next.duration
                else r.cfg.current == n.cfg.current && r.cfg.next == n.cfg.next)
  {
  }

  lemma SpacedReceive(n: Node, from: Name)
    requires Spaced(n) && from in n.inbox && n.inbox[from] != [] && n.cfg.next.timePoint >= 0
    ensures var r := Receive(n, from);
            && Spaced(r) && r.cfg.next.duration == n.cfg.next.duration
            && (if !n.executing && r.executing then
                  r.cfg.current == n.cfg.next && r.cfg.next.timePoint == n.cfg.next.timePoint + n.cfg.next.duration
                else r.cfg.current == n.cfg.current && r.cfg.next == n.cfg.next)
  {
    var rest := n.(inbox := n.inbox[from := n.inbox[from][1..]]);
    match n.inbox[from][0]
    case Announce(task) => SpacedProcess(rest.(cfg := n.cfg.(others := n.cfg.others[from := task])));
    case Publication(_) =>
  }

  /** What an event does to one participant's steps: a started step is the one that was next,
      a changed period is that of the next step, and nothing else moves. */
  lemma SpacedEvent(g: Net, e: Event, p: Name)
    requires Inv(g) && Enabled(g, e) && p in g && Spaced(g[p])
    ensures p in Apply(g, e) && Spaced(Apply(g, e)[p])
    ensures var was, now := g[p].cfg, Apply(g, e)[p].cfg;
            if StartsStep(g, e) && e.p == p then
              && now.current == was.next && now.next.duration == was.next.duration
              && now.next.timePoint == was.next.timePoint + was.next.duration
            else
              && now.current == was.current && now.next.timePoint == was.next.timePoint
              && now.next.duration == if e.SetPeriod? && e.p == p then e.period else was.next.duration
  {
    assert NodeOk(g[p]);
    if e.p != p {
      Monotone(g, e, p);
    } else {
      match e
      case Deliver(_, from) => SpacedReceive(g[p], from);
      case RunDeferred(_) => SpacedProcess(g[p].(pending := g[p].pending - 1));
      case _ =>
    }
  }

  lemma {:induction false} SpacedRun(g: Net, es: seq<Event>, p: Name)
    requires Inv(g) && ValidRun(g, es) && p in g && Spaced(g[p])
    ensures p in Exec(g, es) && Spaced(Exec(g, es)[p])
    decreases |es|
  {
    if es != [] {
      SpacedEvent(g, es[0], p);
      Preserve(g, es[0]);
      SpacedRun(Apply(g, es[0]), es[1..], p);
    }
  }

  /** In every run, with periods changed at will: the next step of a participant begins
      exactly where its current one ends, and its first one at 0. */
  lemma StepsFollowEachOther(g: Net, es: seq<Event>, p: Name)
    requires Init(g) && ValidRun(g, es) && p in g
    ensures p in Exec(g, es)
    ensures var c := Exec(g, es)[p].cfg;
            c.next.timePoint == if c.current.timePoint == -1 then 0 else c.current.timePoint + c.current.duration
  {
    InitInv(g);
    assert Idle(g[p], g.Keys - {p});
    SpacedRun(g, es, p);
  }

  lemma {:induction false} EvenSteps(g: Net, es: seq<Event>, p: Name, d: nat)
    requires Inv(g) && ValidRun(g, es) && p in g && Spaced(g[p]) && OnlyPeriod(es, d) && g[p].cfg.next.duration == d
    ensures p in Exec(g, es)
    ensures var k, was, now := StepsOf(g, es, {p}), g[p].cfg, Exec(g, es)[p].cfg;
            && now.next.timePoint == was.next.timePoint + d * k && now.next.duration == d
            && (if k == 0 then now.current == was.current
                else now.current == NextSimTask(was.next.timePoint + d * (k - 1), d))
    decreases |es|
  {
    if es != [] {
      var g', rest := Apply(g, es[0]), es[1..];
      SpacedEvent(g, es[0], p);
      Preserve(g, es[0]);
      EvenSteps(g', rest, p, d);
      var k := StepsOf(g', rest, {p});
      Factor(d, k);
      if k > 0 {
        Factor(d, k - 1);
      }
    }
  }

  /** With one unchanged period d, in every run the k-th step of a participant is at exactly
      (k - 1) * d and lasts d. */
  lemma StepsAreEvenlySpaced(g: Net, es: seq<Event>, p: Name, d: nat)
    requires Init(g) && ValidRun(g, es) && p in g && OnlyPeriod(es, d) && g[p].cfg.next.duration == d
    ensures p in Exec(g, es)
    ensures var k, c := StepsOf(g, es, {p}), Exec(g, es)[p].cfg;
            && c.next == NextSimTask(d * k, d)
            && c.current == if k == 0 then NextSimTask(-1, 0) else NextSimTask(d * (k - 1), d)
  {
    InitInv(g);
    assert Idle(g[p], g.Keys - {p});
    EvenSteps(g, es, p, d);
  }

  // ------------------------------------------------------------- what the runs publish

  function PayloadOf(e: Event, p: Name): seq<int>
  {
    if e.Publish? && e.p == p then [e.payload] else []
  }

  /** The payloads that `p` is told to publish, in order. */
  function PublishedBy(es: seq<Event>, p: Name): seq<int>
  {
    if es == [] then [] else PayloadOf(es[0], p) + PublishedBy(es[1..], p)
  }

  function PayloadsOf(samples: seq<Sample>): seq<int>
  {
    seq(|samples|, i requires 0 <= i < |samples| => samples[i].payload)
  }

  lemma OnePublication(g: Net, e: Event, p: Name)
    requires Enabled(g, e) && p in g
    ensures p in Apply(g, e)
    ensures Apply(g, e)[p].published ==
              if e.Publish? && e.p == p then g[p].published + [Sample(g[p].cfg.current.timePoint, e.payload)]
              else g[p].published
    ensures PayloadsOf(Apply(g, e)[p].published) == PayloadsOf(g[p].published) + PayloadOf(e, p)
  {
  }

  lemma Regroup(a: seq<int>, b: seq<int>, c: seq<int>)
    ensures (a + b) + c == a + (b + c)
  {
  }

  /** In every run a participant has published exactly the payloads it was told to, in order;
      each is stamped with the step it was published in, by `OnePublication`. */
  lemma {:induction false} PublishesWhatItIsTold(g: Net, es: seq<Event>, p: Name)
    requires ValidRun(g, es) && p in g
    ensures p in Exec(g, es)
    ensures PayloadsOf(Exec(g, es)[p].published) == PayloadsOf(g[p].published) + PublishedBy(es, p)
    decreases |es|
  {
    if es != [] {
      OnePublication(g, es[0], p);
      PublishesWhatItIsTold(Apply(g, es[0]), es[1..], p);
      Regroup(PayloadsOf(g[p].published), PayloadOf(es[0], p), PublishedBy(es[1..], p));
    }
  }

  lemma Factor(d: nat, k: nat)
    ensures d * (k + 1) == d * k + d
  {
  }

  /** After k steps of its own a participant is at least k - 1 durations further. */
  lemma {:induction false} StepsAdvance(g: Net, es: seq<Event>, p: Name, d: nat)
    requires Inv(g) && ValidRun(g, es) && p in g && g[p].cfg.next.duration >= d && LongPeriods(es, d)
    ensures p in Exec(g, es)
    ensures var k, now := StepsOf(g, es, {p}), Exec(g, es)[p].cfg.current.timePoint;
            && g[p].cfg.current.timePoint <= now
            && (k > 0 ==> g[p].cfg.next.timePoint + d * (k - 1) <= now)
    decreases |es|
  {
    if es != [] {
      var g', rest := Apply(g, es[0]), es[1..];
      OneEvent(g, es[0], p, d);
      Preserve(g, es[0]);
      StepsAdvance(g', rest, p, d);
      var k := StepsOf(g', rest, {p});
      if k > 0 && StartsStep(g, es[0]) && es[0].p == p {
        OneFurther(d, k, g[p].cfg.next.timePoint, g'[p].cfg.next.timePoint, Exec(g, es)[p].cfg.current.timePoint);
      }
    }
  }

  lemma OneFurther(d: nat, k: nat, from: int, after: int, now: int)
    requires k > 0 && from + d <= after && after + d * (k - 1) <= now
    ensures from + d * k <= now
  {
    Factor(d, k - 1);
  }

  lemma {:induction false} StepsSplit(g: Net, es: seq<Event>, p: Name, rest: set<Name>)
    requires ValidRun(g, es) && p !in rest
    ensures StepsOf(g, es, {p} + rest) == StepsOf(g, es, {p}) + StepsOf(g, es, rest)
    decreases |es|
  {
    if es != [] {
      StepsSplit(Apply(g, es[0]), es[1..], p, rest);
    }
  }

  lemma {:induction false} StepsOfNobody(g: Net, es: seq<Event>)
    requires ValidRun(g, es)
    ensures StepsOf(g, es, {}) == 0
    decreases |es|
  {
    if es != [] {
      StepsOfNobody(Apply(g, es[0]), es[1..]);
    }
  }

  lemma {:induction false} StepsOfAll(g: Net, es: seq<Event>)
    requires ValidRun(g, es)
    ensures StepsOf(g, es, g.Keys) == |StepTimes(g, es)|
    decreases |es|
  {
    if es != [] {
      assert Apply(g, es[0]).Keys == g.Keys;
      StepsOfAll(Apply(g, es[0]), es[1..]);
    }
  }

  lemma Distribute(d: nat, a: nat, b: int, n: nat, t: nat)
    requires d * (a - 1) <= t && d * (b - n) <= n * t
    ensures d * (a + b - (n + 1)) <= (n + 1) * t
  {
    assert d * (a + b - (n + 1)) == d * (a - 1) + d * (b - n);
    assert (n + 1) * t == n * t + t;
  }

  lemma {:induction false} StepsAreShared(g: Net, es: seq<Event>, part: seq<Name>, d: nat, t: nat)
    requires ValidRun(g, es) && Distinct(part)
    requires forall p :: p in Members(part) ==> d * (StepsOf(g, es, {p}) - 1) <= t
    ensures d * (StepsOf(g, es, Members(part)) - |part|) <= |part| * t
  {
    if part == [] {
      StepsOfNobody(g, es);
    } else {
      var p, rest := part[0], part[1..];
      StepsAreShared(g, es, rest, d, t);
      StepsSplit(g, es, p, Members(rest));
      Distribute(d, StepsOf(g, es, {p}), StepsOf(g, es, Members(rest)), |rest|, t);
    }
  }

  /** Nobody's next step is behind a step that somebody has started. */
  lemma NobodyBehind(g: Net, p: Name, q: Name)
    requires Inv(g) && p in g && q in g
    ensures g[p].cfg.current.timePoint <= g[q].cfg.next.timePoint && g[q].cfg.next.timePoint >= 0
  {
    assert NodeOk(g[q]);
    if p != q {
      WindowOf(g, p, q);
    }
  }

  lemma OwnSteps(g: Net, es: seq<Event>, p: Name, q: Name, d: nat)
    requires Inv(g) && ValidRun(g, es) && LongPeriods(es, d) && p in g && q in g
    requires g[p].cfg.next.timePoint == 0 && g[p].cfg.next.duration >= d
    ensures q in Exec(g, es) && Exec(g, es)[q].cfg.next.timePoint >= 0
    ensures d * (StepsOf(g, es, {p}) - 1) <= Exec(g, es)[q].cfg.next.timePoint
  {
    RunInv(g, es);
    SameMembers(g, es);
    StepsAdvance(g, es, p, d);
    NobodyBehind(Exec(g, es), p, q);
  }

  lemma EverybodysSteps(g: Net, es: seq<Event>, d: nat, q: Name)
    requires Inv(g) && ValidRun(g, es) && LongSteps(g, d) && LongPeriods(es, d) && q in g
    requires forall p {:trigger g[p]} :: p in g ==> g[p].cfg.next.timePoint == 0
    ensures q in Exec(g, es) && Exec(g, es)[q].cfg.next.timePoint >= 0
    ensures forall p :: p in g.Keys ==> d * (StepsOf(g, es, {p}) - 1) <= Exec(g, es)[q].cfg.next.timePoint
  {
    OwnSteps(g, es, q, q, d);
    forall p | p in g.Keys ensures d * (StepsOf(g, es, {p}) - 1) <= Exec(g, es)[q].cfg.next.timePoint {
      OwnSteps(g, es, p, q, d);
    }
  }

  /** Virtual time goes on: if no step is shorter than d, S started steps of n participants
      have moved the next step of every one of them to at least d * (S - n) / n. */
  lemma TimeGoesOn(g: Net, es: seq<Event>, names: seq<Name>, d: nat, q: Name)
    requires Init(g) && Lists(names, g) && ValidRun(g, es) && LongSteps(g, d) && LongPeriods(es, d) && q in g
    ensures q in Exec(g, es)
    ensures d * (|StepTimes(g, es)| - |names|) <= |names| * Exec(g, es)[q].cfg.next.timePoint
  {
    InitInv(g);
    EverybodysSteps(g, es, d, q);
    StepsAreShared(g, es, names, d, Exec(g, es)[q].cfg.next.timePoint);
    StepsOfAll(g, es);
  }
}
