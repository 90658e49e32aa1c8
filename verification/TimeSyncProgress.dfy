/** How much the runtime can do before another simulation step begins. */
module TimeSyncProgress {
  import opened TimeConfig
  import opened TimeSync
  import opened TimeSyncTheorems

  function Members(names: seq<Name>): set<Name>
  {
    if names == [] then {} else {names[0]} + Members(names[1..])
  }

  predicate Distinct(names: seq<Name>)
  {
    names == [] || (names[0] !in Members(names[1..]) && Distinct(names[1..]))
  }

  /** `names` lists the participants, each once. */
  ghost predicate Lists(names: seq<Name>, g: Net)
  {
    Distinct(names) && g.Keys == Members(names)
  }

  // ---------------------------------------------------------------- the potential

  function Queued(n: Node, names: seq<Name>): nat
  {
    if names == [] then 0
    else (if names[0] in n.inbox then |n.inbox[names[0]]| else 0) + Queued(n, names[1..])
  }

  lemma {:induction false} QueuedUpdate(n: Node, from: Name, ch: seq<Msg>, names: seq<Name>)
    requires Distinct(names) && from in n.inbox
    ensures Queued(n.(inbox := n.inbox[from := ch]), names)
              == Queued(n, names) + if from in Members(names) then |ch| - |n.inbox[from]| else 0
  {
    if names != [] {
      QueuedUpdate(n, from, ch, names[1..]);
    }
  }

  lemma {:induction false} QueuedSame(n: Node, n': Node, names: seq<Name>)
    requires n'.inbox == n.inbox
    ensures Queued(n', names) == Queued(n, names)
  {
    if names != [] {
      QueuedSame(n, n', names[1..]);
    }
  }

  /** What a participant may still cause without a new step: its messages and deferred
      checks, and its own event plus one message to everybody if it has yet to start or is
      inside a step. */
  function Potential(n: Node, names: seq<Name>): nat
  {
    Queued(n, names) + n.pending + (if n.started then 0 else |names| + 1) + (if n.executing then |names| + 1 else 0)
  }

  ghost function Total(g: Net, names: seq<Name>, part: seq<Name>): nat
    requires Members(part) <= g.Keys
  {
    if part == [] then 0 else Potential(g[part[0]], names) + Total(g, names, part[1..])
  }

  /** One participant's potential changes by `own`, that of the others by at most `other`. */
  lemma {:induction false} TotalBound(g: Net, g': Net, names: seq<Name>, part: seq<Name>, p: Name, own: int, other: nat)
    requires Distinct(part) && Members(part) <= g.Keys && Members(part) <= g'.Keys
    requires forall q :: q in Members(part) ==>
               Potential(g'[q], names) <= Potential(g[q], names) + if q == p then own else other
    ensures Total(g', names, part) <= Total(g, names, part)
              + if p in Members(part) then own + other * (|part| - 1) else other * |part|
  {
    if part != [] {
      TotalBound(g, g', names, part[1..], p, own, other);
      Scale(other, |part| - 1);
    }
  }

  lemma Scale(a: nat, n: nat)
    ensures a * (n + 1) == a * n + a
    ensures n > 0 ==> a * n == a * (n - 1) + a
  {
  }

  // ------------------------------------------------------------------ single events

  lemma ProcessPotential(n: Node, names: seq<Name>)
    ensures var r := Process(n);
            Potential(r, names) == Potential(n, names) + if !n.executing && r.executing then |names| + 1 else 0
  {
    QueuedSame(n, Process(n), names);
  }

  lemma ReceivePotential(n: Node, from: Name, names: seq<Name>)
    requires Distinct(names) && from in Members(names) && from in n.inbox && n.inbox[from] != []
    ensures var r := Receive(n, from);
            Potential(r, names) == Potential(n, names) - 1 + if !n.executing && r.executing then |names| + 1 else 0
  {
    var rest := n.(inbox := n.inbox[from := n.inbox[from][1..]]);
    QueuedUpdate(n, from, n.inbox[from][1..], names);
    match n.inbox[from][0]
    case Announce(task) =>
      if from in n.cfg.others {
        var u := rest.(cfg := n.cfg.(others := n.cfg.others[from := task]));
        QueuedSame(rest, u, names);
        ProcessPotential(u, names);
      }
    case Publication(_) => QueuedSame(rest, Receive(n, from), names);
  }

  lemma AppendPotential(n: Node, from: Name, m: Msg, names: seq<Name>)
    requires Distinct(names)
    ensures Potential(Append(n, from, m), names) <= Potential(n, names) + 1
  {
    if from in n.inbox {
      QueuedUpdate(n, from, n.inbox[from] + [m], names);
    }
  }

  lemma RequestPotential(n: Node, names: seq<Name>)
    ensures Potential(Request(n), names) == Potential(n, names) + 1
  {
    QueuedSame(n, Request(n), names);
  }

  /** An event of one participant that tells the others nothing. */
  lemma LocalBound(g: Net, g': Net, names: seq<Name>, p: Name, own: int)
    requires Lists(names, g) && p in g && g'.Keys == g.Keys && forall q :: q in g && q != p ==> g'[q] == g[q]
    requires Potential(g'[p], names) <= Potential(g[p], names) + own
    ensures Total(g', names, names) <= Total(g, names, names) + own
  {
    TotalBound(g, g', names, names, p, own, 0);
  }

  /** An event of one participant with one message to the others. */
  lemma SendBound(g: Net, g': Net, names: seq<Name>, p: Name, m: Msg, own: int)
    requires Lists(names, g) && p in g && g'.Keys == g.Keys
    requires forall q :: q in g && q != p ==> g'[q] == g[q] || g'[q] == Append(g[q], p, m)
    requires Potential(g'[p], names) <= Potential(g[p], names) + own
    ensures Total(g', names, names) <= Total(g, names, names) + own + |names| - 1
  {
    forall q | q in Members(names) && q != p ensures Potential(g'[q], names) <= Potential(g[q], names) + 1 {
      AppendPotential(g[q], p, m, names);
    }
    TotalBound(g, g', names, names, p, own, 1);
  }

  /** A completion although no step is open: the runtime accepts it. */
  predicate IsSuperfluous(g: Net, e: Event)
    requires e.p in g
  {
    e.Complete? && !g[e.p].executing
  }

  predicate IsUser(e: Event) { e.Publish? || e.SetPeriod? }

  lemma RequestBound(g: Net, names: seq<Name>, p: Name, n: Node)
    requires Lists(names, g) && p in g && n.inbox == g[p].inbox && n.pending == g[p].pending
    requires Potential(n, names) <= Potential(g[p], names) - |names| - 1
    ensures var g' := RequestNextStep(g[p := n], p);
            Members(names) <= g'.Keys && Total(g', names, names) <= Total(g, names, names) - 1
  {
    var g' := RequestNextStep(g[p := n], p);
    assert g'.Keys == g.Keys;
    RequestPotential(n, names);
    SendBound(g, g', names, p, Announce(n.cfg.next), -|names|);
  }

  /** The event uses up some of the total, unless it is the user's, starts a step or
      completes a step that is not open. */
  ghost predicate Bounded(g: Net, e: Event, names: seq<Name>)
    requires Lists(names, g) && Enabled(g, e)
  {
    var g' := Apply(g, e);
    && g'.Keys == g.Keys
    && Total(g', names, names) <= Total(g, names, names)
         - (if IsUser(e) then 0 else 1)
         + (if StartsStep(g, e) then |names| + 1 else 0) + (if e.Publish? then |names| else 0)
         + (if IsSuperfluous(g, e) then 2 else 0)
  }

  lemma StartBound(g: Net, p: Name, names: seq<Name>)
    requires Lists(names, g) && Enabled(g, Start(p))
    ensures Bounded(g, Start(p), names)
  {
    var n := g[p].(started := true);
    QueuedSame(g[p], n, names);
    RequestBound(g, names, p, n);
    assert Apply(g, Start(p)).Keys == g.Keys;
  }

  lemma CompleteBound(g: Net, p: Name, names: seq<Name>)
    requires Lists(names, g) && Enabled(g, Complete(p)) && g[p].executing
    ensures Bounded(g, Complete(p), names)
  {
    var n := g[p].(executing := false);
    QueuedSame(g[p], n, names);
    RequestBound(g, names, p, n);
    assert Apply(g, Complete(p)).Keys == g.Keys;
  }

  /** It announces nothing, because the next step was announced before. */
  lemma SuperfluousBound(g: Net, p: Name, names: seq<Name>)
    requires Lists(names, g) && Enabled(g, Complete(p)) && !g[p].executing && NodeOk(g[p])
    ensures Bounded(g, Complete(p), names)
  {
    var g' := Apply(g, Complete(p));
    assert g' == g[p := Request(g[p])];
    RequestPotential(g[p], names);
    LocalBound(g, g', names, p, 1);
  }

  lemma DeliverBound(g: Net, p: Name, from: Name, names: seq<Name>)
    requires Lists(names, g) && Enabled(g, Deliver(p, from)) && KnowsOnly(g[p], p, g.Keys)
    ensures Bounded(g, Deliver(p, from), names)
  {
    var g' := Apply(g, Deliver(p, from));
    ReceivePotential(g[p], from, names);
    LocalBound(g, g', names, p, Potential(g'[p], names) - Potential(g[p], names));
  }

  lemma DeferredBound(g: Net, p: Name, names: seq<Name>)
    requires Lists(names, g) && Enabled(g, RunDeferred(p))
    ensures Bounded(g, RunDeferred(p), names)
  {
    var g', n := Apply(g, RunDeferred(p)), g[p].(pending := g[p].pending - 1);
    QueuedSame(g[p], n, names);
    ProcessPotential(n, names);
    LocalBound(g, g', names, p, Potential(g'[p], names) - Potential(g[p], names));
  }

  lemma UserBound(g: Net, e: Event, names: seq<Name>)
    requires Lists(names, g) && Enabled(g, e) && IsUser(e)
    ensures Bounded(g, e, names)
  {
    var g', p := Apply(g, e), e.p;
    assert g'.Keys == g.Keys;
    QueuedSame(g[p], g'[p], names);
    if e.Publish? {
      SendBound(g, g', names, p, Publication(Sample(g[p].cfg.current.timePoint, e.payload)), 0);
    } else {
      LocalBound(g, g', names, p, 0);
    }
  }

  lemma EventBound(g: Net, e: Event, names: seq<Name>)
    requires Inv(g) && Lists(names, g) && Enabled(g, e)
    ensures Bounded(g, e, names)
  {
    match e
    case Start(p) => StartBound(g, p, names);
    case Complete(p) =>
      if g[p].executing {
        CompleteBound(g, p, names);
      } else {
        assert NodeOk(g[p]);
        SuperfluousBound(g, p, names);
      }
    case Deliver(p, from) =>
      assert KnowsOnly(g[p], p, g.Keys);
      DeliverBound(g, p, from, names);
    case RunDeferred(p) => DeferredBound(g, p, names);
    case _ => UserBound(g, e, names);
  }

  // ----------------------------------------------------------------------- all runs

  /** Events that are not the users' publications and changes of period. */
  function Working(es: seq<Event>): nat
  {
    if es == [] then 0 else (if IsUser(es[0]) then 0 else 1) + Working(es[1..])
  }

  function Publications(es: seq<Event>): nat
  {
    if es == [] then 0 else (if es[0].Publish? then 1 else 0) + Publications(es[1..])
  }

  /** Completions of steps that are not open. */
  ghost function Superfluous(g: Net, es: seq<Event>): nat
    requires ValidRun(g, es)
  {
    if es == [] then 0 else Superfluous(Apply(g, es[0]), es[1..]) + Bit(IsSuperfluous(g, es[0]))
  }

  /** What `steps` steps and `publications` publications allow. */
  function Allowance(n: nat, steps: nat, publications: nat): nat
  {
    if steps > 0 then n + 1 + Allowance(n, steps - 1, publications)
    else if publications > 0 then n + Allowance(n, 0, publications - 1)
    else 0
  }

  lemma {:induction false} AllowanceIs(n: nat, steps: nat, publications: nat)
    ensures Allowance(n, steps, publications) == (n + 1) * steps + n * publications
  {
    if steps > 0 {
      AllowanceIs(n, steps - 1, publications);
      Scale(n + 1, steps - 1);
    } else if publications > 0 {
      AllowanceIs(n, 0, publications - 1);
      Scale(n, publications - 1);
    }
  }

  lemma AllowanceGrows(n: nat, steps: nat, publications: nat)
    ensures Allowance(n, steps + 1, publications) == Allowance(n, steps, publications) + n + 1
    ensures Allowance(n, steps, publications + 1) == Allowance(n, steps, publications) + n
    ensures Allowance(n, steps + 1, publications + 1) == Allowance(n, steps, publications) + n + n + 1
  {
    AllowanceIs(n, steps, publications);
    AllowanceIs(n, steps, publications + 1);
    Scale(n, publications);
  }

  lemma FirstEvent(g: Net, es: seq<Event>, names: seq<Name>)
    requires Inv(g) && Lists(names, g) && ValidRun(g, es) && es != []
    ensures var g' := Apply(g, es[0]);
            && Inv(g') && Lists(names, g') && ValidRun(g', es[1..]) && Bounded(g, es[0], names)
            && |StepTimes(g, es)| == |StepTimes(g', es[1..])| + Bit(StartsStep(g, es[0]))
  {
    EventBound(g, es[0], names);
    Preserve(g, es[0]);
  }

  function Bit(b: bool): nat { if b then 1 else 0 }

  /** The arithmetic of one event. */
  lemma Combine(n: nat, work: nat, t: nat, t': nat, steps: nat, publications: nat, extra: nat, user: bool, starts: bool,
                publishes: bool, superfluous: bool)
    requires work <= t' + Allowance(n, steps, publications) + 2 * extra
    requires t' <= t - Bit(!user) + (if starts then n + 1 else 0) + (if publishes then n else 0) + 2 * Bit(superfluous)
    ensures work + Bit(!user) <=
              t + Allowance(n, steps + Bit(starts), publications + Bit(publishes)) + 2 * (extra + Bit(superfluous))
  {
    AllowanceGrows(n, steps, publications);
  }

  lemma {:induction false} RunBound(g: Net, es: seq<Event>, names: seq<Name>)
    requires Inv(g) && Lists(names, g) && ValidRun(g, es)
    ensures Working(es) <= Total(g, names, names) + Allowance(|names|, |StepTimes(g, es)|, Publications(es))
                           + 2 * Superfluous(g, es)
    decreases |es|
  {
    if es != [] {
      var g', e, rest := Apply(g, es[0]), es[0], es[1..];
      FirstEvent(g, es, names);
      RunBound(g', rest, names);
      Combine(|names|, Working(rest), Total(g, names, names), Total(g', names, names), |StepTimes(g', rest)|,
              Publications(rest), Superfluous(g', rest), IsUser(e), StartsStep(g, e), e.Publish?, IsSuperfluous(g, e));
    }
  }

  lemma {:induction false} TotalInit(g: Net, names: seq<Name>, part: seq<Name>)
    requires Init(g) && Members(part) <= g.Keys
    ensures Total(g, names, part) == (|names| + 1) * |part|
  {
    if part != [] {
      var p := part[0];
      assert p in g;
      NothingQueued(g[p], names);
      TotalInit(g, names, part[1..]);
      Scale(|names| + 1, |part| - 1);
    }
  }

  lemma {:induction false} NothingQueued(n: Node, names: seq<Name>)
    requires forall q :: q in n.inbox ==> n.inbox[q] == []
    ensures Queued(n, names) == 0
  {
    if names != [] {
      NothingQueued(n, names[1..]);
    }
  }

  lemma AllowanceAdds(n: nat, a: nat, b: nat, publications: nat)
    ensures Allowance(n, a + b, publications) == Allowance(n, a, 0) + Allowance(n, b, publications)
    decreases a
  {
    if a > 0 {
      AllowanceAdds(n, a - 1, b, publications);
    }
  }

  lemma FromInit(g: Net, names: seq<Name>)
    requires Init(g) && Lists(names, g)
    ensures Inv(g) && Total(g, names, names) == Allowance(|names|, |names|, 0)
  {
    InitInv(g);
    TotalInit(g, names, names);
    AllowanceIs(|names|, |names|, 0);
  }

  /** `Allowance`, written out, with the allowance of the start. */
  function Bound(n: nat, steps: nat, publications: nat): nat
  {
    (n + 1) * (n + steps) + n * publications
  }

  lemma Sums(n: nat, work: nat, t: nat, steps: nat, publications: nat, extra: nat)
    requires t == Allowance(n, n, 0) && work <= t + Allowance(n, steps, publications) + 2 * extra
    ensures work <= Bound(n, steps, publications) + 2 * extra
  {
    AllowanceAdds(n, n, steps, publications);
    AllowanceIs(n, n + steps, publications);
  }

  lemma WorkBound(g: Net, es: seq<Event>, names: seq<Name>)
    requires Inv(g) && Lists(names, g) && Total(g, names, names) == Allowance(|names|, |names|, 0)
    requires ValidRun(g, es)
    ensures Working(es) <= Bound(|names|, |StepTimes(g, es)|, Publications(es)) + 2 * Superfluous(g, es)
  {
    RunBound(g, es, names);
    Sums(|names|, Working(es), Total(g, names, names), |StepTimes(g, es)|, Publications(es), Superfluous(g, es));
  }

  /** Steps keep coming: with n participants, S started steps, P publications and X
      completions of steps that were not open, all runtime work of a run (announcing,
      delivering, checking, completing) is at most (n + 1) * (n + S) + n * P + 2 * X events.
      Since, by `NeverStuck`, something is outstanding as long as all participants run, S
      grows without bound in every run that goes on. */
  lemma StepsKeepComing(g: Net, es: seq<Event>, names: seq<Name>)
    requires Init(g) && Lists(names, g) && ValidRun(g, es)
    ensures Working(es) <= Bound(|names|, |StepTimes(g, es)|, Publications(es)) + 2 * Superfluous(g, es)
  {
    FromInit(g, names);
    WorkBound(g, es, names);
  }
}
