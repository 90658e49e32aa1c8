/** What the time distribution algorithm guarantees in every interleaving. */
module TimeSyncTheorems {
  import opened TimeConfig
  import opened TimeSync

  // ------------------------------------------------------------ time and causality

  /** Nobody starts a step that another participant has not yet announced to be ready for. */
  lemma WindowOf(g: Net, p: Name, q: Name)
    requires Inv(g) && p in g && q in g && p != q
    ensures g[p].cfg.current.timePoint <= g[q].lastSent <= g[q].cfg.next.timePoint
  {
    assert PairOk(g[p], g[q], q) && NodeOk(g[q]);
    ChannelBounds(g[p].cfg.others[q].timePoint, g[p].inbox[q], g[q].lastSent);
  }

  lemma ConservativeWindow(g: Net, es: seq<Event>, p: Name, q: Name)
    requires Init(g) && ValidRun(g, es) && p in Exec(g, es) && q in Exec(g, es) && p != q
    ensures var r := Exec(g, es);
            r[p].cfg.current.timePoint <= r[q].lastSent <= r[q].cfg.next.timePoint
  {
    InitInv(g);
    RunInv(g, es);
    WindowOf(Exec(g, es), p, q);
  }

  /** At a step with time T a participant knows the past: it has received, in
      sending order, every sample that anybody published in a step before T. */
  lemma KnowsThePast(g: Net, es: seq<Event>, p: Name, q: Name)
    requires Init(g) && ValidRun(g, es) && p in Exec(g, es) && q in Exec(g, es) && p != q
    ensures var r := Exec(g, es);
            && q in r[p].received && r[p].received[q] <= r[q].published
            && forall i :: |r[p].received[q]| <= i < |r[q].published| ==>
                 r[p].cfg.current.timePoint <= r[q].published[i].stamp
  {
    InitInv(g);
    RunInv(g, es);
    var r := Exec(g, es);
    assert PairOk(r[p], r[q], q);
    var queued := SamplesIn(r[p].inbox[q]);
    ChannelBounds(r[p].cfg.others[q].timePoint, r[p].inbox[q], r[q].lastSent);
    forall i | |r[p].received[q]| <= i < |r[q].published|
      ensures r[p].cfg.current.timePoint <= r[q].published[i].stamp
    {
      assert r[q].published[i] == queued[i - |r[p].received[q]|];
    }
  }

  lemma DeliveryWindowOf(g: Net, p: Name, q: Name)
    requires Inv(g) && Enabled(g, Deliver(p, q)) && g[p].inbox[q][0].Publication?
    ensures var n := g[p];
            n.cfg.current.timePoint <= n.inbox[q][0].sample.stamp <= n.lastSent <= n.cfg.next.timePoint
    ensures q in g && q != p && g[p].inbox[q][0].sample in g[q].published
  {
    assert KnowsOnly(g[p], p, g.Keys) && NodeOk(g[p]) && NodeOk(g[q]) && PairOk(g[p], g[q], q);
    var ch := g[p].inbox[q];
    ChannelBounds(g[p].cfg.others[q].timePoint, ch, g[q].lastSent);
    assert SamplesIn(ch)[0] == ch[0].sample;
    assert g[q].published[|g[p].received[q]|] == ch[0].sample;
    WindowOf(g, q, p);
  }

  /** Every sample arrives within the receiver's current step interval, never from its
      past and never from beyond the time it has announced to be ready for. */
  lemma DeliveryWindow(g: Net, es: seq<Event>, p: Name, q: Name)
    requires Init(g) && ValidRun(g, es) && Enabled(Exec(g, es), Deliver(p, q))
    requires Exec(g, es)[p].inbox[q][0].Publication?
    ensures var n := Exec(g, es)[p];
            n.cfg.current.timePoint <= n.inbox[q][0].sample.stamp <= n.lastSent <= n.cfg.next.timePoint
  {
    InitInv(g);
    RunInv(g, es);
    DeliveryWindowOf(Exec(g, es), p, q);
  }

  /** When a participant with an open asynchronous step is told that the others have
      completed theirs, no other participant is inside a step. A step of duration zero
      carries no such promise: see `TimeSyncZeroPeriod.OthersOutsideIff`. */
  lemma OthersAreOutsideTheirSteps(g: Net, es: seq<Event>, p: Name, q: Name)
    requires Init(g) && ValidRun(g, es) && p in Exec(g, es) && q in Exec(g, es) && p != q
    requires var n := Exec(g, es)[p];
             n.executing && !HasLower(n.cfg) && n.cfg.current.timePoint < n.cfg.next.timePoint
    ensures !Exec(g, es)[q].executing
  {
    InitInv(g);
    RunInv(g, es);
    var r := Exec(g, es);
    assert NodeOk(r[p]) && NodeOk(r[q]) && PairOk(r[p], r[q], q);
    ChannelBounds(r[p].cfg.others[q].timePoint, r[p].inbox[q], r[q].lastSent);
    WindowOf(r, q, p);
  }

  // ------------------------------------------------------------ global step order

  ghost predicate StartsStep(g: Net, e: Event)
    requires Enabled(g, e)
  {
    e.p in Apply(g, e) && !g[e.p].executing && Apply(g, e)[e.p].executing
  }

  /** The virtual times of the steps started in a run, in real-time order. */
  ghost function StepTimes(g: Net, es: seq<Event>): seq<int>
    requires ValidRun(g, es)
  {
    if es == [] then []
    else
      var g' := Apply(g, es[0]);
      (if StartsStep(g, es[0]) then [g'[es[0].p].cfg.current.timePoint] else []) + StepTimes(g', es[1..])
  }

  lemma Monotone(g: Net, e: Event, p: Name)
    requires Inv(g) && Enabled(g, e) && p in g
    ensures p in Apply(g, e) && g[p].cfg.current.timePoint <= Apply(g, e)[p].cfg.current.timePoint
    ensures p != e.p ==> Apply(g, e)[p].cfg == g[p].cfg
  {
    assert NodeOk(g[e.p]);
  }

  lemma StartIsLatest(g: Net, e: Event, p: Name)
    requires Inv(g) && Enabled(g, e) && StartsStep(g, e) && p in g
    ensures g[p].cfg.current.timePoint <= Apply(g, e)[e.p].cfg.current.timePoint
  {
    assert NodeOk(g[e.p]);
    if p == e.p {
      Monotone(g, e, p);
    } else {
      WindowOf(g, p, e.p);
    }
  }

  ghost predicate Sorted(ts: seq<int>)
  {
    forall i, j :: 0 <= i < j < |ts| ==> ts[i] <= ts[j]
  }

  /** All of `ts` lie at or after everybody's current step. */
  ghost predicate NotBefore(g: Net, ts: seq<int>)
  {
    forall i, p :: 0 <= i < |ts| && p in g ==> g[p].cfg.current.timePoint <= ts[i]
  }

  lemma NotBeforeEarlier(g: Net, e: Event, ts: seq<int>)
    requires Inv(g) && Enabled(g, e) && NotBefore(Apply(g, e), ts)
    ensures NotBefore(g, ts)
    ensures StartsStep(g, e) ==> forall i :: 0 <= i < |ts| ==> Apply(g, e)[e.p].cfg.current.timePoint <= ts[i]
    ensures StartsStep(g, e) ==> NotBefore(g, [Apply(g, e)[e.p].cfg.current.timePoint])
  {
    forall i, p | 0 <= i < |ts| && p in g ensures g[p].cfg.current.timePoint <= ts[i] { Monotone(g, e, p); }
    if StartsStep(g, e) {
      forall p | p in g ensures g[p].cfg.current.timePoint <= Apply(g, e)[e.p].cfg.current.timePoint {
        StartIsLatest(g, e, p);
      }
    }
  }

  lemma {:induction false} LaterStepsAreLater(g: Net, es: seq<Event>)
    requires Inv(g) && ValidRun(g, es)
    ensures NotBefore(g, StepTimes(g, es)) && Sorted(StepTimes(g, es))
    decreases |es|
  {
    if es != [] {
      Preserve(g, es[0]);
      LaterStepsAreLater(Apply(g, es[0]), es[1..]);
      NotBeforeEarlier(g, es[0], StepTimes(Apply(g, es[0]), es[1..]));
    }
  }

  /** Over all participants together, steps are started in the order of their virtual times. */
  lemma StepsStartInVirtualTimeOrder(g: Net, es: seq<Event>)
    requires Init(g) && ValidRun(g, es)
    ensures Sorted(StepTimes(g, es))
  {
    InitInv(g);
    LaterStepsAreLater(g, es);
  }

  // --------------------------------------------------------------------- progress

  lemma {:induction false} EarliestNext(g: Net, names: set<Name>) returns (p: Name)
    requires names <= g.Keys && names != {}
    ensures p in names && forall q :: q in names ==> g[p].cfg.next.timePoint <= g[q].cfg.next.timePoint
    decreases |names|
  {
    var x :| x in names;
    p := x;
    if names != {x} {
      var y := EarliestNext(g, names - {x});
      assert forall q :: q in names ==> q == x || q in names - {x};
      if g[y].cfg.next.timePoint < g[x].cfg.next.timePoint {
        p := y;
      }
    }
  }

  /** Something the runtime or the user's open step still has to do. */
  ghost predicate Outstanding(g: Net, e: Event)
  {
    && Enabled(g, e)
    && (e.Deliver? || e.RunDeferred? || (e.Complete? && g[e.p].executing))
  }

  /** A participant with nothing queued is waiting for a participant that is behind it. */
  lemma SomebodyIsBehind(g: Net, p: Name)
    requires Inv(g) && p in g && g[p].started && !g[p].aborted && !g[p].executing && g[p].pending == 0
    requires forall q :: q in g[p].inbox ==> g[p].inbox[q] == []
    requires forall q :: q in g ==> g[q].started && !g[q].executing
    ensures exists q :: q in g && g[q].cfg.next.timePoint < g[p].cfg.next.timePoint
  {
    assert NodeOk(g[p]) && KnowsOnly(g[p], p, g.Keys);
    var q :| q in g[p].cfg.others && g[p].cfg.others[q].timePoint < g[p].cfg.next.timePoint;
    assert PairOk(g[p], g[q], q) && NodeOk(g[q]);
  }

  /** No lost wake-up: as long as all participants run, something is outstanding. */
  lemma NeverStuck(g: Net, es: seq<Event>)
    requires Init(g) && ValidRun(g, es) && g.Keys != {}
    requires forall p :: p in Exec(g, es) ==> Exec(g, es)[p].started && !Exec(g, es)[p].aborted
    ensures exists e :: Outstanding(Exec(g, es), e)
  {
    InitInv(g);
    RunInv(g, es);
    SameMembers(g, es);
    var r := Exec(g, es);
    var p := EarliestNext(r, r.Keys);
    if q :| q in r && r[q].executing {
      assert Outstanding(r, Complete(q));
    } else if r[p].pending > 0 {
      assert Outstanding(r, RunDeferred(p));
    } else if q :| q in r[p].inbox && r[p].inbox[q] != [] {
      assert Outstanding(r, Deliver(p, q));
    } else {
      SomebodyIsBehind(r, p);
      assert false;
    }
  }

  lemma {:induction false} SameMembers(g: Net, es: seq<Event>)
    requires ValidRun(g, es)
    ensures Exec(g, es).Keys == g.Keys
    decreases |es|
  {
    if es != [] {
      assert Apply(g, es[0]).Keys == g.Keys;
      SameMembers(Apply(g, es[0]), es[1..]);
    }
  }

  // ------------------------------------------------- late-join detection (hop-on)

  /** No participant shortens its period in this run. */
  ghost predicate PeriodsNeverShrink(g: Net, es: seq<Event>)
    requires ValidRun(g, es)
  {
    es == [] || (&& (es[0].SetPeriod? ==> g[es[0].p].cfg.next.duration <= es[0].period)
                 && PeriodsNeverShrink(Apply(g, es[0]), es[1..]))
  }

  ghost predicate NoEarlyMessage(n: Node, q: Name)
  {
    n.cfg.current.timePoint == -1 ==>
      && (q in n.cfg.others ==> !IsPastFirstStep(n.cfg.others[q]))
      && (q in n.inbox ==> forall i :: 0 <= i < |n.inbox[q]| && n.inbox[q][i].Announce? ==>
            !IsPastFirstStep(n.inbox[q][i].task))
  }

  ghost predicate NotLate(n: Node)
  {
    && !n.aborted
    && (n.cfg.current.timePoint <= 0 ==> !IsPastFirstStep(n.cfg.next))
    && forall q :: NoEarlyMessage(n, q)
  }

  ghost predicate NobodyLate(g: Net)
  {
    forall p {:trigger NotLate(g[p])} :: p in g ==> NotLate(g[p])
  }

  lemma ProcessNotLate(n: Node)
    requires NotLate(n) && n.cfg.next.duration >= 0 && -1 <= n.cfg.current.timePoint <= n.cfg.next.timePoint
    requires 0 <= n.cfg.next.timePoint
    ensures NotLate(Process(n))
  {
    var r := Process(n);
    forall q | q in n.cfg.others && n.cfg.current.timePoint == -1 ensures !IsPastFirstStep(n.cfg.others[q]) {
      assert NoEarlyMessage(n, q);
    }
    forall q ensures NoEarlyMessage(r, q) { assert NoEarlyMessage(n, q); }
  }

  lemma AppendNotLate(n: Node, from: Name, m: Msg)
    requires NotLate(n)
    requires n.cfg.current.timePoint == -1 && m.Announce? ==> !IsPastFirstStep(m.task)
    ensures NotLate(Append(n, from, m))
  {
    forall q ensures NoEarlyMessage(Append(n, from, m), q) { assert NoEarlyMessage(n, q); }
  }

  lemma ReceiveNotLate(n: Node, from: Name)
    requires NotLate(n) && NodeOk(n) && from in n.inbox && n.inbox[from] != []
    ensures NotLate(Receive(n, from))
  {
    assert NoEarlyMessage(n, from);
    var rest := n.(inbox := n.inbox[from := n.inbox[from][1..]]);
    match n.inbox[from][0]
    case Announce(task) =>
      if from in n.cfg.others {
        var u := rest.(cfg := n.cfg.(others := n.cfg.others[from := task]));
        forall q ensures NoEarlyMessage(u, q) { assert NoEarlyMessage(n, q); }
        ProcessNotLate(u);
      } else {
        forall q ensures NoEarlyMessage(rest, q) { assert NoEarlyMessage(n, q); }
      }
    case Publication(s) =>
      forall q ensures NoEarlyMessage(Receive(n, from), q) { assert NoEarlyMessage(n, q); }
  }

  /** While a participant has not stepped, the others are at most in their first step. */
  lemma AnnounceNotLate(g: Net, p: Name, n: Node)
    requires Inv(g) && NobodyLate(g) && p in g && n == g[p].(started := true, executing := false)
    ensures NobodyLate(RequestNextStep(g[p := n], p))
  {
    var g' := RequestNextStep(g[p := n], p);
    forall a | a in g' ensures NotLate(g'[a]) {
      assert NotLate(g[a]) && NotLate(g[p]);
      if a == p {
        forall q ensures NoEarlyMessage(g'[p], q) { assert NoEarlyMessage(g[p], q); }
      } else {
        WindowOf(g, p, a);
        assert NodeOk(g[a]) && NodeOk(g[p]);
        AppendNotLate(g[a], p, Announce(n.cfg.next));
      }
    }
  }

  lemma StaysNotLate(g: Net, e: Event)
    requires Inv(g) && NobodyLate(g) && Enabled(g, e)
    requires e.SetPeriod? ==> g[e.p].cfg.next.duration <= e.period
    ensures NobodyLate(Apply(g, e))
  {
    var g' := Apply(g, e);
    assert NodeOk(g[e.p]) && NotLate(g[e.p]);
    if e.Start? {
      AnnounceNotLate(g, e.p, g[e.p].(started := true));
    } else if e.Complete? {
      AnnounceNotLate(g, e.p, g[e.p].(executing := false));
    } else {
      forall a | a in g' ensures NotLate(g'[a]) {
        assert NotLate(g[a]);
        match e
        case Deliver(p, from) => if a == p { ReceiveNotLate(g[p], from); }
        case RunDeferred(p) =>
          if a == p {
            var n := g[p].(pending := g[p].pending - 1);
            forall q ensures NoEarlyMessage(n, q) { assert NoEarlyMessage(g[p], q); }
            ProcessNotLate(n);
          }
        case Publish(p, payload) =>
          if a != p {
            AppendNotLate(g[a], p, Publication(Sample(g[p].cfg.current.timePoint, payload)));
          } else {
            forall q ensures NoEarlyMessage(g'[p], q) { assert NoEarlyMessage(g[p], q); }
          }
        case SetPeriod(p, _) =>
          if a == p { forall q ensures NoEarlyMessage(g'[p], q) { assert NoEarlyMessage(g[p], q); } }
      }
    }
  }

  lemma {:induction false} NeverLate(g: Net, es: seq<Event>)
    requires Inv(g) && NobodyLate(g) && ValidRun(g, es) && PeriodsNeverShrink(g, es)
    ensures NobodyLate(Exec(g, es))
    decreases |es|
  {
    if es != [] {
      StaysNotLate(g, es[0]);
      Preserve(g, es[0]);
      NeverLate(Apply(g, es[0]), es[1..]);
    }
  }

  /** A coordinated start is never mistaken for joining a running simulation,
      provided nobody shortens its period. */
  lemma NoFalseLateJoin(g: Net, es: seq<Event>, p: Name)
    requires Init(g) && ValidRun(g, es) && PeriodsNeverShrink(g, es) && p in Exec(g, es)
    ensures !Exec(g, es)[p].aborted
  {
    InitInv(g);
    forall a | a in g ensures NotLate(g[a]) {
      forall q ensures NoEarlyMessage(g[a], q) { }
    }
    NeverLate(g, es);
    assert NotLate(Exec(g, es)[p]);
  }
}
