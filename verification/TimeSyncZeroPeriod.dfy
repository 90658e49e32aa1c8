/** When a participant that is told that the others have completed their steps can rely on
    it: exactly when no step has duration zero. */
module TimeSyncZeroPeriod {
  import opened TimeConfig
  import opened TimeSync
  import opened TimeSyncTheorems
  import opened TimeSyncStart
  import Short = TimeSyncShortPeriod

  /** While somebody in an open step sees nobody behind it, nobody else is inside a step. */
  ghost predicate OthersOutside(g: Net)
  {
    forall p, q {:trigger g[p], g[q]} :: p in g && q in g && p != q && g[p].executing && !HasLower(g[p].cfg) ==>
      !g[q].executing
  }

  // ------------------------------------------------------------------ positive durations

  predicate Ahead(n: Node)
  {
    n.cfg.next.duration > 0 && (n.executing ==> n.cfg.current.timePoint < n.cfg.next.timePoint)
  }

  ghost predicate AllAhead(g: Net)
  {
    forall p {:trigger Ahead(g[p])} :: p in g ==> Ahead(g[p])
  }

  lemma StaysAhead(g: Net, e: Event)
    requires AllAhead(g) && Enabled(g, e) && (e.SetPeriod? ==> e.period > 0)
    ensures AllAhead(Apply(g, e))
  {
    var g' := Apply(g, e);
    forall p | p in g' ensures Ahead(g'[p]) {
      assert p in g && Ahead(g[p]);
    }
  }

  lemma {:induction false} RunsAhead(g: Net, es: seq<Event>, q: nat)
    requires AllAhead(g) && ValidRun(g, es) && OnlyPeriod(es, q) && q > 0
    ensures AllAhead(Exec(g, es))
    decreases |es|
  {
    if es != [] {
      StaysAhead(g, es[0]);
      RunsAhead(Apply(g, es[0]), es[1..], q);
    }
  }

  lemma PositiveKeepsOutside(g0: Net, es: seq<Event>, q: nat)
    requires Init(g0) && AllAhead(g0) && ValidRun(g0, es) && OnlyPeriod(es, q) && q > 0
    ensures OthersOutside(Exec(g0, es))
  {
    RunsAhead(g0, es, q);
    var g := Exec(g0, es);
    forall a, b | a in g && b in g && a != b && g[a].executing && !HasLower(g[a].cfg) ensures !g[b].executing {
      assert Ahead(g[a]);
      OthersAreOutsideTheirSteps(g0, es, a, b);
    }
  }

  // --------------------------------------------------------------- a step of no duration

  /** Everybody starts, then `b`, whose step has no duration, and `a` hear of everybody:
      both are inside a step, and `b` sees nobody behind it. */
  lemma ZeroStepMeetsAnother(g0: Net, a: Name, b: Name, q: nat, prompt: bool) returns (g: Net)
    requires Init(g0) && a in g0 && b in g0 && a != b && g0[b].cfg.next.duration == 0
    ensures CanReach(g0, g, q, prompt) && a in g && b in g
    ensures g[b].executing && !HasLower(g[b].cfg) && g[a].executing
  {
    var all, ph := g0.Keys, Nobody(g0);
    InitAt(g0);
    ReachesItself(g0, q, prompt);
    Short.TwoMembers(all, a, b);
    Short.InitSettled(g0);
    g := StartAll(g0, g0, ph, all, q, prompt);
    ph := ph.(started := all);
    g := BeginsFirstStep(g0, g, ph, b, q, prompt);
    ph := ph.(heard := ph.heard[b := all - {b}], begun := ph.begun + {b});
    g := BeginsFirstStep(g0, g, ph, a, q, prompt);
    ph := ph.(heard := ph.heard[a := all - {a}], begun := ph.begun + {a});
    assert MemberAt(g0, g, ph, a) && MemberAt(g0, g, ph, b);
    SeesNobodyBehind(g0, g[b], b);
  }

  lemma SeesNobodyBehind(g0: Net, n: Node, b: Name)
    requires b in g0 && FirstSteps(g0) && g0[b].cfg.next.duration == 0 && Begun(n, g0, b)
    ensures !HasLower(n.cfg)
  {
    assert IsFirst(g0[b].cfg.next);
    forall x | x in n.cfg.others ensures n.cfg.others[x].timePoint == 0 {
      assert IsFirst(g0[x].cfg.next);
    }
  }

  ghost predicate AlwaysOutside(g0: Net, q: nat, prompt: bool)
  {
    forall g :: CanReach(g0, g, q, prompt) ==> OthersOutside(g)
  }

  lemma ZeroFails(g0: Net, b: Name, q: nat, prompt: bool)
    requires Init(g0) && |g0.Keys| >= 2 && b in g0 && g0[b].cfg.next.duration == 0
    ensures !AlwaysOutside(g0, q, prompt)
  {
    var a := AnotherOne(g0.Keys, b);
    var g := ZeroStepMeetsAnother(g0, a, b, q, prompt);
    assert CanReach(g0, g, q, prompt) && !OthersOutside(g);
  }

  /** The period may also be set to zero before the start. */
  lemma SetZeroFails(g0: Net, b: Name, prompt: bool)
    requires Init(g0) && |g0.Keys| >= 2 && b in g0
    ensures !AlwaysOutside(g0, 0, prompt)
  {
    var g1 := Apply(g0, SetPeriod(b, 0));
    assert g1.Keys == g0.Keys;
    forall p | p in g1 ensures Idle(g1[p], g1.Keys - {p}) {
      assert Idle(g0[p], g0.Keys - {p});
    }
    var a := AnotherOne(g0.Keys, b);
    var g := ZeroStepMeetsAnother(g1, a, b, 0, prompt);
    ReachesAfter(g0, SetPeriod(b, 0), g, 0, prompt);
    assert CanReach(g0, g, 0, prompt) && !OthersOutside(g);
  }

  lemma PositiveHolds(g0: Net, q: nat, prompt: bool)
    requires Init(g0) && q > 0 && forall p :: p in g0 ==> g0[p].cfg.next.duration > 0
    ensures AlwaysOutside(g0, q, prompt)
  {
    forall p | p in g0 ensures Ahead(g0[p]) {
      assert Idle(g0[p], g0.Keys - {p});
    }
    forall g | CanReach(g0, g, q, prompt) ensures OthersOutside(g) {
      var es :| ValidRun(g0, es) && OnlyPeriod(es, q) && Exec(g0, es) == g;
      PositiveKeepsOutside(g0, es, q);
    }
  }

  lemma OnlyOneHolds(g0: Net, q: nat, prompt: bool)
    requires |g0.Keys| < 2
    ensures AlwaysOutside(g0, q, prompt)
  {
    forall g | CanReach(g0, g, q, prompt) ensures OthersOutside(g) {
      var es :| ValidRun(g0, es) && OnlyPeriod(es, q) && Exec(g0, es) == g;
      SameMembers(g0, es);
      OnlyOne(g);
    }
  }

  /** For every initial net whose periods may be set to `q`: in all runs, or in all prompt runs
      if asked for, a participant that
      sees nobody behind its open step is the only one inside a step, if and only if there
      is but one participant, or neither `q` nor any initial step duration is zero. */
  lemma OthersOutsideIff(g0: Net, q: nat, prompt: bool)
    requires Init(g0)
    ensures AlwaysOutside(g0, q, prompt) <==>
              |g0.Keys| < 2 || (q > 0 && forall p :: p in g0 ==> g0[p].cfg.next.duration > 0)
  {
    if |g0.Keys| < 2 {
      OnlyOneHolds(g0, q, prompt);
    } else if b :| b in g0 && g0[b].cfg.next.duration <= 0 {
      assert Idle(g0[b], g0.Keys - {b});
      ZeroFails(g0, b, q, prompt);
    } else if q == 0 {
      var b :| b in g0.Keys;
      SetZeroFails(g0, b, prompt);
    } else {
      PositiveHolds(g0, q, prompt);
    }
  }

  lemma OnlyOne(g: Net)
    requires |g.Keys| < 2
    ensures OthersOutside(g)
  {
    forall p, q | p in g && q in g ensures p == q {
      if p != q {
        Short.TwoMembers(g.Keys, p, q);
      }
    }
  }
}
