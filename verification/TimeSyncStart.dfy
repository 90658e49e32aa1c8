/** How a coordinated start can unfold: from any initial net, for any number of
    participants, any subset may start first and any participant may hear of the others in
    any order. These are the building blocks of the runs that break a property. */
module TimeSyncStart {
  import opened TimeConfig
  import opened TimeSync

  // --------------------------------------------------------------------- reachability

  /** The only period that is ever set is `q`. */
  predicate OnlyPeriod(es: seq<Event>, q: nat)
  {
    forall i :: 0 <= i < |es| && es[i].SetPeriod? ==> es[i].period == q
  }

  /** A message is handled only when no check is queued. The runtime is somewhat less strict:
      see `TimeSyncOrdered`. */
  ghost predicate PromptRun(g: Net, es: seq<Event>)
    requires ValidRun(g, es)
  {
    es == [] || ((es[0].Deliver? ==> g[es[0].p].pending == 0) && PromptRun(Apply(g, es[0]), es[1..]))
  }

  /** Some run, prompt if asked for, that sets no other period than `q`. */
  ghost predicate CanReach(g0: Net, g: Net, q: nat, prompt: bool)
  {
    exists es :: ValidRun(g0, es) && OnlyPeriod(es, q) && (prompt ==> PromptRun(g0, es)) && Exec(g0, es) == g
  }

  lemma ReachesItself(g0: Net, q: nat, prompt: bool)
    ensures CanReach(g0, g0, q, prompt)
  {
    assert ValidRun(g0, []) && OnlyPeriod([], q) && PromptRun(g0, []) && Exec(g0, []) == g0;
  }

  lemma {:induction false} RunNext(g0: Net, es: seq<Event>, e: Event)
    requires ValidRun(g0, es) && Enabled(Exec(g0, es), e)
    ensures ValidRun(g0, es + [e]) && Exec(g0, es + [e]) == Apply(Exec(g0, es), e)
    ensures PromptRun(g0, es) && (e.Deliver? ==> Exec(g0, es)[e.p].pending == 0) ==> PromptRun(g0, es + [e])
    decreases |es|
  {
    if es == [] {
      assert (es + [e])[1..] == [];
      assert PromptRun(Apply(g0, e), []);
    } else {
      assert (es + [e])[1..] == es[1..] + [e];
      RunNext(Apply(g0, es[0]), es[1..], e);
    }
  }

  lemma ReachesNext(g0: Net, g: Net, e: Event, q: nat, prompt: bool)
    requires CanReach(g0, g, q, prompt) && Enabled(g, e) && (e.SetPeriod? ==> e.period == q)
    requires prompt && e.Deliver? ==> g[e.p].pending == 0
    ensures CanReach(g0, Apply(g, e), q, prompt)
  {
    var es :| ValidRun(g0, es) && OnlyPeriod(es, q) && (prompt ==> PromptRun(g0, es)) && Exec(g0, es) == g;
    RunNext(g0, es, e);
    assert OnlyPeriod(es + [e], q);
  }

  lemma ReachesAfter(g0: Net, e: Event, g: Net, q: nat, prompt: bool)
    requires Enabled(g0, e) && !e.Deliver? && (e.SetPeriod? ==> e.period == q) && CanReach(Apply(g0, e), g, q, prompt)
    ensures CanReach(g0, g, q, prompt)
  {
    var g1 := Apply(g0, e);
    var es :| ValidRun(g1, es) && OnlyPeriod(es, q) && (prompt ==> PromptRun(g1, es)) && Exec(g1, es) == g;
    var all := [e] + es;
    assert all[1..] == es;
    assert ValidRun(g0, all) && OnlyPeriod(all, q) && (prompt ==> PromptRun(g0, all)) && Exec(g0, all) == g;
  }

  // ------------------------------------------------------------ one participant's view

  /** Who has started, whom each participant has heard of, and which participants have
      already begun their first step. */
  datatype Phase = Phase(started: set<Name>, heard: map<Name, set<Name>>, begun: set<Name>)

  /** A participant before its first step: the first announcements of `told` have been sent
      to it, those of `heard` have been handled. */
  ghost predicate Waits(n: Node, g0: Net, p: Name, told: set<Name>, heard: set<Name>, started: bool)
    requires p in g0
  {
    && n.started == started && !n.executing && !n.aborted
    && n.cfg.current == UNKNOWN && n.cfg.next == g0[p].cfg.next && n.lastSent == (if started then 0 else -1)
    && n.inbox.Keys == g0.Keys - {p} && n.cfg.others.Keys == g0.Keys - {p}
    && (forall x :: x in n.inbox ==> n.cfg.others[x] == if x in heard then g0[x].cfg.next else UNKNOWN)
    && (forall x :: x in n.inbox ==> n.inbox[x] == if x in told - heard then [Announce(g0[x].cfg.next)] else [])
  }

  /** A participant inside its first step, which has heard of everybody. */
  ghost predicate Begun(n: Node, g0: Net, p: Name)
    requires p in g0
  {
    && n.started && n.executing && !n.aborted && n.lastSent == 0
    && n.cfg.current == g0[p].cfg.next && n.cfg.next == Advance(g0[p].cfg).next
    && n.cfg.others.Keys == g0.Keys - {p}
    && (forall x :: x in n.cfg.others ==> n.cfg.others[x] == g0[x].cfg.next)
  }

  predicate IsFirst(t: NextSimTask)
  {
    t.timePoint == 0 && t.duration >= 0
  }

  ghost predicate FirstSteps(g0: Net)
  {
    forall p {:trigger IsFirst(g0[p].cfg.next)} :: p in g0 ==> IsFirst(g0[p].cfg.next)
  }

  lemma ToldWaits(n: Node, g0: Net, p: Name, told: set<Name>, heard: set<Name>, started: bool, from: Name)
    requires p in g0 && from in g0 && from != p && from !in told && from !in heard
    requires Waits(n, g0, p, told, heard, started)
    ensures Waits(Append(n, from, Announce(g0[from].cfg.next)), g0, p, told + {from}, heard, started)
  {
  }

  /** What `n` makes of the first announcement of `from`, before it checks the time. */
  function Learns(n: Node, from: Name, task: NextSimTask): Node
  {
    n.(inbox := n.inbox[from := []], cfg := n.cfg.(others := n.cfg.others[from := task]))
  }

  lemma LearnsWaits(n: Node, g0: Net, p: Name, told: set<Name>, heard: set<Name>, started: bool, from: Name)
    requires p in g0 && from in g0 && from != p && from in told && from !in heard
    requires Waits(n, g0, p, told, heard, started)
    ensures from in n.inbox && n.inbox[from] != [] && Receive(n, from) == Process(Learns(n, from, g0[from].cfg.next))
    ensures Waits(Learns(n, from, g0[from].cfg.next), g0, p, told, heard + {from}, started)
  {
    assert n.inbox[from] == [Announce(g0[from].cfg.next)];
  }

  /** A participant that has not started, or has still to hear of somebody, starts no step. */
  lemma StillWaits(n: Node, g0: Net, p: Name, told: set<Name>, heard: set<Name>, started: bool)
    requires p in g0 && IsFirst(g0[p].cfg.next) && Waits(n, g0, p, told, heard, started)
    requires started ==> exists y :: y in g0 && y != p && y !in heard
    ensures Process(n) == n
  {
    if started {
      var y :| y in g0 && y != p && y !in heard;
      assert y in n.inbox && n.cfg.others[y] == UNKNOWN && HasLower(n.cfg);
    }
  }

  lemma BeginsWhenAllHeard(n: Node, g0: Net, p: Name, told: set<Name>)
    requires FirstSteps(g0) && p in g0 && Waits(n, g0, p, told, g0.Keys - {p}, true)
    ensures Begun(Process(n), g0, p)
  {
    forall x | x in n.cfg.others ensures n.cfg.others[x] == g0[x].cfg.next && IsFirst(n.cfg.others[x]) {
      assert x in n.inbox && IsFirst(g0[x].cfg.next);
    }
    assert IsFirst(g0[p].cfg.next);
    assert !HasLower(n.cfg) && !SeesRunningSimulation(n.cfg);
  }

  // --------------------------------------------------------------------- the whole net

  ghost predicate MemberAt(g0: Net, g: Net, ph: Phase, m: Name)
    requires m in g0 && m in g && m in ph.heard
  {
    && ph.heard[m] <= ph.started
    && if m in ph.begun then Begun(g[m], g0, m) else Waits(g[m], g0, m, ph.started, ph.heard[m], m in ph.started)
  }

  ghost predicate At(g0: Net, g: Net, ph: Phase)
  {
    && FirstSteps(g0) && g.Keys == g0.Keys && ph.heard.Keys == g0.Keys && ph.started <= g0.Keys
    && (forall m {:trigger MemberAt(g0, g, ph, m)} :: m in g0 ==> MemberAt(g0, g, ph, m))
  }

  function Nobody(g0: Net): Phase
  {
    Phase({}, map m | m in g0 :: {}, {})
  }

  lemma InitAt(g0: Net)
    requires Init(g0)
    ensures At(g0, g0, Nobody(g0))
  {
    forall p | p in g0 ensures IsFirst(g0[p].cfg.next) {
      assert Idle(g0[p], g0.Keys - {p});
    }
    forall m | m in g0 ensures MemberAt(g0, g0, Nobody(g0), m) {
      assert Idle(g0[m], g0.Keys - {m});
    }
  }

  lemma StartsOne(g0: Net, g: Net, ph: Phase, m: Name)
    requires At(g0, g, ph) && m in g0 && m !in ph.started && ph.begun == {}
    ensures Enabled(g, Start(m)) && At(g0, Apply(g, Start(m)), ph.(started := ph.started + {m}))
  {
    assert MemberAt(g0, g, ph, m) && IsFirst(g0[m].cfg.next);
    assert Announces(g[m].(started := true));
    var g', ph' := Apply(g, Start(m)), ph.(started := ph.started + {m});
    assert g'.Keys == g.Keys;
    forall x | x in g0 ensures MemberAt(g0, g', ph', x) {
      assert MemberAt(g0, g, ph, x);
      if x != m {
        ToldWaits(g[x], g0, x, ph.started, ph.heard[x], x in ph.started, m);
        assert g'[x] == Append(g[x], m, Announce(g0[m].cfg.next));
      }
    }
  }

  function Hearing(ph: Phase, m: Name, x: Name): Phase
    requires m in ph.heard
  {
    ph.(heard := ph.heard[m := ph.heard[m] + {x}])
  }

  /** Only `m` changes. */
  lemma OthersStay(g0: Net, g: Net, ph: Phase, m: Name, n: Node, heard: set<Name>, begun: set<Name>)
    requires At(g0, g, ph) && m in g0 && begun - {m} == ph.begun - {m}
    requires MemberAt(g0, g[m := n], ph.(heard := ph.heard[m := heard], begun := begun), m)
    ensures At(g0, g[m := n], ph.(heard := ph.heard[m := heard], begun := begun))
  {
    var ph' := ph.(heard := ph.heard[m := heard], begun := begun);
    assert g[m := n].Keys == g.Keys && ph'.heard.Keys == g0.Keys;
    forall x | x in g0 ensures MemberAt(g0, g[m := n], ph', x) {
      if x != m {
        assert MemberAt(g0, g, ph, x);
        assert x in begun <==> x in begun - {m};
        assert x in ph.begun <==> x in ph.begun - {m};
      }
    }
  }

  /** `m` hears of `x` and goes on waiting. */
  lemma HearsOne(g0: Net, g: Net, ph: Phase, m: Name, x: Name)
    requires At(g0, g, ph) && m in g0 && m !in ph.begun && x in ph.started && x != m && x !in ph.heard[m]
    requires m in ph.started ==> exists y :: y in g0 && y != m && y != x && y !in ph.heard[m]
    ensures Enabled(g, Deliver(m, x)) && At(g0, Apply(g, Deliver(m, x)), Hearing(ph, m, x))
  {
    assert MemberAt(g0, g, ph, m) && IsFirst(g0[m].cfg.next);
    var u, started := Learns(g[m], x, g0[x].cfg.next), m in ph.started;
    LearnsWaits(g[m], g0, m, ph.started, ph.heard[m], started, x);
    if started {
      var y :| y in g0 && y != m && y != x && y !in ph.heard[m];
      assert y !in ph.heard[m] + {x};
    }
    StillWaits(u, g0, m, ph.started, ph.heard[m] + {x}, started);
    OthersStay(g0, g, ph, m, u, ph.heard[m] + {x}, ph.begun);
  }

  /** `m` hears of `x`, the last one it has to hear of, and begins its first step. */
  lemma BeginsOne(g0: Net, g: Net, ph: Phase, m: Name, x: Name)
    requires At(g0, g, ph) && m in g0 && m !in ph.begun && m in ph.started
    requires x in ph.started && x != m && x !in ph.heard[m] && ph.heard[m] + {x} == g0.Keys - {m}
    ensures Enabled(g, Deliver(m, x))
    ensures At(g0, Apply(g, Deliver(m, x)), Hearing(ph, m, x).(begun := ph.begun + {m}))
  {
    assert MemberAt(g0, g, ph, m);
    var u := Learns(g[m], x, g0[x].cfg.next);
    LearnsWaits(g[m], g0, m, ph.started, ph.heard[m], true, x);
    BeginsWhenAllHeard(u, g0, m, ph.started);
    OthersStay(g0, g, ph, m, Process(u), ph.heard[m] + {x}, ph.begun + {m});
  }

  // --------------------------------------------------------------- one after the other

  lemma Pick(some: set<Name>, all: set<Name>) returns (x: Name)
    requires some < all
    ensures x in all && x !in some && some + {x} <= all && |all - (some + {x})| < |all - some|
  {
    assert all - some != {};
    x :| x in all - some;
    assert all - (some + {x}) == (all - some) - {x};
  }

  /** Nobody has a check queued. */
  ghost predicate Settled(g: Net)
  {
    forall p {:trigger g[p]} :: p in g ==> g[p].pending == 0
  }

  lemma AnotherOne(names: set<Name>, m: Name) returns (x: Name)
    requires m in names && |names| >= 2
    ensures x in names && x != m
  {
    assert names == {m} + (names - {m});
    x :| x in names - {m};
  }

  /** `m`, which has still to hear of somebody, runs its check to no effect. */
  lemma ChecksOne(g0: Net, g: Net, ph: Phase, m: Name)
    requires At(g0, g, ph) && m in ph.started && m !in ph.begun && ph.heard[m] == {} && |g0.Keys| >= 2
    requires g[m].pending == 1 && forall p :: p in g && p != m ==> g[p].pending == 0
    ensures Enabled(g, RunDeferred(m)) && At(g0, Apply(g, RunDeferred(m)), ph) && Settled(Apply(g, RunDeferred(m)))
  {
    assert MemberAt(g0, g, ph, m) && IsFirst(g0[m].cfg.next);
    var n := g[m].(pending := 0);
    var y := AnotherOne(g0.Keys, m);
    assert Waits(n, g0, m, ph.started, ph.heard[m], true);
    StillWaits(n, g0, m, ph.started, ph.heard[m], true);
    OthersStay(g0, g, ph, m, n, ph.heard[m], ph.begun);
    assert ph.heard[m := ph.heard[m]] == ph.heard;
  }

  lemma StartPending(g: Net, m: Name)
    requires m in g && Enabled(g, Start(m)) && Settled(g)
    ensures var g' := Apply(g, Start(m));
            g'.Keys == g.Keys && g'[m].pending == 1 && forall p :: p in g' && p != m ==> g'[p].pending == 0
  {
  }

  /** `m` starts and, in a prompt run, runs its check at once. */
  lemma StartsNext(g0: Net, g: Net, ph: Phase, m: Name, q: nat, prompt: bool) returns (g': Net)
    requires CanReach(g0, g, q, prompt) && At(g0, g, ph) && m in g0 && m !in ph.started && ph.begun == {}
    requires prompt ==> Settled(g) && |g0.Keys| >= 2 && ph.heard[m] == {}
    ensures CanReach(g0, g', q, prompt) && At(g0, g', ph.(started := ph.started + {m})) && (prompt ==> Settled(g'))
  {
    StartsOne(g0, g, ph, m);
    ReachesNext(g0, g, Start(m), q, prompt);
    g' := Apply(g, Start(m));
    if prompt {
      StartPending(g, m);
      ChecksOne(g0, g', ph.(started := ph.started + {m}), m);
      ReachesNext(g0, g', RunDeferred(m), q, prompt);
      g' := Apply(g', RunDeferred(m));
    }
  }

  lemma {:induction false} StartAll(g0: Net, g: Net, ph: Phase, all: set<Name>, q: nat, prompt: bool) returns (g': Net)
    requires CanReach(g0, g, q, prompt) && At(g0, g, ph) && ph.begun == {} && ph.started <= all <= g0.Keys
    requires prompt ==> Settled(g) && |g0.Keys| >= 2 && ph.heard == Nobody(g0).heard
    ensures CanReach(g0, g', q, prompt) && At(g0, g', ph.(started := all)) && (prompt ==> Settled(g'))
    decreases |all - ph.started|
  {
    g' := g;
    if ph.started != all {
      var m := Pick(ph.started, all);
      g' := StartsNext(g0, g, ph, m, q, prompt);
      g' := StartAll(g0, g', ph.(started := ph.started + {m}), all, q, prompt);
    }
  }

  /** `m` hears of everybody in `all`, one after the other. */
  lemma {:induction false} HearAll(g0: Net, g: Net, ph: Phase, m: Name, all: set<Name>, q: nat, prompt: bool)
    returns (g': Net)
    requires CanReach(g0, g, q, prompt) && At(g0, g, ph) && m in g0 && m !in ph.begun && (prompt ==> Settled(g))
    requires ph.heard[m] <= all <= ph.started - {m}
    requires m in ph.started ==> exists y :: y in g0 && y != m && y !in all
    ensures CanReach(g0, g', q, prompt) && At(g0, g', ph.(heard := ph.heard[m := all])) && (prompt ==> Settled(g'))
    decreases |all - ph.heard[m]|
  {
    g' := g;
    if ph.heard[m] == all {
      assert ph.heard[m := all] == ph.heard;
    } else {
      var x := Pick(ph.heard[m], all);
      var ph' := Hearing(ph, m, x);
      g' := HearsNext(g0, g, ph, m, x, q, prompt);
      g' := HearAll(g0, g', ph', m, all, q, prompt);
      assert ph'.heard[m := all] == ph.heard[m := all];
    }
  }

  lemma HearsNext(g0: Net, g: Net, ph: Phase, m: Name, x: Name, q: nat, prompt: bool) returns (g': Net)
    requires CanReach(g0, g, q, prompt) && At(g0, g, ph) && m in g0 && m !in ph.begun && (prompt ==> Settled(g))
    requires x in ph.started && x != m && x !in ph.heard[m]
    requires m in ph.started ==> exists y :: y in g0 && y != m && y != x && y !in ph.heard[m]
    ensures CanReach(g0, g', q, prompt) && At(g0, g', Hearing(ph, m, x)) && (prompt ==> Settled(g'))
  {
    HearsOne(g0, g, ph, m, x);
    ReachesNext(g0, g, Deliver(m, x), q, prompt);
    DeliverPending(g, m, x);
    g' := Apply(g, Deliver(m, x));
  }

  lemma DeliverPending(g: Net, m: Name, x: Name)
    requires Enabled(g, Deliver(m, x))
    ensures Settled(g) ==> Settled(Apply(g, Deliver(m, x)))
  {
  }

  /** `m`, which has not heard of anybody, hears of everybody and begins its first step. */
  lemma BeginsFirstStep(g0: Net, g: Net, ph: Phase, m: Name, q: nat, prompt: bool) returns (g': Net)
    requires CanReach(g0, g, q, prompt) && At(g0, g, ph) && ph.started == g0.Keys && |g0.Keys| >= 2
    requires m in g0 && m !in ph.begun && ph.heard[m] == {} && (prompt ==> Settled(g))
    ensures CanReach(g0, g', q, prompt) && (prompt ==> Settled(g'))
    ensures At(g0, g', ph.(heard := ph.heard[m := g0.Keys - {m}], begun := ph.begun + {m}))
  {
    var x := AnotherOne(g0.Keys, m);
    var most := g0.Keys - {m} - {x};
    var g1 := HearAll(g0, g, ph, m, most, q, prompt);
    var ph1 := ph.(heard := ph.heard[m := most]);
    assert most + {x} == g0.Keys - {m};
    BeginsOne(g0, g1, ph1, m, x);
    ReachesNext(g0, g1, Deliver(m, x), q, prompt);
    DeliverPending(g1, m, x);
    g' := Apply(g1, Deliver(m, x));
    assert ph1.heard[m := most + {x}] == ph.heard[m := g0.Keys - {m}];
  }
}
