/** The order of one participant's IO thread. A participant announces a step and queues its
    own check behind the announcement, so whatever answers the announcement is handled after
    the check. Here this is asked for the first check only. */
module TimeSyncOrdered {
  import opened TimeConfig
  import opened TimeSync
  import opened TimeSyncTheorems
  import opened TimeSyncStart

  /** For every participant whose first check is still queued: how many messages of each
      sender were there before it. */
  type Fence = map<Name, map<Name, nat>>

  predicate Passes(f: Fence, e: Event)
  {
    e.Deliver? && e.p in f ==> e.from in f[e.p] && f[e.p][e.from] > 0
  }

  function Queues(n: Node): map<Name, nat>
  {
    map x | x in n.inbox :: |n.inbox[x]|
  }

  function NextFence(g: Net, f: Fence, e: Event): Fence
    requires e.p in g
  {
    match e
    case Start(p) => f[p := Queues(g[p])]
    case RunDeferred(p) => f - {p}
    case Deliver(p, x) => if p in f && x in f[p] && f[p][x] > 0 then f[p := f[p][x := f[p][x] - 1]] else f
    case _ => f
  }

  ghost predicate OrderedRun(g: Net, f: Fence, es: seq<Event>)
    requires ValidRun(g, es)
    decreases |es|
  {
    es == [] || (Passes(f, es[0]) && OrderedRun(Apply(g, es[0]), NextFence(g, f, es[0]), es[1..]))
  }

  // -------------------------------------------------------- prompt runs are ordered runs

  ghost predicate FenceOk(g: Net, f: Fence)
  {
    forall p {:trigger p in f} :: p in f ==> p in g && g[p].pending > 0
  }

  lemma FenceStays(g: Net, f: Fence, e: Event)
    requires FenceOk(g, f) && Enabled(g, e) && (e.Deliver? ==> g[e.p].pending == 0)
    ensures Passes(f, e) && FenceOk(Apply(g, e), NextFence(g, f, e))
  {
    var g', f' := Apply(g, e), NextFence(g, f, e);
    forall p | p in f' ensures p in g' && g'[p].pending > 0 {
      assert p in f || p == e.p;
      assert p in f ==> p in g && g[p].pending > 0;
    }
  }

  lemma {:induction false} PromptIsOrdered(g: Net, f: Fence, es: seq<Event>)
    requires FenceOk(g, f) && ValidRun(g, es) && PromptRun(g, es)
    ensures OrderedRun(g, f, es)
    decreases |es|
  {
    if es != [] {
      FenceStays(g, f, es[0]);
      PromptIsOrdered(Apply(g, es[0]), NextFence(g, f, es[0]), es[1..]);
    }
  }

  // --------------------------------------------------------------------- two participants

  predicate NotPast(ch: seq<Msg>)
  {
    forall i :: 0 <= i < |ch| && ch[i].Announce? ==> !IsPastFirstStep(ch[i].task)
  }

  predicate IsZero(t: NextSimTask)
  {
    t.timePoint == 0 && !IsPastFirstStep(t)
  }

  /** The first announcement in the channel, if any, is the one of the first step. */
  predicate FirstZero(ch: seq<Msg>)
  {
    ch == [] || if ch[0].Announce? then IsZero(ch[0].task) else FirstZero(ch[1..])
  }

  predicate Announced(ch: seq<Msg>)
  {
    exists i :: 0 <= i < |ch| && ch[i].Announce?
  }

  lemma {:induction false} FirstZeroAppend(ch: seq<Msg>, m: Msg)
    requires FirstZero(ch) && (m.Announce? ==> IsZero(m.task) || Announced(ch))
    ensures FirstZero(ch + [m])
    decreases |ch|
  {
    if ch == [] {
      assert (ch + [m])[1..] == [];
    } else if ch[0].Publication? {
      assert (ch + [m])[1..] == ch[1..] + [m];
      if Announced(ch) {
        var i :| 0 <= i < |ch| && ch[i].Announce?;
        assert ch[1..][i - 1].Announce?;
      }
      FirstZeroAppend(ch[1..], m);
    }
  }

  lemma {:induction false} NoAnnouncement(known: int, ch: seq<Msg>, last: int)
    requires ChannelOk(known, ch, last) && known < last
    ensures Announced(ch)
    decreases |ch|
  {
    if ch[0].Publication? {
      NoAnnouncement(known, ch[1..], last);
      var i :| 0 <= i < |ch[1..]| && ch[1..][i].Announce?;
      assert ch[i + 1].Announce?;
    }
  }

  /** Participant `n` has not aborted, and before its first step it can find no announcement
      of the other one, `o`, that would make it abort. */
  ghost predicate SideOk(n: Node, o: Name, fence: map<Name, nat>, fenced: bool)
  {
    && !n.aborted && (n.executing ==> n.cfg.current.timePoint >= 0) && n.cfg.others.Keys == {o} && o in n.inbox
    && (n.cfg.current.timePoint == -1 ==>
          && !n.executing && !IsPastFirstStep(n.cfg.others[o]) && n.cfg.others[o].timePoint >= -1
          && (n.cfg.others[o].timePoint == -1 ==> FirstZero(n.inbox[o]))
          && (!n.started ==> NotPast(n.inbox[o]))
          && (n.started && fenced ==> o in fence && fence[o] <= |n.inbox[o]| && NotPast(n.inbox[o][..fence[o]]))
          && (n.started && !fenced ==> n.cfg.others[o].timePoint == -1))
  }

  ghost predicate Side(g: Net, f: Fence, p: Name, o: Name)
    requires p in g
  {
    SideOk(g[p], o, if p in f then f[p] else map[], p in f)
  }

  ghost predicate Pair(g: Net, f: Fence, a: Name, b: Name)
  {
    a != b && g.Keys == {a, b} && Side(g, f, a, b) && Side(g, f, b, a)
  }

  lemma SideInit(n: Node, o: Name)
    requires Idle(n, {o})
    ensures SideOk(n, o, map[], false)
  {
  }

  lemma SideStart(n: Node, o: Name)
    requires SideOk(n, o, map[], false) && NodeOk(n) && !n.started
    ensures SideOk(Request(n.(started := true)), o, Queues(n), true)
  {
    assert n.inbox[o][..|n.inbox[o]|] == n.inbox[o];
  }

  function Shrunk(fence: map<Name, nat>, o: Name): map<Name, nat>
    requires o in fence && fence[o] > 0
  {
    fence[o := fence[o] - 1]
  }

  /** The queue gets shorter by its first message. */
  lemma SideShift(n: Node, o: Name, fence: map<Name, nat>, fenced: bool)
    requires SideOk(n, o, fence, fenced) && n.inbox[o] != [] && (fenced ==> o in fence && fence[o] > 0)
    requires n.cfg.current.timePoint == -1
    ensures var rest := n.inbox[o][1..];
            && (!n.started ==> NotPast(rest))
            && (n.started && fenced ==> fence[o] - 1 <= |rest| && NotPast(rest[..fence[o] - 1]))
            && (n.inbox[o][0].Publication? && n.cfg.others[o].timePoint == -1 ==> FirstZero(rest))
  {
    var rest := n.inbox[o][1..];
    assert forall i :: 0 <= i < |rest| ==> rest[i] == n.inbox[o][i + 1];
    if n.started && fenced {
      var head := n.inbox[o][..fence[o]];
      var tail := head[1..];
      assert rest[..fence[o] - 1] == tail && forall i :: 0 <= i < |tail| ==> tail[i] == head[i + 1];
    }
  }

  lemma SideSample(n: Node, o: Name, fence: map<Name, nat>, fenced: bool)
    requires SideOk(n, o, fence, fenced) && n.inbox[o] != [] && (fenced ==> o in fence && fence[o] > 0)
    requires n.inbox[o][0].Publication?
    ensures SideOk(Receive(n, o), o, if fenced then Shrunk(fence, o) else fence, fenced)
  {
    if n.cfg.current.timePoint == -1 {
      SideShift(n, o, fence, fenced);
    }
  }

  lemma SideAnnouncement(n: Node, o: Name, fence: map<Name, nat>, fenced: bool, task: NextSimTask, last: int)
    requires SideOk(n, o, fence, fenced) && NodeOk(n) && n.inbox[o] != [] && n.inbox[o][0] == Announce(task)
    requires ChannelOk(n.cfg.others[o].timePoint, n.inbox[o], last) && (fenced ==> o in fence && fence[o] > 0)
    ensures SideOk(Receive(n, o), o, if fenced then Shrunk(fence, o) else fence, fenced)
  {
    var u := n.(inbox := n.inbox[o := n.inbox[o][1..]], cfg := n.cfg.(others := n.cfg.others[o := task]));
    var fence' := if fenced then Shrunk(fence, o) else fence;
    assert Receive(n, o) == Process(u) && u.cfg.others.Keys == {o};
    if n.cfg.current.timePoint == -1 {
      SideShift(n, o, fence, fenced);
      assert task.timePoint >= 0;
      if n.started {
        assert fenced ==> n.inbox[o][..fence[o]][0] == Announce(task);
        assert !IsPastFirstStep(task);
        assert HasLower(n.cfg) ==> n.cfg.others[o].timePoint < 0;
        SideBegins(u, o, fence', fenced);
      } else {
        assert Process(u) == u;
      }
    } else {
      SideGoesOn(u, o, fence', fenced);
    }
  }

  /** A participant that has heard of the other one's first step begins its own. */
  lemma SideBegins(n: Node, o: Name, fence: map<Name, nat>, fenced: bool)
    requires n.started && !n.aborted && !n.executing && n.cfg.others.Keys == {o} && o in n.inbox
    requires n.cfg.current.timePoint == -1 && n.cfg.next.timePoint == 0
    requires n.cfg.others[o].timePoint >= 0 && !IsPastFirstStep(n.cfg.others[o])
    ensures SideOk(Process(n), o, fence, fenced)
  {
    assert !HasLower(n.cfg) && !SeesRunningSimulation(n.cfg);
  }

  /** A participant that has begun never aborts. */
  lemma SideGoesOn(n: Node, o: Name, fence: map<Name, nat>, fenced: bool)
    requires !n.aborted && n.cfg.others.Keys == {o} && o in n.inbox
    requires n.cfg.current.timePoint >= 0 && n.cfg.next.timePoint >= 0
    ensures SideOk(Process(n), o, fence, fenced)
  {
  }

  lemma SideDeferred(n: Node, o: Name, fence: map<Name, nat>, fenced: bool)
    requires SideOk(n, o, fence, fenced) && NodeOk(n) && n.pending > 0
    ensures SideOk(Process(n.(pending := n.pending - 1)), o, map[], false)
  {
    var u := n.(pending := n.pending - 1);
    if n.cfg.current.timePoint >= 0 {
      SideGoesOn(u, o, map[], false);
    } else if n.cfg.others[o].timePoint >= 0 {
      SideBegins(u, o, map[], false);
    } else {
      assert HasLower(u.cfg);
    }
  }

  lemma SideAppend(n: Node, o: Name, fence: map<Name, nat>, fenced: bool, m: Msg)
    requires SideOk(n, o, fence, fenced)
    requires n.cfg.current.timePoint == -1 && m.Announce? ==>
               && (!n.started ==> !IsPastFirstStep(m.task))
               && (n.cfg.others[o].timePoint == -1 ==> IsZero(m.task) || Announced(n.inbox[o]))
    ensures SideOk(Append(n, o, m), o, fence, fenced)
  {
    if n.cfg.current.timePoint == -1 {
      if n.cfg.others[o].timePoint == -1 {
        FirstZeroAppend(n.inbox[o], m);
      }
      if n.started && fenced {
        assert (n.inbox[o] + [m])[..fence[o]] == n.inbox[o][..fence[o]];
      }
    }
  }

  /** What participant `p` announces is harmless to the other one, `o`. */
  lemma HarmlessAnnouncement(g: Net, f: Fence, p: Name, o: Name)
    requires Inv(g) && Pair(g, f, p, o)
    ensures g[o].cfg.current.timePoint == -1 ==>
              && (!g[o].started ==> !IsPastFirstStep(g[p].cfg.next))
              && (g[o].cfg.others[p].timePoint == -1 ==> IsZero(g[p].cfg.next) || Announced(g[o].inbox[p]))
  {
    assert NodeOk(g[p]) && NodeOk(g[o]) && PairOk(g[o], g[p], p);
    WindowOf(g, p, o);
    if g[p].lastSent >= 0 && g[o].cfg.others[p].timePoint == -1 {
      NoAnnouncement(-1, g[o].inbox[p], g[p].lastSent);
    }
  }

  // ------------------------------------------------------------------------- one event

  lemma PairSymmetric(g: Net, f: Fence, a: Name, b: Name)
    requires Pair(g, f, a, b)
    ensures Pair(g, f, b, a)
  {
  }

  lemma PairRequest(g: Net, f: Fence, f': Fence, p: Name, o: Name, n: Node)
    requires Inv(g) && Pair(g, f, p, o) && n.cfg == g[p].cfg && (o in f' <==> o in f) && (o in f ==> f'[o] == f[o])
    requires SideOk(Request(n), o, if p in f' then f'[p] else map[], p in f')
    ensures Pair(RequestNextStep(g[p := n], p), f', p, o)
  {
    var g' := RequestNextStep(g[p := n], p);
    var m := Announce(n.cfg.next);
    assert g'.Keys == g.Keys;
    HarmlessAnnouncement(g, f, p, o);
    SideAppend(g[o], p, if o in f then f[o] else map[], o in f, m);
    assert g'[o] == g[o] || g'[o] == Append(g[o], p, m);
  }

  lemma PairReceive(g: Net, f: Fence, p: Name, o: Name)
    requires Inv(g) && Pair(g, f, p, o) && Enabled(g, Deliver(p, o)) && Passes(f, Deliver(p, o))
    ensures Pair(Apply(g, Deliver(p, o)), NextFence(g, f, Deliver(p, o)), p, o)
  {
    var fence, fenced := if p in f then f[p] else map[], p in f;
    assert NodeOk(g[p]) && PairOk(g[p], g[o], o);
    match g[p].inbox[o][0]
    case Announce(task) => SideAnnouncement(g[p], o, fence, fenced, task, g[o].lastSent);
    case Publication(_) => SideSample(g[p], o, fence, fenced);
  }

  lemma PairPublish(g: Net, f: Fence, p: Name, o: Name, payload: int)
    requires Inv(g) && Pair(g, f, p, o) && Enabled(g, Publish(p, payload))
    ensures Pair(Apply(g, Publish(p, payload)), f, p, o)
  {
    var m := Publication(Sample(g[p].cfg.current.timePoint, payload));
    SideAppend(g[o], p, if o in f then f[o] else map[], o in f, m);
  }

  lemma PairEvent(g: Net, f: Fence, e: Event, o: Name)
    requires Inv(g) && Pair(g, f, e.p, o) && Enabled(g, e) && Passes(f, e) && FenceStarted(g, f)
    ensures Pair(Apply(g, e), NextFence(g, f, e), e.p, o)
  {
    var p := e.p;
    assert NodeOk(g[p]) && KnowsOnly(g[p], p, g.Keys);
    match e
    case Start(_) =>
      assert p !in f;
      SideStart(g[p], o);
      PairRequest(g, f, NextFence(g, f, e), p, o, g[p].(started := true));
    case Complete(_) => PairRequest(g, f, f, p, o, g[p].(executing := false));
    case Deliver(_, from) =>
      assert from == o;
      PairReceive(g, f, p, o);
    case RunDeferred(_) => SideDeferred(g[p], o, if p in f then f[p] else map[], p in f);
    case Publish(_, payload) => PairPublish(g, f, p, o, payload);
    case SetPeriod(_, _) =>
  }

  ghost predicate FenceStarted(g: Net, f: Fence)
  {
    forall p {:trigger p in f} :: p in f ==> p in g && g[p].started
  }

  lemma FenceStaysStarted(g: Net, f: Fence, e: Event)
    requires FenceStarted(g, f) && Enabled(g, e)
    ensures FenceStarted(Apply(g, e), NextFence(g, f, e))
  {
    var g', f' := Apply(g, e), NextFence(g, f, e);
    forall p | p in f' ensures p in g' && g'[p].started {
      assert p in f || p == e.p;
      assert p in f ==> p in g && g[p].started;
    }
  }

  lemma {:induction false} PairRun(g: Net, f: Fence, es: seq<Event>, a: Name, b: Name)
    requires Inv(g) && Pair(g, f, a, b) && FenceStarted(g, f) && ValidRun(g, es) && OrderedRun(g, f, es)
    ensures var r := Exec(g, es); a in r && b in r && !r[a].aborted && !r[b].aborted
    decreases |es|
  {
    if es != [] {
      var e := es[0];
      FenceStaysStarted(g, f, e);
      Preserve(g, e);
      if e.p == a {
        PairEvent(g, f, e, b);
      } else {
        PairSymmetric(g, f, a, b);
        PairEvent(g, f, e, a);
        PairSymmetric(Apply(g, e), NextFence(g, f, e), b, a);
      }
      PairRun(Apply(g, e), NextFence(g, f, e), es[1..], a, b);
    }
  }

  /** In an ordered run two participants never abort, whatever periods they set. */
  lemma TwoNeverAbort(g0: Net, es: seq<Event>, a: Name, b: Name)
    requires Init(g0) && a != b && g0.Keys == {a, b} && ValidRun(g0, es) && OrderedRun(g0, map[], es)
    ensures var r := Exec(g0, es); a in r && b in r && !r[a].aborted && !r[b].aborted
  {
    InitInv(g0);
    assert g0.Keys - {a} == {b} && g0.Keys - {b} == {a};
    assert Idle(g0[a], {b}) && Idle(g0[b], {a});
    SideInit(g0[a], b);
    SideInit(g0[b], a);
    PairRun(g0, map[], es, a, b);
  }
}
