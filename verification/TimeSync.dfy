/** The distributed virtual time algorithm: any number of participants, each with
    its own step size and step handler mode, exchanging step announcements and
    published samples over channels that keep the sending order. An event list
    is one interleaving of their communication threads and user code. */
module TimeSync {
  import opened TimeConfig

  /** A message published inside a simulation step, stamped with that step's time. */
  datatype Sample = Sample(stamp: int, payload: int)

  datatype Msg = Announce(task: NextSimTask) | Publication(sample: Sample)

  /** One participant.
      `lastSent`  time of the last announced step, -1 before the first announcement
      `executing` a step has been started and not yet completed
      `blocking`  the step handler runs on the communication thread
      `pending`   deferred time-advance checks still queued
      `inbox`     per sender, the messages sent and not yet handled
      `received`  per sender, the samples handled so far
      `published` the samples published so far */
  datatype Node = Node(
    cfg: Config, lastSent: int, started: bool, executing: bool, aborted: bool, blocking: bool, pending: nat,
    inbox: map<Name, seq<Msg>>, received: map<Name, seq<Sample>>, published: seq<Sample>)

  type Net = map<Name, Node>

  datatype Event =
    | Start(p: Name)
    | Deliver(p: Name, from: Name)
    | RunDeferred(p: Name)
    | Complete(p: Name)
    | Publish(p: Name, payload: int)
    | SetPeriod(p: Name, period: nat)

  // ---------------------------------------------------------------- transitions

  /** The communication thread is inside a blocking step handler. */
  predicate Busy(n: Node) { n.blocking && n.executing }

  /** `ProcessSimulationTimeUpdate`: start the next step if nobody is behind us. A
      coordinated participant that finds the simulation already running aborts. */
  ghost function Process(n: Node): Node
  {
    if !n.started || n.aborted || HasLower(n.cfg) || n.executing then n
    else if SeesRunningSimulation(n.cfg) then n.(aborted := true)
    else n.(cfg := Advance(n.cfg), executing := true)
  }

  /** `RequestNextStep` announces the next step unless it was announced before. */
  predicate Announces(n: Node) { n.lastSent != n.cfg.next.timePoint }

  function Request(n: Node): Node
  {
    n.(lastSent := n.cfg.next.timePoint, pending := n.pending + 1)
  }

  function Append(n: Node, from: Name, m: Msg): Node
  {
    if from in n.inbox then n.(inbox := n.inbox[from := n.inbox[from] + [m]]) else n
  }

  /** Sending appends to the channel towards every other participant. */
  function Broadcast(g: Net, p: Name, m: Msg): Net
  {
    map q | q in g :: if q == p then g[q] else Append(g[q], p, m)
  }

  ghost function RequestNextStep(g: Net, p: Name): Net
    requires p in g
  {
    var g1 := if Announces(g[p]) then Broadcast(g, p, Announce(g[p].cfg.next)) else g;
    g1[p := Request(g[p])]
  }

  ghost predicate Enabled(g: Net, e: Event)
  {
    && e.p in g
    && match e
       case Start(p) => !g[p].started
       case Deliver(p, from) => from in g[p].inbox && g[p].inbox[from] != [] && !Busy(g[p])
       case RunDeferred(p) => g[p].pending > 0 && !Busy(g[p])
       case Complete(p) => g[p].started && !g[p].aborted && (g[p].blocking ==> g[p].executing)
       case Publish(p, _) => g[p].executing
       case SetPeriod(p, _) => true
  }

  ghost function Receive(n: Node, from: Name): Node
    requires from in n.inbox && n.inbox[from] != []
  {
    var rest := n.(inbox := n.inbox[from := n.inbox[from][1..]]);
    match n.inbox[from][0]
    case Announce(task) =>
      if from in n.cfg.others then Process(rest.(cfg := n.cfg.(others := n.cfg.others[from := task]))) else rest
    case Publication(sample) =>
      if from in n.received then rest.(received := n.received[from := n.received[from] + [sample]]) else rest
  }

  ghost function Apply(g: Net, e: Event): Net
    requires Enabled(g, e)
  {
    match e
    case Start(p) => RequestNextStep(g[p := g[p].(started := true)], p)
    case Deliver(p, from) => g[p := Receive(g[p], from)]
    case RunDeferred(p) => g[p := Process(g[p].(pending := g[p].pending - 1))]
    case Complete(p) => RequestNextStep(g[p := g[p].(executing := false)], p)
    case Publish(p, payload) =>
      var s := Sample(g[p].cfg.current.timePoint, payload);
      Broadcast(g, p, Publication(s))[p := g[p].(published := g[p].published + [s])]
    case SetPeriod(p, period) => g[p := g[p].(cfg := g[p].cfg.(next := g[p].cfg.next.(duration := period)))]
  }

  ghost predicate Idle(n: Node, names: set<Name>)
  {
    && n.cfg.current == UNKNOWN && n.cfg.next.timePoint == 0 && n.cfg.next.duration >= 0 && !n.cfg.hoppedOn
    && n.lastSent == -1 && !n.started && !n.executing && !n.aborted && n.pending == 0 && n.published == []
    && n.cfg.others.Keys == names && n.inbox.Keys == names && n.received.Keys == names
    && (forall q :: q in n.inbox ==> n.cfg.others[q] == UNKNOWN && n.inbox[q] == [] && n.received[q] == [])
  }

  /** All participants are known to each other and none has started. */
  ghost predicate Init(g: Net)
  {
    forall p {:trigger g[p]} :: p in g ==> Idle(g[p], g.Keys - {p})
  }

  ghost predicate ValidRun(g: Net, es: seq<Event>)
  {
    es == [] || (Enabled(g, es[0]) && ValidRun(Apply(g, es[0]), es[1..]))
  }

  ghost function Exec(g: Net, es: seq<Event>): Net
    requires ValidRun(g, es)
  {
    if es == [] then g else Exec(Apply(g, es[0]), es[1..])
  }

  // ------------------------------------------------------------------ invariant

  /** A channel as its receiver sees it: it knows the sender to be at `known`; the
      queued announcements never go back and end at the sender's last one, and a
      queued sample carries the stamp of the announcement that precedes it. */
  ghost predicate ChannelOk(known: int, ch: seq<Msg>, last: int)
    decreases |ch|
  {
    if ch == [] then known == last
    else match ch[0]
         case Announce(task) => known <= task.timePoint && ChannelOk(task.timePoint, ch[1..], last)
         case Publication(s) => s.stamp == known && ChannelOk(known, ch[1..], last)
  }

  ghost function SamplesIn(ch: seq<Msg>): seq<Sample>
  {
    if ch == [] then []
    else if ch[0].Publication? then [ch[0].sample] + SamplesIn(ch[1..])
    else SamplesIn(ch[1..])
  }

  ghost predicate NodeOk(n: Node)
  {
    && -1 <= n.cfg.current.timePoint <= n.cfg.next.timePoint && n.cfg.next.duration >= 0
    && 0 <= n.cfg.next.timePoint
    && -1 <= n.lastSent <= n.cfg.next.timePoint
    && (n.cfg.current.timePoint == -1 ==> n.cfg.next.timePoint == 0)
    && (forall s :: s in n.published ==> s.stamp <= n.cfg.current.timePoint)
    && (!n.started ==>
          n.lastSent == -1 && n.cfg.current.timePoint == -1 && !n.executing && !n.aborted && n.pending == 0)
    && (n.executing ==> n.started && !n.aborted && n.lastSent == n.cfg.current.timePoint)
    && (n.started && !n.executing ==> n.lastSent == n.cfg.next.timePoint)
    // a participant that waits with nothing queued is waiting for somebody
    && (n.started && !n.executing && !n.aborted && n.pending == 0 ==> HasLower(n.cfg))
  }

  /** What receiver `n` knows of sender `m`, named `q`. */
  ghost predicate PairOk(n: Node, m: Node, q: Name)
  {
    && q in n.cfg.others && q in n.inbox && q in n.received
    && n.cfg.current.timePoint <= n.cfg.others[q].timePoint
    && ChannelOk(n.cfg.others[q].timePoint, n.inbox[q], m.lastSent)
    && n.received[q] + SamplesIn(n.inbox[q]) == m.published
  }

  /** Participant `p` tracks nobody but other members of the simulation. */
  ghost predicate KnowsOnly(n: Node, p: Name, names: set<Name>)
  {
    forall q :: q in n.inbox || q in n.cfg.others ==> q in names && q != p
  }

  ghost predicate AllKnow(g: Net, names: set<Name>)
  {
    forall p {:trigger KnowsOnly(g[p], p, names)} :: p in g ==> KnowsOnly(g[p], p, names)
  }

  ghost predicate NodesOk(g: Net)
  {
    forall p {:trigger NodeOk(g[p])} :: p in g ==> NodeOk(g[p])
  }

  ghost predicate PairsOk(g: Net)
  {
    forall p, q {:trigger PairOk(g[p], g[q], q)} :: p in g && q in g && p != q ==> PairOk(g[p], g[q], q)
  }

  ghost predicate Inv(g: Net)
  {
    AllKnow(g, g.Keys) && NodesOk(g) && PairsOk(g)
  }

  // ------------------------------------------------------------- channel lemmas

  lemma {:induction false} ChannelBounds(known: int, ch: seq<Msg>, last: int)
    requires ChannelOk(known, ch, last)
    ensures known <= last
    ensures forall s :: s in SamplesIn(ch) ==> known <= s.stamp <= last
    decreases |ch|
  {
    if ch != [] {
      ChannelBounds(if ch[0].Announce? then ch[0].task.timePoint else known, ch[1..], last);
    }
  }

  lemma {:induction false} AppendAnnounce(known: int, ch: seq<Msg>, last: int, task: NextSimTask)
    requires ChannelOk(known, ch, last) && last <= task.timePoint
    ensures ChannelOk(known, ch + [Announce(task)], task.timePoint)
    ensures SamplesIn(ch + [Announce(task)]) == SamplesIn(ch)
    decreases |ch|
  {
    if ch != [] {
      assert (ch + [Announce(task)])[1..] == ch[1..] + [Announce(task)];
      AppendAnnounce(if ch[0].Announce? then ch[0].task.timePoint else known, ch[1..], last, task);
    } else {
      assert (ch + [Announce(task)])[1..] == [];
    }
  }

  lemma {:induction false} AppendSample(known: int, ch: seq<Msg>, last: int, s: Sample)
    requires ChannelOk(known, ch, last) && last == s.stamp
    ensures ChannelOk(known, ch + [Publication(s)], last)
    ensures SamplesIn(ch + [Publication(s)]) == SamplesIn(ch) + [s]
    decreases |ch|
  {
    if ch != [] {
      assert (ch + [Publication(s)])[1..] == ch[1..] + [Publication(s)];
      AppendSample(if ch[0].Announce? then ch[0].task.timePoint else known, ch[1..], last, s);
    } else {
      assert (ch + [Publication(s)])[1..] == [];
    }
  }

  // --------------------------------------------------------------- preservation

  lemma InitInv(g: Net)
    requires Init(g)
    ensures Inv(g)
  {
  }

  /** The time-advance check keeps a participant consistent with everything it knows. */
  lemma ProcessOk(n: Node)
    requires NodeOk(n) || (n.started && NodeOk(n.(pending := n.pending + 1)))
    ensures var r := Process(n);
            && NodeOk(r) && r.lastSent == n.lastSent && r.published == n.published
            && r.inbox == n.inbox && r.received == n.received && r.cfg.others == n.cfg.others
            && (r.cfg.current == n.cfg.current
                || forall q :: q in r.cfg.others ==> r.cfg.current.timePoint <= r.cfg.others[q].timePoint)
  {
  }

  /** A participant that neither sends nor publishes only has to keep its own view. */
  lemma PreserveLocal(g: Net, p: Name, n: Node)
    requires Inv(g) && p in g && NodeOk(n) && KnowsOnly(n, p, g.Keys)
    requires n.lastSent == g[p].lastSent && n.published == g[p].published
    requires forall q {:trigger PairOk(n, g[q], q)} :: q in g && q != p ==> PairOk(n, g[q], q)
    ensures Inv(g[p := n])
  {
    var g' := g[p := n];
    assert g'.Keys == g.Keys;
    forall a | a in g' ensures NodeOk(g'[a]) && KnowsOnly(g'[a], a, g'.Keys) {
      assert a != p ==> NodeOk(g[a]) && KnowsOnly(g[a], a, g.Keys);
    }
    forall a, q | a in g' && q in g' && a != q ensures PairOk(g'[a], g'[q], q) {
      if a == p { assert PairOk(n, g[q], q); } else { assert PairOk(g[a], g[q], q); }
    }
  }

  lemma PreserveProcess(g: Net, p: Name, n: Node)
    requires Inv(g) && p in g && KnowsOnly(n, p, g.Keys)
    requires NodeOk(n) || (n.started && NodeOk(n.(pending := n.pending + 1)))
    requires n.lastSent == g[p].lastSent && n.published == g[p].published
    requires forall q {:trigger PairOk(n, g[q], q)} :: q in g && q != p ==> PairOk(n, g[q], q)
    ensures Inv(g[p := Process(n)])
  {
    ProcessOk(n);
    var r := Process(n);
    forall q | q in g && q != p ensures PairOk(r, g[q], q) { assert PairOk(n, g[q], q); }
    PreserveLocal(g, p, r);
  }

  lemma LearnPair(n: Node, from: Name, task: NextSimTask, m: Node, q: Name)
    requires PairOk(n, m, q) && from in n.inbox && n.inbox[from] != [] && n.inbox[from][0] == Announce(task)
    ensures var cfg := n.cfg.(others := n.cfg.others[from := task]);
            PairOk(n.(inbox := n.inbox[from := n.inbox[from][1..]], cfg := cfg), m, q)
  {
  }

  lemma PreserveAnnouncement(g: Net, p: Name, from: Name, task: NextSimTask)
    requires Inv(g) && Enabled(g, Deliver(p, from)) && g[p].inbox[from][0] == Announce(task)
    ensures Inv(Apply(g, Deliver(p, from)))
  {
    var n := g[p];
    assert NodeOk(n) && KnowsOnly(n, p, g.Keys) && PairOk(n, g[from], from);
    var others := n.cfg.others[from := task];
    var updated := n.(inbox := n.inbox[from := n.inbox[from][1..]], cfg := n.cfg.(others := others));
    forall q | q in g && q != p ensures PairOk(updated, g[q], q) {
      assert PairOk(n, g[q], q);
      LearnPair(n, from, task, g[q], q);
    }
    PreserveProcess(g, p, updated);
  }

  lemma PreserveSample(g: Net, p: Name, from: Name, s: Sample)
    requires Inv(g) && Enabled(g, Deliver(p, from)) && g[p].inbox[from][0] == Publication(s)
    ensures Inv(Apply(g, Deliver(p, from)))
  {
    var n, ch := g[p], g[p].inbox[from];
    assert NodeOk(n) && KnowsOnly(n, p, g.Keys) && PairOk(n, g[from], from);
    var updated := n.(inbox := n.inbox[from := ch[1..]], received := n.received[from := n.received[from] + [s]]);
    assert n.received[from] + SamplesIn(ch) == updated.received[from] + SamplesIn(ch[1..]);
    forall q | q in g && q != p ensures PairOk(updated, g[q], q) { assert PairOk(n, g[q], q); }
    PreserveLocal(g, p, updated);
  }

  lemma PreserveDeferred(g: Net, p: Name)
    requires Inv(g) && Enabled(g, RunDeferred(p))
    ensures Inv(Apply(g, RunDeferred(p)))
  {
    var n := g[p].(pending := g[p].pending - 1);
    assert NodeOk(g[p]) && KnowsOnly(g[p], p, g.Keys);
    forall q | q in g && q != p ensures PairOk(n, g[q], q) { assert PairOk(g[p], g[q], q); }
    assert n.(pending := n.pending + 1) == g[p];
    PreserveProcess(g, p, n);
  }

  lemma PreserveSetPeriod(g: Net, p: Name, period: nat)
    requires Inv(g) && p in g
    ensures Inv(Apply(g, SetPeriod(p, period)))
  {
    var n := g[p].(cfg := g[p].cfg.(next := g[p].cfg.next.(duration := period)));
    assert NodeOk(g[p]) && KnowsOnly(g[p], p, g.Keys);
    forall q | q in g && q != p ensures PairOk(n, g[q], q) { assert PairOk(g[p], g[q], q); }
    assert HasLower(g[p].cfg) ==> HasLower(n.cfg);
    PreserveLocal(g, p, n);
  }

  lemma AppendOk(n: Node, from: Name, m: Msg, p: Name, names: set<Name>)
    requires NodeOk(n) && KnowsOnly(n, p, names)
    ensures NodeOk(Append(n, from, m)) && KnowsOnly(Append(n, from, m), p, names)
  {
  }

  lemma AppendElsewhere(n: Node, from: Name, m: Msg, x: Node, x': Node, q: Name)
    requires PairOk(n, x, q) && q != from && x'.lastSent == x.lastSent && x'.published == x.published
    ensures PairOk(Append(n, from, m), x', q)
  {
  }

  lemma SendKeepsNodes(g: Net, p: Name, n: Node, m: Msg)
    requires Inv(g) && p in g && NodeOk(n) && n.cfg.others == g[p].cfg.others && n.inbox == g[p].inbox
    ensures var g' := Broadcast(g, p, m)[p := n];
            g'.Keys == g.Keys && NodesOk(g') && AllKnow(g', g.Keys)
  {
    var g' := Broadcast(g, p, m)[p := n];
    forall a | a in g' ensures NodeOk(g'[a]) && KnowsOnly(g'[a], a, g.Keys) {
      assert NodeOk(g[a]) && KnowsOnly(g[a], a, g.Keys);
      AppendOk(g[a], p, m, a, g.Keys);
    }
  }

  /** A participant that sends `m` and becomes `n`, keeping what it knows of the others. */
  lemma PreserveSend(g: Net, p: Name, n: Node, m: Msg)
    requires Inv(g) && p in g && NodeOk(n)
    requires n.cfg.others == g[p].cfg.others && n.inbox == g[p].inbox && n.received == g[p].received
    requires n.cfg.current == g[p].cfg.current
    requires forall a {:trigger Append(g[a], p, m)} :: a in g && a != p ==> PairOk(Append(g[a], p, m), n, p)
    ensures Inv(Broadcast(g, p, m)[p := n])
  {
    var g' := Broadcast(g, p, m)[p := n];
    SendKeepsNodes(g, p, n, m);
    forall a, q | a in g' && q in g' && a != q ensures PairOk(g'[a], g'[q], q) {
      assert PairOk(g[a], g[q], q);
      if a == p {
        assert PairOk(n, g[q], q);
      } else if q == p {
        assert PairOk(Append(g[a], p, m), n, p);
      } else {
        AppendElsewhere(g[a], p, m, g[q], g'[q], q);
      }
    }
  }

  lemma SamplePair(n: Node, m: Node, m': Node, p: Name, s: Sample)
    requires PairOk(n, m, p) && m.lastSent == s.stamp && m'.lastSent == m.lastSent && m'.published == m.published + [s]
    ensures PairOk(Append(n, p, Publication(s)), m', p)
  {
    AppendSample(n.cfg.others[p].timePoint, n.inbox[p], m.lastSent, s);
    assert n.received[p] + (SamplesIn(n.inbox[p]) + [s]) == m.published + [s];
  }

  lemma AnnouncePair(n: Node, m: Node, m': Node, p: Name, task: NextSimTask)
    requires PairOk(n, m, p) && m.lastSent <= task.timePoint == m'.lastSent && m'.published == m.published
    ensures PairOk(Append(n, p, Announce(task)), m', p)
  {
    AppendAnnounce(n.cfg.others[p].timePoint, n.inbox[p], m.lastSent, task);
  }

  lemma PreservePublish(g: Net, p: Name, payload: int)
    requires Inv(g) && Enabled(g, Publish(p, payload))
    ensures Inv(Apply(g, Publish(p, payload)))
  {
    var s := Sample(g[p].cfg.current.timePoint, payload);
    var n := g[p].(published := g[p].published + [s]);
    assert NodeOk(g[p]);
    forall a | a in g && a != p ensures PairOk(Append(g[a], p, Publication(s)), n, p) {
      assert PairOk(g[a], g[p], p);
      SamplePair(g[a], g[p], n, p, s);
    }
    PreserveSend(g, p, n, Publication(s));
  }

  lemma BroadcastIgnoresSender(g: Net, p: Name, n: Node, r: Node, m: Msg)
    requires p in g
    ensures Broadcast(g[p := n], p, m)[p := r] == Broadcast(g, p, m)[p := r]
  {
  }

  /** `RequestNextStep` by a participant that is outside its step from now on. */
  lemma PreserveRequest(g: Net, p: Name, n: Node)
    requires Inv(g) && p in g && !g[p].aborted
    requires n == g[p].(started := true, executing := false)
    ensures Inv(RequestNextStep(g[p := n], p))
  {
    assert NodeOk(g[p]) && KnowsOnly(g[p], p, g.Keys);
    var r := Request(n);
    assert NodeOk(r) && g[p].lastSent <= r.lastSent;
    if Announces(n) {
      forall a | a in g && a != p ensures PairOk(Append(g[a], p, Announce(n.cfg.next)), r, p) {
        assert PairOk(g[a], g[p], p);
        AnnouncePair(g[a], g[p], r, p, n.cfg.next);
      }
      PreserveSend(g, p, r, Announce(n.cfg.next));
      BroadcastIgnoresSender(g, p, n, r, Announce(n.cfg.next));
    } else {
      forall q | q in g && q != p ensures PairOk(r, g[q], q) { assert PairOk(g[p], g[q], q); }
      PreserveLocal(g, p, r);
      assert g[p := n][p := r] == g[p := r];
    }
  }

  lemma Preserve(g: Net, e: Event)
    requires Inv(g) && Enabled(g, e)
    ensures Inv(Apply(g, e))
  {
    match e
    case Start(p) =>
      assert NodeOk(g[p]);
      PreserveRequest(g, p, g[p].(started := true));
    case Deliver(p, from) =>
      match g[p].inbox[from][0] {
        case Announce(task) => PreserveAnnouncement(g, p, from, task);
        case Publication(s) => PreserveSample(g, p, from, s);
      }
    case RunDeferred(p) => PreserveDeferred(g, p);
    case Complete(p) =>
      assert NodeOk(g[p]);
      PreserveRequest(g, p, g[p].(executing := false));
    case Publish(p, payload) => PreservePublish(g, p, payload);
    case SetPeriod(p, period) => PreserveSetPeriod(g, p, period);
  }

  lemma {:induction false} RunInv(g: Net, es: seq<Event>)
    requires Inv(g) && ValidRun(g, es)
    ensures Inv(Exec(g, es))
    decreases |es|
  {
    if es != [] {
      Preserve(g, es[0]);
      RunInv(Apply(g, es[0]), es[1..]);
    }
  }
}
