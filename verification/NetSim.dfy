/** The simulated networks of the network simulator tests. Controllers are numbered in the
    order in which the network provides them; a controller reacts to a message of its
    participant by producing events, for itself or for all controllers provided so far. */
module NetSim {

  datatype Message =
    | CanMode | CanBaudrate | CanRequest
    | FlexrayCommand(wakeup: bool) | FlexrayConfig
    | LinRequest(id: nat) | LinHeader | LinPulse | LinConfig | LinResponse | LinStatusUpdate(sleepPending: bool)

  datatype Kind =
    | CanState | CanErrorState | CanAck | CanFrame
    | PocStatus | CycleStart | Symbol | SymbolTransmit
    | LinStatus | LinHeaderSent | LinWakeup

  datatype Production = Production(kind: Kind, receivers: seq<nat>)

  const GO_TO_SLEEP: nat := 60

  function Everybody(n: nat): (r: seq<nat>)
    ensures |r| == n
  {
    seq(n, i => i)
  }

  /** What controller `i` of `n` produces. */
  function React(dynamic: bool, n: nat, i: nat, m: Message): seq<Production>
  {
    match m
    case CanMode => [Production(CanState, [i]), Production(CanErrorState, [i])]
    case CanRequest => [Production(CanAck, [i]), Production(CanFrame, Everybody(n))]
    case FlexrayCommand(wakeup) =>
      if wakeup then
        [Production(PocStatus, Everybody(n)), Production(CycleStart, Everybody(n)),
         Production(Symbol, Everybody(n)), Production(SymbolTransmit, [i])]
      else []
    case LinRequest(id) => if id == GO_TO_SLEEP then [] else [Production(LinStatus, Everybody(n))]
    case LinHeader => [Production(LinHeaderSent, Everybody(n))]
    case LinPulse => [Production(LinWakeup, Everybody(n))]
    case LinResponse => if dynamic then [Production(LinStatus, Everybody(n))] else []
    case LinStatusUpdate(sleepPending) => if sleepPending then [Production(LinStatus, Everybody(n))] else []
    case _ => []
  }

  /** `MySimulatedNetwork`: the list of controllers grows, and every call is counted. */
  class Network {
    const dynamic: bool
    var controllers: seq<nat>
    var providedCalls: nat
    var messageCalls: nat
    ghost var log: seq<Production>

    constructor (dynamic: bool)
      ensures this.dynamic == dynamic && controllers == [] && providedCalls == 0 && messageCalls == 0 && log == []
    {
      this.dynamic := dynamic;
      controllers, providedCalls, messageCalls, log := [], 0, 0, [];
    }

    method ProvideSimulatedController() returns (i: nat)
      requires controllers == Everybody(|controllers|)
      modifies this
      ensures i == old(|controllers|) && controllers == Everybody(i + 1)
      ensures providedCalls == old(providedCalls) + 1 && messageCalls == old(messageCalls) && log == old(log)
    {
      i := |controllers|;
      providedCalls := providedCalls + 1;
      controllers := controllers + [i];
    }

    method Produce(kind: Kind, receivers: seq<nat>)
      modifies this`log
      ensures log == old(log) + [Production(kind, receivers)]
    {
      log := log + [Production(kind, receivers)];
    }

    method OnMessage(i: nat, m: Message)
      requires controllers == Everybody(|controllers|) && i < |controllers|
      modifies this
      ensures log == old(log) + React(dynamic, |controllers|, i, m)
      ensures messageCalls == old(messageCalls) + 1
      ensures controllers == old(controllers) && providedCalls == old(providedCalls)
    {
      messageCalls := messageCalls + 1;
      match m {
        case CanMode =>
          Produce(CanState, [i]);
          Produce(CanErrorState, [i]);
        case CanRequest =>
          Produce(CanAck, [i]);
          Produce(CanFrame, controllers);
        case FlexrayCommand(wakeup) =>
          if wakeup {
            Produce(PocStatus, controllers);
            Produce(CycleStart, controllers);
            Produce(Symbol, controllers);
            Produce(SymbolTransmit, [i]);
          }
        case LinRequest(id) =>
          if id == GO_TO_SLEEP {
            return;
          }
          Produce(LinStatus, controllers);
        case LinHeader => Produce(LinHeaderSent, controllers);
        case LinPulse => Produce(LinWakeup, controllers);
        case LinResponse =>
          if dynamic {
            Produce(LinStatus, controllers);
          }
        case LinStatusUpdate(sleepPending) =>
          if sleepPending {
            Produce(LinStatus, controllers);
          }
        case _ =>
      }
    }
  }

  // ------------------------------------------------------------------------- the runs

  datatype Event = Provide | Deliver(i: nat, m: Message)

  predicate ValidRun(es: seq<Event>)
  {
    es == [] || (ValidRun(es[..|es| - 1]) && (es[|es| - 1].Deliver? ==> es[|es| - 1].i < Provided(es[..|es| - 1])))
  }

  function Provided(es: seq<Event>): nat
  {
    if es == [] then 0 else Provided(es[..|es| - 1]) + if es[|es| - 1].Provide? then 1 else 0
  }

  function Log(dynamic: bool, es: seq<Event>): seq<Production>
  {
    if es == [] then []
    else
      var before, last := es[..|es| - 1], es[|es| - 1];
      Log(dynamic, before) + if last.Provide? then [] else React(dynamic, Provided(before), last.i, last.m)
  }

  function Times(receivers: seq<nat>, j: nat): nat
  {
    if receivers == [] then 0 else (if receivers[0] == j then 1 else 0) + Times(receivers[1..], j)
  }

  /** How many events of a kind controller `j` gets. */
  function DeliveredTo(log: seq<Production>, k: Kind, j: nat): nat
  {
    if log == [] then 0 else (if log[0].kind == k then Times(log[0].receivers, j) else 0) + DeliveredTo(log[1..], k, j)
  }

  /** How many events of a kind all controllers get together. */
  function Deliveries(log: seq<Production>, k: Kind): nat
  {
    if log == [] then 0 else (if log[0].kind == k then |log[0].receivers| else 0) + Deliveries(log[1..], k)
  }

  /** The requests that the network answers with an event for every controller. */
  predicate IsForAll(dynamic: bool, m: Message, k: Kind)
  {
    || (m.CanRequest? && k.CanFrame?)
    || (m.FlexrayCommand? && m.wakeup && (k.PocStatus? || k.CycleStart? || k.Symbol?))
    || (k.LinStatus? && m.LinRequest? && m.id != GO_TO_SLEEP)
    || (k.LinStatus? && m.LinStatusUpdate? && m.sleepPending)
    || (k.LinStatus? && m.LinResponse? && dynamic)
    || (m.LinHeader? && k.LinHeaderSent?)
    || (m.LinPulse? && k.LinWakeup?)
  }

  /** The requests that the network answers to the sender alone. */
  predicate IsForSender(m: Message, k: Kind)
  {
    || (m.CanMode? && (k.CanState? || k.CanErrorState?))
    || (m.CanRequest? && k.CanAck?)
    || (m.FlexrayCommand? && m.wakeup && k.SymbolTransmit?)
  }

  function Bit(b: bool): nat
  {
    if b then 1 else 0
  }

  lemma {:induction false} EverybodyOnce(n: nat, j: nat)
    ensures Times(Everybody(n), j) == Bit(j < n)
  {
    TimesFrom(0, n, j);
    assert Everybody(n) == seq(n, i => 0 + i);
  }

  lemma {:induction false} TimesFrom(a: nat, n: nat, j: nat)
    ensures Times(seq(n, i => a + i), j) == Bit(a <= j < a + n)
    decreases n
  {
    if n > 0 {
      assert seq(n, i => a + i)[1..] == seq(n - 1, i => a + 1 + i);
      TimesFrom(a + 1, n - 1, j);
    }
  }

  lemma {:induction false} DeliveredToAppend(a: seq<Production>, b: seq<Production>, k: Kind, j: nat)
    ensures DeliveredTo(a + b, k, j) == DeliveredTo(a, k, j) + DeliveredTo(b, k, j)
    ensures Deliveries(a + b, k) == Deliveries(a, k) + Deliveries(b, k)
    decreases |a|
  {
    if a == [] {
      assert a + b == b;
    } else {
      assert (a + b)[1..] == a[1..] + b;
      DeliveredToAppend(a[1..], b, k, j);
    }
  }

  function Share(p: Production, k: Kind, j: nat): nat
  {
    if p.kind == k then Times(p.receivers, j) else 0
  }

  function Size(p: Production, k: Kind): nat
  {
    if p.kind == k then |p.receivers| else 0
  }

  lemma One(p: Production, k: Kind, j: nat)
    ensures DeliveredTo([p], k, j) == Share(p, k, j) && Deliveries([p], k) == Size(p, k)
  {
    assert [p][1..] == [];
  }

  lemma Two(p: Production, q: Production, k: Kind, j: nat)
    ensures DeliveredTo([p, q], k, j) == Share(p, k, j) + Share(q, k, j)
    ensures Deliveries([p, q], k) == Size(p, k) + Size(q, k)
  {
    assert [p, q][1..] == [q];
    One(q, k, j);
  }

  lemma Four(p: Production, q: Production, r: Production, s: Production, k: Kind, j: nat)
    ensures DeliveredTo([p, q, r, s], k, j) == Share(p, k, j) + Share(q, k, j) + Share(r, k, j) + Share(s, k, j)
    ensures Deliveries([p, q, r, s], k) == Size(p, k) + Size(q, k) + Size(r, k) + Size(s, k)
  {
    Two(p, q, k, j);
    Two(r, s, k, j);
    assert [p, q, r, s] == [p, q] + [r, s];
    DeliveredToAppend([p, q], [r, s], k, j);
  }

  predicate ReactsOnce(dynamic: bool, n: nat, i: nat, m: Message, k: Kind, j: nat)
  {
    && DeliveredTo(React(dynamic, n, i, m), k, j) ==
         Bit(IsForAll(dynamic, m, k) && j < n) + Bit(IsForSender(m, k) && j == i)
    && Deliveries(React(dynamic, n, i, m), k) == (if IsForAll(dynamic, m, k) then n else 0) + Bit(IsForSender(m, k))
  }

  lemma Receivers(n: nat, i: nat, j: nat)
    ensures Times(Everybody(n), j) == Bit(j < n) && Times([i], j) == Bit(j == i)
  {
    EverybodyOnce(n, j);
    assert [i][1..] == [];
  }

  lemma CanReaction(dynamic: bool, n: nat, i: nat, m: Message, k: Kind, j: nat)
    requires m.CanMode? || m.CanRequest?
    ensures ReactsOnce(dynamic, n, i, m, k, j)
  {
    Receivers(n, i, j);
    if m.CanMode? {
      Two(Production(CanState, [i]), Production(CanErrorState, [i]), k, j);
    } else {
      Two(Production(CanAck, [i]), Production(CanFrame, Everybody(n)), k, j);
    }
  }

  lemma FlexrayReaction(dynamic: bool, n: nat, i: nat, k: Kind, j: nat)
    ensures ReactsOnce(dynamic, n, i, FlexrayCommand(true), k, j)
  {
    Receivers(n, i, j);
    Four(Production(PocStatus, Everybody(n)), Production(CycleStart, Everybody(n)),
         Production(Symbol, Everybody(n)), Production(SymbolTransmit, [i]), k, j);
  }

  lemma LinReaction(dynamic: bool, n: nat, i: nat, m: Message, k: Kind, j: nat, kind: Kind)
    requires React(dynamic, n, i, m) == [Production(kind, Everybody(n))]
    requires IsForAll(dynamic, m, k) <==> k == kind
    requires !IsForSender(m, k)
    ensures ReactsOnce(dynamic, n, i, m, k, j)
  {
    Receivers(n, i, j);
    One(Production(kind, Everybody(n)), k, j);
  }

  lemma NoReaction(dynamic: bool, n: nat, i: nat, m: Message, k: Kind, j: nat)
    requires React(dynamic, n, i, m) == [] && !IsForAll(dynamic, m, k) && !IsForSender(m, k)
    ensures ReactsOnce(dynamic, n, i, m, k, j)
  {
  }

  lemma LinStatusReaction(dynamic: bool, n: nat, i: nat, m: Message, k: Kind, j: nat)
    requires m.LinRequest? || m.LinResponse? || m.LinStatusUpdate?
    ensures ReactsOnce(dynamic, n, i, m, k, j)
  {
    if IsForAll(dynamic, m, LinStatus) {
      LinReaction(dynamic, n, i, m, k, j, LinStatus);
    } else {
      NoReaction(dynamic, n, i, m, k, j);
    }
  }

  lemma Reaction(dynamic: bool, n: nat, i: nat, m: Message, k: Kind, j: nat)
    ensures ReactsOnce(dynamic, n, i, m, k, j)
  {
    if m.CanMode? || m.CanRequest? {
      CanReaction(dynamic, n, i, m, k, j);
    } else if m == FlexrayCommand(true) {
      FlexrayReaction(dynamic, n, i, k, j);
    } else if m.LinHeader? {
      LinReaction(dynamic, n, i, m, k, j, LinHeaderSent);
    } else if m.LinPulse? {
      LinReaction(dynamic, n, i, m, k, j, LinWakeup);
    } else if m.LinRequest? || m.LinResponse? || m.LinStatusUpdate? {
      LinStatusReaction(dynamic, n, i, m, k, j);
    } else {
      NoReaction(dynamic, n, i, m, k, j);
    }
  }

  // --------------------------------------------------------------------- the theorems

  /** The requests made after controller `j` was provided that concern everybody, and the
      requests of its own. */
  function Owed(dynamic: bool, es: seq<Event>, k: Kind, j: nat): nat
  {
    if es == [] then 0
    else
      var before, last := es[..|es| - 1], es[|es| - 1];
      Owed(dynamic, before, k, j)
      + if last.Provide? then 0
        else Bit(IsForAll(dynamic, last.m, k) && j < Provided(before)) + Bit(IsForSender(last.m, k) && last.i == j)
  }

  /** In every run, with controllers provided at any time, each controller gets each event
      exactly once per request that concerns it. */
  lemma {:induction false} EachRequestOnce(dynamic: bool, es: seq<Event>, k: Kind, j: nat)
    requires ValidRun(es)
    ensures DeliveredTo(Log(dynamic, es), k, j) == Owed(dynamic, es, k, j)
  {
    if es != [] {
      var before, last := es[..|es| - 1], es[|es| - 1];
      EachRequestOnce(dynamic, before, k, j);
      if last.Deliver? {
        Reaction(dynamic, Provided(before), last.i, last.m, k, j);
        DeliveredToAppend(Log(dynamic, before), React(dynamic, Provided(before), last.i, last.m), k, j);
      } else {
        assert Log(dynamic, es) == Log(dynamic, before);
      }
    }
  }

  function Requests(dynamic: bool, es: seq<Event>, k: Kind): nat
  {
    if es == [] then 0
    else Requests(dynamic, es[..|es| - 1], k) + Bit(es[|es| - 1].Deliver? && IsForAll(dynamic, es[|es| - 1].m, k))
  }

  function OwnRequests(es: seq<Event>, k: Kind): nat
  {
    if es == [] then 0
    else OwnRequests(es[..|es| - 1], k) + Bit(es[|es| - 1].Deliver? && IsForSender(es[|es| - 1].m, k))
  }

  /** All `n` controllers are provided before the first request. */
  predicate ProvidedFirst(es: seq<Event>, n: nat)
  {
    |es| >= n && forall k :: 0 <= k < |es| ==> (es[k].Provide? <==> k < n)
  }

  lemma {:induction false} ProvidedFirstCount(es: seq<Event>, n: nat)
    requires ProvidedFirst(es, n)
    ensures Provided(es) == n
    decreases |es|
  {
    if |es| > n {
      ProvidedFirstCount(es[..|es| - 1], n);
    } else if n > 0 {
      ProvidedFirstCount(es[..|es| - 1], n - 1);
    }
  }

  lemma {:induction false} NothingBefore(dynamic: bool, es: seq<Event>, k: Kind)
    requires forall k :: 0 <= k < |es| ==> es[k].Provide?
    ensures Log(dynamic, es) == [] && Requests(dynamic, es, k) == 0 && OwnRequests(es, k) == 0
  {
    if es != [] {
      NothingBefore(dynamic, es[..|es| - 1], k);
    }
  }

  lemma OneMore(a: nat, b: bool, n: nat)
    ensures (a + Bit(b)) * n == a * n + if b then n else 0
  {
  }

  lemma LastRequest(dynamic: bool, es: seq<Event>, k: Kind)
    requires es != [] && es[|es| - 1].Deliver?
    ensures var before, m := es[..|es| - 1], es[|es| - 1].m;
            Deliveries(Log(dynamic, es), k) == Deliveries(Log(dynamic, before), k)
              + (if IsForAll(dynamic, m, k) then Provided(before) else 0) + Bit(IsForSender(m, k))
  {
    var before, last := es[..|es| - 1], es[|es| - 1];
    Reaction(dynamic, Provided(before), last.i, last.m, k, 0);
    DeliveredToAppend(Log(dynamic, before), React(dynamic, Provided(before), last.i, last.m), k, 0);
  }

  /** With all controllers provided first, an event for everybody is delivered requests
      times controllers, and an event for the sender once per request. */
  lemma {:induction false} DeliveriesAreExact(dynamic: bool, es: seq<Event>, n: nat, k: Kind)
    requires ProvidedFirst(es, n)
    ensures Deliveries(Log(dynamic, es), k) == Requests(dynamic, es, k) * n + OwnRequests(es, k)
    decreases |es|
  {
    if |es| == n {
      NothingBefore(dynamic, es, k);
    } else {
      var before, last := es[..|es| - 1], es[|es| - 1];
      DeliveriesAreExact(dynamic, before, n, k);
      ProvidedFirstCount(before, n);
      LastRequest(dynamic, es, k);
      OneMore(Requests(dynamic, before, k), IsForAll(dynamic, last.m, k), n);
    }
  }

  // --------------------------------------------------------- the counts of the tests

  function Count(es: seq<Event>, m: Message): nat
  {
    if es == [] then 0 else Count(es[..|es| - 1], m) + Bit(es[|es| - 1].Deliver? && es[|es| - 1].m == m)
  }

  /** Requests to send a frame other than the one that announces sleep. */
  function LinFrames(es: seq<Event>): nat
  {
    if es == [] then 0
    else
      var last := es[|es| - 1];
      LinFrames(es[..|es| - 1]) + Bit(last.Deliver? && last.m.LinRequest? && last.m.id != 60)
  }

  lemma {:induction false} CanRequests(es: seq<Event>)
    ensures Requests(false, es, CanFrame) == OwnRequests(es, CanAck) == Count(es, CanRequest)
    ensures Requests(false, es, CanAck) == 0 == OwnRequests(es, CanFrame)
  {
    if es != [] {
      CanRequests(es[..|es| - 1]);
    }
  }

  lemma {:induction false} FlexrayRequests(es: seq<Event>, k: Kind)
    requires k.PocStatus? || k.CycleStart? || k.Symbol?
    ensures Requests(false, es, k) == OwnRequests(es, SymbolTransmit) == Count(es, FlexrayCommand(true))
    ensures OwnRequests(es, k) == Requests(false, es, SymbolTransmit) == 0
  {
    if es != [] {
      FlexrayRequests(es[..|es| - 1], k);
    }
  }

  lemma {:induction false} LinRequests(dynamic: bool, es: seq<Event>)
    ensures OwnRequests(es, LinStatus) == 0
    ensures Requests(dynamic, es, LinStatus) ==
              LinFrames(es) + Count(es, LinStatusUpdate(true)) + if dynamic then Count(es, LinResponse) else 0
  {
    if es != [] {
      LinRequests(dynamic, es[..|es| - 1]);
    }
  }

  /** CAN frames, with one acknowledge per request. */
  lemma CanDeliveries(es: seq<Event>, n: nat)
    requires ProvidedFirst(es, n)
    ensures Deliveries(Log(false, es), CanFrame) == Count(es, CanRequest) * n
    ensures Deliveries(Log(false, es), CanAck) == Count(es, CanRequest)
  {
    CanRequests(es);
    DeliveriesAreExact(false, es, n, CanFrame);
    DeliveriesAreExact(false, es, n, CanAck);
  }

  /** FlexRay: if each of the n controllers wakes up once, n times n events of each kind. */
  lemma FlexrayDeliveries(es: seq<Event>, n: nat, k: Kind)
    requires ProvidedFirst(es, n) && Count(es, FlexrayCommand(true)) == n
    requires k.PocStatus? || k.CycleStart? || k.Symbol?
    ensures Deliveries(Log(false, es), k) == n * n
    ensures Deliveries(Log(false, es), SymbolTransmit) == n
  {
    FlexrayRequests(es, k);
    DeliveriesAreExact(false, es, n, k);
    DeliveriesAreExact(false, es, n, SymbolTransmit);
  }

  /** LIN: the frame that announces sleep is distributed by the status update instead. */
  lemma LinDeliveries(dynamic: bool, es: seq<Event>, n: nat)
    requires ProvidedFirst(es, n)
    ensures Deliveries(Log(dynamic, es), LinStatus) ==
              (LinFrames(es) + Count(es, LinStatusUpdate(true)) + if dynamic then Count(es, LinResponse) else 0) * n
  {
    LinRequests(dynamic, es);
    DeliveriesAreExact(dynamic, es, n, LinStatus);
  }
}
