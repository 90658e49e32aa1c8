/** A remote procedure call test participant: its clients, its servers, the function names
    it waits for, and the promises, for every order of the callbacks. */
module RpcParticipants {
  import opened Wrappers
  import opened Senders
  import opened PubSub
  import opened RpcHarness
  import opened PubSubParticipants

  /** `created` servers exist so far; the promise of reception is prepared before each. */
  datatype Party = Party(
    clients: seq<Client>, servers: seq<Sub>, created: nat, names: seq<string>,
    received: Promise, returned: Promise, discovered: Promise)

  datatype Callback =
    | CreateServer
    | Called(i: nat, argument: Data)
    | Returned(i: nat, outcome: Outcome)
    | Discovered(name: string)

  predicate AllReturned(clients: seq<Client>)
  {
    forall i :: 0 <= i < |clients| ==> clients[i].allReturned
  }

  predicate IsInitial(p: Party)
  {
    && (forall i :: 0 <= i < |p.clients| ==> !p.clients[i].allReturned && ReturnsCounted(p.clients[i], 0))
    && PubSubParticipants.AllFresh(p.servers) && p.created == 0
    && p.received == p.returned == p.discovered == Promise(false, 0)
  }

  predicate CanOccur(p: Party, e: Callback)
  {
    match e
    case CreateServer => p.created < |p.servers|
    case Called(i, _) => i < p.created <= |p.servers|
    case Returned(i, _) => i < |p.clients|
    case Discovered(_) => true
  }

  function Occur(p: Party, e: Callback): Party
    requires CanOccur(p, e)
  {
    match e
    case CreateServer =>
      p.(created := p.created + 1, received := Prepared(p.received, NothingToReceive(p.servers)))
    case Called(i, argument) =>
      var servers := p.servers[i := OnData(p.servers[i], argument)];
      p.(servers := servers, received := Checked(p.received, AllReceived(servers)))
    case Returned(i, outcome) =>
      var clients := p.clients[i := OnOutcome(p.clients[i], outcome)];
      p.(clients := clients, returned := Checked(p.returned, AllReturned(clients)))
    case Discovered(name) =>
      var (names, discovered) := Discover(p.names, p.discovered, name);
      p.(names := names, discovered := discovered)
  }

  function Discover(names: seq<string>, promise: Promise, name: string): (seq<string>, Promise)
  {
    if promise.flag then (names, promise)
    else
      var left := Without(names, name);
      (left, Checked(promise, left == []))
  }

  predicate Occurs(p: Party, es: seq<Callback>)
    decreases |es|, 0
  {
    es == [] || (Occurs(p, es[..|es| - 1]) && CanOccur(After(p, es[..|es| - 1]), es[|es| - 1]))
  }

  function After(p: Party, es: seq<Callback>): Party
    requires Occurs(p, es)
    decreases |es|, 1
  {
    if es == [] then p else Occur(After(p, es[..|es| - 1]), es[|es| - 1])
  }

  // ------------------------------------------------------------- counts of a run

  function Creations(es: seq<Callback>): nat
  {
    if es == [] then 0 else Creations(es[..|es| - 1]) + if es[|es| - 1].CreateServer? then 1 else 0
  }

  function Calls(es: seq<Callback>, i: nat): nat
  {
    if es == [] then 0
    else
      var last := es[|es| - 1];
      Calls(es[..|es| - 1], i) + if last.Called? && last.i == i then 1 else 0
  }

  function OutcomesOf(es: seq<Callback>, i: nat): nat
  {
    if es == [] then 0
    else
      var last := es[|es| - 1];
      OutcomesOf(es[..|es| - 1], i)
      + if last.Returned? && last.i == i && !last.outcome.NotReachable? then 1 else 0
  }

  function NamesSeen(es: seq<Callback>): seq<string>
  {
    if es == [] then []
    else
      var last := es[|es| - 1];
      NamesSeen(es[..|es| - 1]) + if last.Discovered? then [last.name] else []
  }

  predicate EnoughCalls(servers: seq<Sub>, es: seq<Callback>)
  {
    forall i :: 0 <= i < |servers| ==> Calls(es, i) >= Effective(servers[i].numMsgToReceive)
  }

  predicate EnoughReturns(clients: seq<Client>, es: seq<Callback>)
  {
    forall i :: 0 <= i < |clients| ==> OutcomesOf(es, i) >= Effective(Target(clients[i]))
  }

  // ------------------------------------------------------------------ the members

  lemma {:induction false} MembersAfter(p: Party, es: seq<Callback>)
    requires IsInitial(p) && Occurs(p, es)
    ensures var q := After(p, es);
            && |q.servers| == |p.servers| && |q.clients| == |p.clients|
            && q.created == Creations(es) <= |p.servers|
            && (forall i :: 0 <= i < |p.servers| ==> SubAfter(p.servers[i], q.servers[i], Calls(es, i), 0))
            && (forall i :: 0 <= i < |p.clients| ==>
                  ReturnsCounted(q.clients[i], OutcomesOf(es, i)) && Target(q.clients[i]) == Target(p.clients[i]))
    decreases |es|
  {
    if es != [] {
      var before, last := es[..|es| - 1], es[|es| - 1];
      MembersAfter(p, before);
      if last.Returned? {
        OutcomeCounted(After(p, before).clients[last.i], OutcomesOf(before, last.i), last.outcome);
      }
    }
  }

  lemma MembersDone(p: Party, es: seq<Callback>)
    requires IsInitial(p) && Occurs(p, es)
    ensures AllReceived(After(p, es).servers) <==> EnoughCalls(p.servers, es)
    ensures AllReturned(After(p, es).clients) <==> EnoughReturns(p.clients, es)
    ensures NothingToReceive(After(p, es).servers) <==> NothingToReceive(p.servers)
  {
    MembersAfter(p, es);
    var q := After(p, es);
    assert forall i :: 0 <= i < |p.servers| ==> SubAfter(p.servers[i], q.servers[i], Calls(es, i), 0);
  }

  // ------------------------------------------------------------------ the promises

  /** The reception promise: with nothing to receive it is fulfilled once per created
      server; otherwise at most once, exactly when every server got its calls. */
  lemma {:induction false} ReceptionPromise(p: Party, es: seq<Callback>)
    requires IsInitial(p) && Occurs(p, es)
    ensures After(p, es).received ==
              if NothingToReceive(p.servers) then Promise(Creations(es) > 0, Creations(es))
              else Once(EnoughCalls(p.servers, es))
    decreases |es|
  {
    MembersDone(p, es);
    if es != [] {
      var before, last := es[..|es| - 1], es[|es| - 1];
      ReceptionPromise(p, before);
      MembersDone(p, before);
      MembersAfter(p, before);
      CallsGrow(p.servers, es);
    } else if !NothingToReceive(p.servers) {
      assert Calls(es, 0) < Effective(p.servers[0].numMsgToReceive);
    }
  }

  lemma CallsGrow(servers: seq<Sub>, es: seq<Callback>)
    requires es != []
    ensures EnoughCalls(servers, es[..|es| - 1]) ==> EnoughCalls(servers, es)
    ensures !es[|es| - 1].Called? ==> (EnoughCalls(servers, es) <==> EnoughCalls(servers, es[..|es| - 1]))
  {
    forall i | 0 <= i < |servers|
      ensures Calls(es, i) >= Calls(es[..|es| - 1], i)
      ensures !es[|es| - 1].Called? ==> Calls(es, i) == Calls(es[..|es| - 1], i)
    {
    }
  }

  function Creating(n: nat): (es: seq<Callback>)
    ensures |es| == n
  {
    if n == 0 then [] else Creating(n - 1) + [CreateServer]
  }

  lemma OccursNext(p: Party, es: seq<Callback>, e: Callback)
    requires Occurs(p, es) && CanOccur(After(p, es), e)
    ensures Occurs(p, es + [e]) && Creations(es + [e]) == Creations(es) + if e.CreateServer? then 1 else 0
  {
    assert (es + [e])[..|es + [e]| - 1] == es;
  }

  lemma {:induction false} CreatingOccurs(p: Party, n: nat)
    requires IsInitial(p) && n <= |p.servers|
    ensures Occurs(p, Creating(n)) && Creations(Creating(n)) == n
  {
    if n > 0 {
      CreatingOccurs(p, n - 1);
      MembersAfter(p, Creating(n - 1));
      OccursNext(p, Creating(n - 1), CreateServer);
    }
  }

  /** No run fulfils the reception promise twice if and only if there is at most one server
      or some server expects a call: the preparation runs once per server. */
  lemma ReceptionAtMostOnceIff(p: Party)
    requires IsInitial(p)
    ensures (forall es | Occurs(p, es) :: After(p, es).received.fulfilled <= 1)
              <==> |p.servers| <= 1 || !NothingToReceive(p.servers)
  {
    if |p.servers| <= 1 || !NothingToReceive(p.servers) {
      forall es | Occurs(p, es) ensures After(p, es).received.fulfilled <= 1 {
        ReceptionPromise(p, es);
        MembersAfter(p, es);
      }
    } else {
      var es := Creating(|p.servers|);
      CreatingOccurs(p, |p.servers|);
      ReceptionPromise(p, es);
      assert After(p, es).received.fulfilled > 1;
    }
  }

  /** The promise of returned calls is fulfilled at most once: exactly when every client
      saw its target of outcomes. Without clients no callback fulfils it. */
  lemma {:induction false} ReturnPromise(p: Party, es: seq<Callback>)
    requires IsInitial(p) && Occurs(p, es)
    ensures After(p, es).returned == Once(p.clients != [] && EnoughReturns(p.clients, es))
    decreases |es|
  {
    MembersDone(p, es);
    if es != [] {
      var before, last := es[..|es| - 1], es[|es| - 1];
      ReturnPromise(p, before);
      MembersDone(p, before);
      MembersAfter(p, before);
      ReturnsGrow(p.clients, es);
    } else if p.clients != [] {
      assert OutcomesOf(es, 0) < Effective(Target(p.clients[0]));
    }
  }

  lemma ReturnsGrow(clients: seq<Client>, es: seq<Callback>)
    requires es != []
    ensures EnoughReturns(clients, es[..|es| - 1]) ==> EnoughReturns(clients, es)
    ensures !es[|es| - 1].Returned? ==> (EnoughReturns(clients, es) <==> EnoughReturns(clients, es[..|es| - 1]))
  {
    forall i | 0 <= i < |clients|
      ensures OutcomesOf(es, i) >= OutcomesOf(es[..|es| - 1], i)
      ensures !es[|es| - 1].Returned? ==> OutcomesOf(es, i) == OutcomesOf(es[..|es| - 1], i)
    {
    }
  }

  function DiscoverAll(names: seq<string>, seen: seq<string>): (seq<string>, Promise)
  {
    if seen == [] then (names, Promise(false, 0))
    else
      var (left, promise) := DiscoverAll(names, seen[..|seen| - 1]);
      Discover(left, promise, seen[|seen| - 1])
  }

  lemma {:induction false} DiscoverAllPromise(names: seq<string>, seen: seq<string>)
    ensures var (left, promise) := DiscoverAll(names, seen);
            && promise == Once(seen != [] && multiset(names) <= multiset(seen))
            && (!promise.flag ==> multiset(left) == multiset(names) - multiset(seen))
  {
    if seen != [] {
      var before, name := seen[..|seen| - 1], seen[|seen| - 1];
      DiscoverAllPromise(names, before);
      assert seen == before + [name];
      NameSeen(names, DiscoverAll(names, before).0, before, name);
    }
  }

  lemma {:induction false} DiscoveriesOf(p: Party, es: seq<Callback>)
    requires IsInitial(p) && Occurs(p, es)
    ensures (After(p, es).names, After(p, es).discovered) == DiscoverAll(p.names, NamesSeen(es))
    decreases |es|
  {
    if es != [] {
      DiscoveriesOf(p, es[..|es| - 1]);
      var seen := NamesSeen(es);
      if es[|es| - 1].Discovered? {
        assert seen[..|seen| - 1] == NamesSeen(es[..|es| - 1]);
      } else {
        assert seen == NamesSeen(es[..|es| - 1]);
      }
    }
  }

  /** The discovery promise is fulfilled at most once: exactly when some function was
      discovered and every expected name was, as often as it is expected. */
  lemma DiscoveryPromise(p: Party, es: seq<Callback>)
    requires IsInitial(p) && Occurs(p, es)
    ensures After(p, es).discovered == Once(NamesSeen(es) != [] && multiset(p.names) <= multiset(NamesSeen(es)))
  {
    DiscoveriesOf(p, es);
    DiscoverAllPromise(p.names, NamesSeen(es));
  }

  lemma NameSeen(expected: seq<string>, left: seq<string>, seen: seq<string>, name: string)
    ensures multiset(seen + [name]) == multiset(seen) + multiset{name}
    ensures multiset(expected) <= multiset(seen) ==> multiset(expected) <= multiset(seen + [name])
    ensures multiset(left) == multiset(expected) - multiset(seen) ==>
              && multiset(Without(left, name)) == multiset(expected) - multiset(seen + [name])
              && (Without(left, name) == [] <==> multiset(expected) <= multiset(seen + [name]))
  {
    WithoutMultiset(left, name);
    var rest := Without(left, name);
    if multiset(left) == multiset(expected) - multiset(seen) {
      assert multiset(rest) == multiset(expected) - multiset(seen + [name]);
      EmptyDifference(multiset(expected), multiset(seen + [name]));
      assert |multiset(rest)| == |rest|;
    }
  }

  lemma EmptyDifference<T>(a: multiset<T>, b: multiset<T>)
    ensures a - b == multiset{} <==> a <= b
  {
    if a - b == multiset{} {
      forall x ensures a[x] <= b[x] {
        assert (a - b)[x] == 0;
      }
    }
  }

  // --------------------------------------------------------------- the participant

  /** `RpcParticipant`, updated in place. */
  class Participant {
    var clients: seq<Client>
    var servers: seq<Sub>
    var names: seq<string>
    var allReceived: bool
    var allReturned: bool
    var allDiscovered: bool
    ghost var created: nat
    ghost var fulfilled: (nat, nat, nat)

    ghost function Model(): Party
      reads this
    {
      Party(clients, servers, created, names, Promise(allReceived, fulfilled.0),
            Promise(allReturned, fulfilled.1), Promise(allDiscovered, fulfilled.2))
    }

    constructor (clients: seq<Client>, servers: seq<Sub>, names: seq<string>)
      ensures var none := Promise(false, 0);
              Model() == Party(clients, servers, 0, names, none, none, none)
    {
      this.clients, this.servers, this.names := clients, servers, names;
      allReceived, allReturned, allDiscovered := false, false, false;
      created, fulfilled := 0, (0, 0, 0);
    }

    method PrepareServer()
      requires created < |servers|
      modifies this
      ensures Model() == Occur(old(Model()), CreateServer)
    {
      if NothingToReceive(servers) {
        allReceived, fulfilled := true, (fulfilled.0 + 1, fulfilled.1, fulfilled.2);
      }
      created := created + 1;
    }

    /** A server may be told not to reply; it counts the call all the same. */
    method ProcessCall(i: nat, argument: Data, doNotReply: bool) returns (answer: Option<Data>)
      requires i < created <= |servers|
      modifies this
      ensures Model() == Occur(old(Model()), Called(i, argument))
      ensures answer == if doNotReply then None else Some(Incremented(argument))
      ensures answer.Some? ==>
                && |answer.value| == |argument|
                && forall j :: 0 <= j < |argument| ==> answer.value[j] == (argument[j] as int + 100) % 256
    {
      var result := argument;
      for k := 0 to |result|
        invariant |result| == |argument| && result == Incremented(argument)[..k] + argument[k..]
      {
        result := result[k := (result[k] + INCREMENT) % 256];
      }
      assert result == Incremented(argument);
      answer := if doNotReply then None else Some(result);
      servers := servers[i := OnData(servers[i], argument)];
      if !allReceived && AllReceived(servers) {
        allReceived, fulfilled := true, (fulfilled.0 + 1, fulfilled.1, fulfilled.2);
      }
    }

    method OnReturned(i: nat, outcome: Outcome)
      requires i < |clients|
      modifies this
      ensures Model() == Occur(old(Model()), Returned(i, outcome))
    {
      if !clients[i].allReturned {
        clients := clients[i := OnOutcome(clients[i], outcome)];
      } else {
        assert clients == clients[i := OnOutcome(clients[i], outcome)];
      }
      if !allReturned && AllReturned(clients) {
        allReturned, fulfilled := true, (fulfilled.0, fulfilled.1 + 1, fulfilled.2);
      }
    }

    method OnNewServiceDiscovery(name: string)
      modifies this
      ensures Model() == Occur(old(Model()), Discovered(name))
    {
      if !allDiscovered {
        names := Without(names, name);
        if names == [] {
          allDiscovered, fulfilled := true, (fulfilled.0, fulfilled.1, fulfilled.2 + 1);
        }
      }
    }
  }
}
