/** A publish/subscribe test participant: receptions and discoveries of its subscribers, in
    any order, and the one-shot promises that tell the test that all of them are done.
    Fulfilling a promise twice is an error, so `fulfilled` counts. */
module PubSubParticipants {
  import opened Senders
  import opened PubSub

  datatype Promise = Promise(flag: bool, fulfilled: nat)

  datatype State = State(subs: seq<Sub>, received: Promise, discovered: Promise)

  datatype Event = Reception(i: nat, data: Data) | Discovery(i: nat)

  predicate NothingToReceive(subs: seq<Sub>)
  {
    forall i :: 0 <= i < |subs| ==> subs[i].numMsgToReceive == 0
  }

  predicate NothingToDiscover(subs: seq<Sub>)
  {
    forall i :: 0 <= i < |subs| ==> subs[i].expectedSources == 0
  }

  predicate AllReceived(subs: seq<Sub>)
  {
    forall i :: 0 <= i < |subs| ==> subs[i].allReceived
  }

  predicate AllDiscovered(subs: seq<Sub>)
  {
    forall i :: 0 <= i < |subs| ==> subs[i].allDiscovered
  }

  /** Preparation fulfils without looking at the flag. */
  function Prepared(p: Promise, nothingToDo: bool): Promise
  {
    if nothingToDo then Promise(true, p.fulfilled + 1) else p
  }

  function Checked(p: Promise, allDone: bool): Promise
  {
    if !p.flag && allDone then Promise(true, p.fulfilled + 1) else p
  }

  function Start(subs: seq<Sub>): State
  {
    var open := Promise(false, 0);
    State(subs, Prepared(open, NothingToReceive(subs)), Prepared(open, NothingToDiscover(subs)))
  }

  predicate Enabled(n: nat, e: Event)
  {
    e.i < n
  }

  function Apply(s: State, e: Event): State
    requires Enabled(|s.subs|, e)
  {
    match e
    case Reception(i, data) =>
      var subs := s.subs[i := OnData(s.subs[i], data)];
      State(subs, Checked(s.received, AllReceived(subs)), s.discovered)
    case Discovery(i) =>
      var subs := s.subs[i := OnDiscovery(s.subs[i])];
      State(subs, s.received, Checked(s.discovered, AllDiscovered(subs)))
  }

  predicate ValidRun(n: nat, es: seq<Event>)
  {
    forall k :: 0 <= k < |es| ==> Enabled(n, es[k])
  }

  function Exec(subs: seq<Sub>, es: seq<Event>): (s: State)
    requires ValidRun(|subs|, es)
    ensures |s.subs| == |subs|
  {
    if es == [] then Start(subs) else Apply(Exec(subs, es[..|es| - 1]), es[|es| - 1])
  }

  function Receptions(es: seq<Event>, i: nat): nat
  {
    if es == [] then 0
    else
      var last := es[|es| - 1];
      Receptions(es[..|es| - 1], i) + if last.Reception? && last.i == i then 1 else 0
  }

  function Discoveries(es: seq<Event>, i: nat): nat
  {
    if es == [] then 0
    else
      var last := es[|es| - 1];
      Discoveries(es[..|es| - 1], i) + if last.Discovery? && last.i == i then 1 else 0
  }

  /** A subscriber that was told `r` messages and `d` sources. */
  predicate SubAfter(was: Sub, now: Sub, r: nat, d: nat)
  {
    && now.numMsgToReceive == was.numMsgToReceive && now.expectedSources == was.expectedSources
    && now.received == Min(r, Effective(was.numMsgToReceive))
    && (now.allReceived <==> r >= Effective(was.numMsgToReceive))
    && now.sources == d
    && (now.allDiscovered <==> d >= Effective(was.expectedSources))
  }

  predicate AllFresh(subs: seq<Sub>)
  {
    forall i :: 0 <= i < |subs| ==> SubAfter(subs[i], subs[i], 0, 0)
  }

  lemma {:induction false} SubsAfter(subs: seq<Sub>, es: seq<Event>, i: nat)
    requires AllFresh(subs) && ValidRun(|subs|, es) && i < |subs|
    ensures SubAfter(subs[i], Exec(subs, es).subs[i], Receptions(es, i), Discoveries(es, i))
  {
    if es != [] {
      SubsAfter(subs, es[..|es| - 1], i);
    }
  }

  predicate EnoughReceptions(subs: seq<Sub>, es: seq<Event>)
  {
    forall i :: 0 <= i < |subs| ==> Receptions(es, i) >= Effective(subs[i].numMsgToReceive)
  }

  predicate EnoughDiscoveries(subs: seq<Sub>, es: seq<Event>)
  {
    forall i :: 0 <= i < |subs| ==> Discoveries(es, i) >= Effective(subs[i].expectedSources)
  }

  function Once(done: bool): Promise
  {
    if done then Promise(true, 1) else Promise(false, 0)
  }

  lemma SubsDone(subs: seq<Sub>, es: seq<Event>)
    requires AllFresh(subs) && ValidRun(|subs|, es)
    ensures AllReceived(Exec(subs, es).subs) <==> EnoughReceptions(subs, es)
    ensures AllDiscovered(Exec(subs, es).subs) <==> EnoughDiscoveries(subs, es)
  {
    var now := Exec(subs, es).subs;
    forall i | 0 <= i < |subs| ensures SubAfter(subs[i], now[i], Receptions(es, i), Discoveries(es, i)) {
      SubsAfter(subs, es, i);
    }
  }

  /** In every run each promise is fulfilled at most once, and it is fulfilled exactly when
      there was nothing to wait for or every subscriber has been told enough. */
  lemma {:induction false} PromisesAreExact(subs: seq<Sub>, es: seq<Event>)
    requires AllFresh(subs) && ValidRun(|subs|, es)
    ensures Exec(subs, es).received == Once(NothingToReceive(subs) || EnoughReceptions(subs, es))
    ensures Exec(subs, es).discovered == Once(NothingToDiscover(subs) || EnoughDiscoveries(subs, es))
  {
    SubsDone(subs, es);
    if es == [] {
      NothingMeansNothing(subs);
    } else {
      var before := es[..|es| - 1];
      PromisesAreExact(subs, before);
      SubsDone(subs, before);
      Grows(subs, es);
    }
  }

  lemma NothingMeansNothing(subs: seq<Sub>)
    ensures EnoughReceptions(subs, []) || EnoughDiscoveries(subs, []) ==> subs == []
  {
    if subs != [] {
      assert Receptions([], 0) < Effective(subs[0].numMsgToReceive);
      assert Discoveries([], 0) < Effective(subs[0].expectedSources);
    }
  }

  /** One event changes one kind of count, and only upwards. */
  lemma Grows(subs: seq<Sub>, es: seq<Event>)
    requires es != []
    ensures var before, last := es[..|es| - 1], es[|es| - 1];
            && (EnoughReceptions(subs, before) ==> EnoughReceptions(subs, es))
            && (EnoughDiscoveries(subs, before) ==> EnoughDiscoveries(subs, es))
            && (last.Discovery? ==> (EnoughReceptions(subs, es) <==> EnoughReceptions(subs, before)))
            && (last.Reception? ==> (EnoughDiscoveries(subs, es) <==> EnoughDiscoveries(subs, before)))
  {
    var before, last := es[..|es| - 1], es[|es| - 1];
    forall i | 0 <= i < |subs|
      ensures Receptions(es, i) >= Receptions(before, i) && Discoveries(es, i) >= Discoveries(before, i)
      ensures last.Discovery? ==> Receptions(es, i) == Receptions(before, i)
      ensures last.Reception? ==> Discoveries(es, i) == Discoveries(before, i)
    {
    }
  }

  /** The final count check of the participant holds for a subscriber once the promise is
      fulfilled if and only if it announced a positive number, or announced zero and got
      nothing; a subscriber that announced zero beside one that did not has got one message. */
  lemma FinalCounts(subs: seq<Sub>, es: seq<Event>, i: nat)
    requires AllFresh(subs) && ValidRun(|subs|, es) && i < |subs|
    requires Exec(subs, es).received.flag
    ensures var s := Exec(subs, es).subs[i];
            && (s.received == s.numMsgToReceive <==> subs[i].numMsgToReceive > 0 || Receptions(es, i) == 0)
            && (subs[i].numMsgToReceive == 0 && !NothingToReceive(subs) ==> s.received == 1)
  {
    SubsAfter(subs, es, i);
    PromisesAreExact(subs, es);
    if !NothingToReceive(subs) {
      assert Receptions(es, i) >= Effective(subs[i].numMsgToReceive);
    }
  }

  /** `PubSubParticipant`, updated in place. */
  class Participant {
    var subs: seq<Sub>
    var allReceived: bool
    var allDiscovered: bool
    ghost var receivedFulfilled: nat
    ghost var discoveredFulfilled: nat

    ghost function Model(): State
      reads this
    {
      State(subs, Promise(allReceived, receivedFulfilled), Promise(allDiscovered, discoveredFulfilled))
    }

    /** Creation and preparation of the promises. */
    constructor (subs: seq<Sub>)
      ensures Model() == Start(subs)
    {
      this.subs := subs;
      allReceived, receivedFulfilled := false, 0;
      allDiscovered, discoveredFulfilled := false, 0;
      new;
      if NothingToReceive(subs) {
        allReceived, receivedFulfilled := true, receivedFulfilled + 1;
      }
      if NothingToDiscover(subs) {
        allDiscovered, discoveredFulfilled := true, discoveredFulfilled + 1;
      }
    }

    method OnReception(i: nat, data: Data)
      requires i < |subs|
      modifies this
      ensures Model() == Apply(old(Model()), Reception(i, data))
    {
      subs := subs[i := OnData(subs[i], data)];
      if !allReceived && AllReceived(subs) {
        allReceived, receivedFulfilled := true, receivedFulfilled + 1;
      }
    }

    method OnDiscovered(i: nat)
      requires i < |subs|
      modifies this
      ensures Model() == Apply(old(Model()), Discovery(i))
    {
      subs := subs[i := OnDiscovery(subs[i])];
      if !allDiscovered && AllDiscovered(subs) {
        allDiscovered, discoveredFulfilled := true, discoveredFulfilled + 1;
      }
    }
  }
}
