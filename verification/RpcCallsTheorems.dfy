/** What every run of remote procedure calls keeps: each call is reported as often as servers
    were counted when it was made, or ends with one timeout and nothing after it. */
module RpcCallsTheorems {
  import opened Wrappers
  import opened RpcCalls

  // ------------------------------------------------------------ one server's messages

  function Copies(ms: seq<Message>, c: nat): nat
  {
    if ms == [] then 0 else (if ms[0].call == c then 1 else 0) + Copies(ms[1..], c)
  }

  lemma {:induction false} CopiesAppend(ms: seq<Message>, m: Message, c: nat)
    ensures Copies(ms + [m], c) == Copies(ms, c) + if m.call == c then 1 else 0
  {
    if ms != [] {
      assert (ms + [m])[1..] == ms[1..] + [m];
      CopiesAppend(ms[1..], m, c);
    }
  }

  lemma {:induction false} CopiesIn(ms: seq<Message>, k: nat)
    requires k < |ms|
    ensures Copies(ms, ms[k].call) > 0
  {
    if k > 0 {
      CopiesIn(ms[1..], k - 1);
    }
  }

  /** In how many places between client and server the call is. */
  function Places(l: Link, c: nat): nat
  {
    Copies(l.requests, c) + (if c in l.pending then 1 else 0)
    + Copies(l.responses, c) + (if c in l.answered then 1 else 0)
  }

  predicate Concerns(l: Link, c: nat, n: nat)
  {
    l.since <= c < n
  }

  /** Every call since the connection is in exactly one place. */
  ghost predicate PlacesOk(l: Link, n: nat)
  {
    && l.since <= n
    && forall c: nat {:trigger Places(l, c)} :: Places(l, c) == if Concerns(l, c, n) then 1 else 0
  }

  ghost predicate DataOk(l: Link, arguments: seq<Data>)
  {
    && (forall k :: 0 <= k < |l.requests| ==>
          l.requests[k].call < |arguments| && l.requests[k].data == Some(arguments[l.requests[k].call]))
    && (forall c :: c in l.handled ==>
          c < |arguments| && l.handled[c] == Some(arguments[c]) && Copies(l.requests, c) == 0)
    && (forall c :: c in l.pending ==> c in l.handled)
    && (forall c :: c in l.submitted ==>
          c < |arguments| && (l.submitted[c].Some? <==> c in l.handled) && Copies(l.requests, c) == 0)
    && (forall k :: 0 <= k < |l.responses| ==>
          l.responses[k].call in l.submitted && l.submitted[l.responses[k].call] == l.responses[k].data)
  }

  ghost predicate LinkOk(l: Link, arguments: seq<Data>)
  {
    && PlacesOk(l, |arguments|) && DataOk(l, arguments)
    && (l.counted.Some? ==> l.since <= l.counted.value <= |arguments|)
  }

  lemma RequestedOk(l: Link, arguments: seq<Data>, data: Data)
    requires LinkOk(l, arguments)
    ensures LinkOk(Requested(l, Message(|arguments|, Some(data))), arguments + [data])
  {
    var m := Message(|arguments|, Some(data));
    assert Places(l, |arguments|) == 0;
    forall c: nat
      ensures Places(Requested(l, m), c) == Places(l, c) + if c == |arguments| then 1 else 0
      ensures Copies(Requested(l, m).requests, c) == Copies(l.requests, c) + if c == |arguments| then 1 else 0
    {
      CopiesAppend(l.requests, m, c);
    }
  }

  /** The next request is nowhere else, so it is never refused as already active. */
  lemma NextIsNew(l: Link, arguments: seq<Data>)
    requires LinkOk(l, arguments) && l.requests != []
    ensures var c := l.requests[0].call;
            && c !in l.pending && c !in l.answered && c !in l.handled && c !in l.submitted
            && Copies(l.requests[1..], c) == 0
            && (forall k :: 0 <= k < |l.responses| ==> l.responses[k].call != c)
  {
    CopiesIn(l.requests, 0);
    var c := l.requests[0].call;
    assert Places(l, c) == 1;
    forall k | 0 <= k < |l.responses| ensures l.responses[k].call != c {
      CopiesIn(l.responses, k);
    }
  }

  lemma HandledPlaces(l: Link, arguments: seq<Data>)
    requires LinkOk(l, arguments) && l.requests != []
    ensures PlacesOk(Handled(l), |arguments|)
  {
    NextIsNew(l, arguments);
    forall c: nat ensures Places(Handled(l), c) == Places(l, c) {
      CopiesAppend(l.responses, Message(l.requests[0].call, None), c);
    }
  }

  lemma HandledOk(l: Link, arguments: seq<Data>)
    requires LinkOk(l, arguments) && l.requests != []
    ensures LinkOk(Handled(l), arguments)
    ensures forall c :: c in l.answered && c in l.submitted ==>
              c in Handled(l).submitted && Handled(l).submitted[c] == l.submitted[c]
  {
    NextIsNew(l, arguments);
    HandledPlaces(l, arguments);
    forall c: nat ensures Copies(l.requests[1..], c) <= Copies(l.requests, c) {
    }
  }

  lemma HandlerChangeOk(l: Link, arguments: seq<Data>, handler: bool)
    requires LinkOk(l, arguments)
    ensures LinkOk(l.(handler := handler), arguments)
  {
    forall c: nat ensures Places(l.(handler := handler), c) == Places(l, c) {
    }
  }

  lemma DiscoveredOk(l: Link, arguments: seq<Data>)
    requires LinkOk(l, arguments)
    ensures LinkOk(l.(counted := Some(|arguments|)), arguments)
  {
    forall c: nat ensures Places(l.(counted := Some(|arguments|)), c) == Places(l, c) {
    }
  }

  lemma SubmittedOk(l: Link, arguments: seq<Data>, call: nat, data: Data)
    requires LinkOk(l, arguments)
    ensures LinkOk(Submitted(l, call, data), arguments)
    ensures forall c :: c in l.answered && c in l.submitted ==>
              c in Submitted(l, call, data).submitted && Submitted(l, call, data).submitted[c] == l.submitted[c]
  {
    if call in l.pending {
      var m := Message(call, Some(data));
      assert Places(l, call) == 1;
      forall k | 0 <= k < |l.responses| ensures l.responses[k].call != call {
        CopiesIn(l.responses, k);
      }
      forall c: nat ensures Places(Submitted(l, call, data), c) == Places(l, c) {
        CopiesAppend(l.responses, m, c);
      }
    }
  }

  lemma RespondedOk(l: Link, arguments: seq<Data>)
    requires LinkOk(l, arguments) && l.responses != []
    ensures LinkOk(Responded(l), arguments)
    ensures Concerns(l, l.responses[0].call, |arguments|) && l.responses[0].call !in l.answered
  {
    CopiesIn(l.responses, 0);
    var first := l.responses[0].call;
    assert Places(l, first) == 1;
    forall c: nat ensures Places(Responded(l), c) == Places(l, c) {
    }
  }

  // ------------------------------------------------------------- counts over servers

  predicate Owes(l: Link, c: nat)
  {
    l.since <= c && c !in l.answered
  }

  /** The client had discovered the server when the call was made. */
  predicate IsCounted(l: Link, c: nat)
  {
    l.counted.Some? && l.counted.value <= c
  }

  function Bit(b: bool): nat
  {
    if b then 1 else 0
  }

  /** How many servers got the call. */
  function Reached(links: seq<Link>, c: nat): nat
  {
    if links == [] then 0 else Bit(links[0].since <= c) + Reached(links[1..], c)
  }

  /** How many servers the client had discovered when it made the call. */
  function Counted(links: seq<Link>, c: nat): nat
  {
    if links == [] then 0 else Bit(IsCounted(links[0], c)) + Counted(links[1..], c)
  }

  /** How many responses to the call have reached the client. */
  function Arrived(links: seq<Link>, c: nat): nat
  {
    if links == [] then 0 else Bit(c in links[0].answered) + Arrived(links[1..], c)
  }

  lemma {:induction false} CountUpdate(links: seq<Link>, i: nat, l: Link, c: nat)
    requires i < |links| && l.since == links[i].since && (IsCounted(l, c) <==> IsCounted(links[i], c))
    ensures Arrived(links[i := l], c) == Arrived(links, c) - Bit(c in links[i].answered) + Bit(c in l.answered)
    ensures Reached(links[i := l], c) == Reached(links, c) && Counted(links[i := l], c) == Counted(links, c)
  {
    if i > 0 {
      assert links[i := l][1..] == links[1..][i - 1 := l];
      CountUpdate(links[1..], i - 1, l, c);
    } else {
      assert links[i := l][1..] == links[1..];
    }
  }

  lemma {:induction false} CountAppend(links: seq<Link>, l: Link, c: nat)
    requires l.since > c && l.counted.None? && c !in l.answered
    ensures Arrived(links + [l], c) == Arrived(links, c)
    ensures Reached(links + [l], c) == Reached(links, c) && Counted(links + [l], c) == Counted(links, c)
  {
    if links != [] {
      assert (links + [l])[1..] == links[1..] + [l];
      CountAppend(links[1..], l, c);
    }
  }

  lemma {:induction false} CountBroadcast(links: seq<Link>, m: Message, c: nat)
    ensures Arrived(Broadcast(links, m), c) == Arrived(links, c)
    ensures Reached(Broadcast(links, m), c) == Reached(links, c) && Counted(Broadcast(links, m), c) == Counted(links, c)
  {
    if links != [] {
      assert Broadcast(links, m)[1..] == Broadcast(links[1..], m);
      CountBroadcast(links[1..], m, c);
    }
  }

  lemma {:induction false} CountNew(links: seq<Link>, c: nat)
    requires forall i :: 0 <= i < |links| ==>
               c !in links[i].answered && (links[i].counted.Some? ==> IsCounted(links[i], c))
    ensures Arrived(links, c) == 0 && Counted(links, c) == Counterparts(links)
  {
    if links != [] {
      CountNew(links[1..], c);
    }
  }

  /** Whom the client counts gets the call, and whoever answers got it. */
  predicate Consistent(l: Link, c: nat)
  {
    (IsCounted(l, c) ==> l.since <= c) && (c in l.answered ==> l.since <= c)
  }

  lemma {:induction false} CountsCompare(links: seq<Link>, c: nat)
    requires forall i :: 0 <= i < |links| ==> Consistent(links[i], c)
    ensures Counted(links, c) <= Reached(links, c) && Arrived(links, c) <= Reached(links, c)
    ensures Counted(links, c) == Reached(links, c) <==>
              forall i :: 0 <= i < |links| && links[i].since <= c ==> IsCounted(links[i], c)
    ensures Arrived(links, c) == Reached(links, c) <==> forall i :: 0 <= i < |links| ==> !Owes(links[i], c)
  {
    if links != [] {
      var rest := links[1..];
      assert forall i :: 0 <= i < |rest| ==> rest[i] == links[i + 1];
      assert Consistent(links[0], c);
      CountsCompare(rest, c);
      assert (forall i :: 0 <= i < |links| ==> !Owes(links[i], c)) <==>
             !Owes(links[0], c) && forall i :: 0 <= i < |rest| ==> !Owes(rest[i], c) by { SplitOwes(links, c); }
      assert (forall i :: 0 <= i < |links| && links[i].since <= c ==> IsCounted(links[i], c)) <==>
             (links[0].since <= c ==> IsCounted(links[0], c))
             && forall i :: 0 <= i < |rest| && rest[i].since <= c ==> IsCounted(rest[i], c) by {
        SplitCounted(links, c);
      }
    }
  }

  lemma SplitOwes(links: seq<Link>, c: nat)
    requires links != []
    ensures (forall i :: 0 <= i < |links| ==> !Owes(links[i], c)) <==>
            !Owes(links[0], c) && forall i :: 0 <= i < |links[1..]| ==> !Owes(links[1..][i], c)
  {
    forall i | 1 <= i < |links| ensures links[i] == links[1..][i - 1] {
    }
  }

  lemma SplitCounted(links: seq<Link>, c: nat)
    requires links != []
    ensures (forall i :: 0 <= i < |links| && links[i].since <= c ==> IsCounted(links[i], c)) <==>
            (links[0].since <= c ==> IsCounted(links[0], c))
            && forall i :: 0 <= i < |links[1..]| && links[1..][i].since <= c ==> IsCounted(links[1..][i], c)
  {
    forall i | 1 <= i < |links| ensures links[i] == links[1..][i - 1] {
    }
  }

  lemma LinksCompare(s: State, c: nat)
    requires Inv(s) && c < |s.arguments|
    ensures var links := s.links;
            && Counted(links, c) <= Reached(links, c) && Arrived(links, c) <= Reached(links, c)
            && (Counted(links, c) == Reached(links, c) <==>
                  forall i :: 0 <= i < |links| && links[i].since <= c ==> IsCounted(links[i], c))
            && (Arrived(links, c) == Reached(links, c) <==> forall i :: 0 <= i < |links| ==> !Owes(links[i], c))
  {
    forall i | 0 <= i < |s.links| ensures Consistent(s.links[i], c) {
      assert LinkOk(s.links[i], s.arguments);
      assert Places(s.links[i], c) == if Concerns(s.links[i], c, |s.arguments|) then 1 else 0;
    }
    CountsCompare(s.links, c);
  }

  // ----------------------------------------------------------------- the client's state

  /** How many results of the call the handler was told. */
  function Results(log: seq<Report>, c: nat): nat
  {
    if log == [] then 0
    else Results(log[..|log| - 1], c) + if log[|log| - 1].Result? && log[|log| - 1].call == c then 1 else 0
  }

  lemma ResultsAppend(log: seq<Report>, r: Report, c: nat)
    ensures Results(log + [r], c) == Results(log, c) + if r.Result? && r.call == c then 1 else 0
  {
    assert (log + [r])[..|log|] == log;
  }

  function Min(a: nat, b: nat): nat
  {
    if a < b then a else b
  }

  ghost predicate CallOk(client: Client, links: seq<Link>, c: nat)
  {
    && (c in client.active <==> Timeout(c) !in client.log && Results(client.log, c) < Counted(links, c))
    && (c in client.active ==> client.active[c] == Counted(links, c) - Results(client.log, c))
    && (Timeout(c) !in client.log ==> Results(client.log, c) == Min(Arrived(links, c), Counted(links, c)))
  }

  ghost predicate ActiveOk(client: Client, links: seq<Link>, n: nat)
  {
    && (forall c :: c in client.active ==> c < n)
    && (forall c: nat {:trigger CallOk(client, links, c)} :: c < n ==> CallOk(client, links, c))
  }

  ghost predicate ReportOk(r: Report, links: seq<Link>, n: nat)
  {
    match r
    case NotReachable => true
    case Timeout(c) => c < n
    case Result(i, c, d) =>
      i < |links| && c < n && c in links[i].answered && c in links[i].submitted && links[i].submitted[c] == d
  }

  /** `later` may follow `earlier`. */
  predicate MayFollow(earlier: Report, later: Report)
  {
    && (earlier.Timeout? && !later.NotReachable? ==> later.call != earlier.call)
    && (earlier.Result? && later.Result? ==> !(later.server == earlier.server && later.call == earlier.call))
  }

  predicate InOrder(log: seq<Report>)
  {
    forall j, k :: 0 <= j < k < |log| ==> MayFollow(log[j], log[k])
  }

  ghost predicate LogOk(log: seq<Report>, links: seq<Link>, n: nat)
  {
    InOrder(log) && forall k :: 0 <= k < |log| ==> ReportOk(log[k], links, n)
  }

  function CallsOf(entries: seq<Entry>): (r: seq<nat>)
    ensures |r| == |entries|
  {
    seq(|entries|, i requires 0 <= i < |entries| => entries[i].call)
  }

  /** Calls that may still time out, each once. */
  ghost predicate Waiting(calls: multiset<nat>, log: seq<Report>, n: nat)
  {
    forall c: nat :: c in calls ==> calls[c] == 1 && c < n && Timeout(c) !in log
  }

  ghost predicate ClientOk(client: Client, waiting: multiset<nat>, links: seq<Link>, n: nat)
  {
    ActiveOk(client, links, n) && LogOk(client.log, links, n) && Waiting(waiting, client.log, n)
  }

  ghost predicate Inv(s: State)
  {
    && (forall i :: 0 <= i < |s.links| ==> LinkOk(s.links[i], s.arguments))
    && ClientOk(s.client, multiset(CallsOf(s.client.entries)), s.links, |s.arguments|)
  }

  // --------------------------------------------------------------- steps of the client

  lemma ResultStep(client: Client, links: seq<Link>, i: nat, n: nat, call: nat, data: Option<Data>, c: nat)
    requires i < |links| && c < n && CallOk(client, links, c) && CallOk(client, links, call)
    requires Owes(links[i], call) && links[i].responses != [] && links[i].responses[0].call == call
    ensures CallOk(Receive(client, i, call, data), links[i := Responded(links[i])], c)
  {
    var l := Responded(links[i]);
    CountUpdate(links, i, l, c);
    ResultsAppend(client.log, Result(i, call, data), c);
    if call in client.active {
      var log := client.log + [Result(i, call, data)];
      assert Timeout(c) in log <==> Timeout(c) in client.log;
    }
  }

  lemma ReportAppend(log: seq<Report>, r: Report, links: seq<Link>, n: nat)
    requires LogOk(log, links, n) && ReportOk(r, links, n)
    requires forall k :: 0 <= k < |log| ==> MayFollow(log[k], r)
    ensures LogOk(log + [r], links, n)
  {
  }

  lemma LogKept(log: seq<Report>, links: seq<Link>, links': seq<Link>, n: nat, n': nat)
    requires LogOk(log, links, n) && n <= n' && |links| <= |links'|
    requires forall i :: 0 <= i < |links| ==> links[i].answered <= links'[i].answered
    requires forall i, c :: 0 <= i < |links| && c in links[i].answered && c in links[i].submitted ==>
               c in links'[i].submitted && links'[i].submitted[c] == links[i].submitted[c]
    ensures LogOk(log, links', n')
  {
    forall k | 0 <= k < |log| ensures ReportOk(log[k], links', n') {
      assert ReportOk(log[k], links, n);
    }
  }

  lemma TimeOutStep(client: Client, links: seq<Link>, n: nat, call: nat, c: nat)
    requires CallOk(client, links, c)
    ensures CallOk(TimeOut(client, call), links, c)
  {
    ResultsAppend(client.log, Timeout(call), c);
    var log := client.log + [Timeout(call)];
    assert Timeout(c) in log <==> Timeout(c) in client.log || c == call;
  }

  lemma TimeOutOk(client: Client, rest: multiset<nat>, links: seq<Link>, n: nat, call: nat)
    requires ClientOk(client, multiset{call} + rest, links, n)
    ensures ClientOk(TimeOut(client, call), rest, links, n)
  {
    assert call in multiset{call} + rest;
    assert call !in rest by {
      assert (multiset{call} + rest)[call] == 1 + rest[call];
    }
    forall c: nat | c in rest ensures rest[c] == 1 && c < n && Timeout(c) !in TimeOut(client, call).log {
      assert c in multiset{call} + rest;
    }
    forall c: nat | c < n ensures CallOk(TimeOut(client, call), links, c) {
      assert CallOk(client, links, c);
      TimeOutStep(client, links, n, call, c);
    }
    if call in client.active {
      forall k | 0 <= k < |client.log| ensures MayFollow(client.log[k], Timeout(call)) {
      }
      ReportAppend(client.log, Timeout(call), links, n);
    }
  }

  lemma {:induction false} TimeOutAllOk(client: Client, calls: seq<nat>, rest: multiset<nat>, links: seq<Link>, n: nat)
    requires ClientOk(client, multiset(calls) + rest, links, n)
    ensures ClientOk(TimeOutAll(client, calls), rest, links, n)
    ensures TimeOutAll(client, calls).entries == client.entries
    ensures TimeOutAll(client, calls).undefined >= client.undefined
    ensures TimeOutAll(client, calls).undefined == client.undefined <==>
              forall c :: c in calls ==> Arrived(links, c) < Counted(links, c)
    decreases |calls|
  {
    if calls != [] {
      assert calls == [calls[0]] + calls[1..];
      assert forall c :: c in calls <==> c == calls[0] || c in calls[1..];
      assert multiset(calls) + rest == multiset{calls[0]} + (multiset(calls[1..]) + rest);
      assert calls[0] in multiset(calls) + rest;
      assert CallOk(client, links, calls[0]);
      var next := TimeOut(client, calls[0]);
      assert next.undefined == client.undefined <==> Arrived(links, calls[0]) < Counted(links, calls[0]);
      TimeOutOk(client, multiset(calls[1..]) + rest, links, n, calls[0]);
      TimeOutAllOk(next, calls[1..], rest, links, n);
      assert TimeOutAll(client, calls) == TimeOutAll(next, calls[1..]);
    } else {
      assert multiset(calls) + rest == rest;
    }
  }

  lemma {:induction false} SplitEntries(entries: seq<Entry>, duration: int)
    ensures multiset(Expired(entries, duration)) + multiset(CallsOf(Kept(entries, duration))) ==
              multiset(CallsOf(entries))
  {
    if entries == [] {
      assert CallsOf([]) == [];
    } else {
      var e, rest := entries[0], entries[1..];
      SplitEntries(rest, duration);
      CallsOfFirst(entries);
      AddOne(e.call, Expired(rest, duration), CallsOf(Kept(rest, duration)), CallsOf(rest));
      if e.left - duration > 0 {
        CallsOfFirst(Kept(entries, duration));
      }
    }
  }

  lemma CallsOfFirst(entries: seq<Entry>)
    requires entries != []
    ensures CallsOf(entries) == [entries[0].call] + CallsOf(entries[1..])
  {
  }

  lemma AddOne(x: nat, a: seq<nat>, b: seq<nat>, all: seq<nat>)
    requires multiset(a) + multiset(b) == multiset(all)
    ensures multiset([x] + a) + multiset(b) == multiset([x] + all) == multiset(a) + multiset([x] + b)
  {
  }

  // -------------------------------------------------------------- steps of the machine

  lemma PreserveElapse(s: State, duration: int)
    requires Inv(s)
    ensures Inv(Apply(s, Elapse(duration)))
    ensures var s' := Apply(s, Elapse(duration));
            (s'.client.undefined == s.client.undefined
             <==> forall c :: c in Expired(s.client.entries, duration) ==> Arrived(s.links, c) < Counted(s.links, c))
  {
    var kept := s.client.(entries := Kept(s.client.entries, duration));
    SplitEntries(s.client.entries, duration);
    forall c: nat | c < |s.arguments| ensures CallOk(kept, s.links, c) {
      assert CallOk(s.client, s.links, c);
    }
    TimeOutAllOk(kept, Expired(s.client.entries, duration), multiset(CallsOf(kept.entries)), s.links, |s.arguments|);
  }

  lemma PreserveRegister(s: State, handler: bool)
    requires Inv(s)
    ensures Inv(Apply(s, Register(handler)))
  {
    var n, l := |s.arguments|, Registration(|s.arguments|, handler);
    assert LinkOk(l, s.arguments) by {
      forall c: nat ensures Places(l, c) == 0 {
      }
    }
    forall c: nat | c < n ensures CallOk(s.client, s.links + [l], c) {
      assert CallOk(s.client, s.links, c);
      CountAppend(s.links, l, c);
    }
    LogKept(s.client.log, s.links, s.links + [l], n, n);
  }

  /** A step of one server that changes neither what it was told nor what it has answered. */
  lemma PreserveServer(s: State, i: nat, l: Link)
    requires Inv(s) && i < |s.links| && LinkOk(l, s.arguments)
    requires l.since == s.links[i].since && l.answered == s.links[i].answered
    requires l.counted == s.links[i].counted || (s.links[i].counted.None? && l.counted == Some(|s.arguments|))
    requires forall c :: c in l.answered && c in s.links[i].submitted ==>
               c in l.submitted && l.submitted[c] == s.links[i].submitted[c]
    ensures Inv(s.(links := s.links[i := l]))
  {
    var n, links := |s.arguments|, s.links[i := l];
    forall c: nat | c < n ensures CallOk(s.client, links, c) {
      assert CallOk(s.client, s.links, c);
      CountUpdate(s.links, i, l, c);
    }
    LogKept(s.client.log, s.links, links, n, n);
  }

  lemma PreserveRespond(s: State, i: nat)
    requires Inv(s) && Enabled(s, Respond(i))
    ensures Inv(Apply(s, Respond(i)))
  {
    var n, m, l := |s.arguments|, s.links[i].responses[0], Responded(s.links[i]);
    var client, links := Receive(s.client, i, m.call, m.data), s.links[i := l];
    RespondedOk(s.links[i], s.arguments);
    forall c: nat | c < n ensures CallOk(client, links, c) {
      assert CallOk(s.client, s.links, c) && CallOk(s.client, s.links, m.call);
      ResultStep(s.client, s.links, i, n, m.call, m.data, c);
    }
    LogKept(s.client.log, s.links, links, n, n);
    if m.call in s.client.active {
      var r := Result(i, m.call, m.data);
      assert CallOk(s.client, s.links, m.call);
      forall k | 0 <= k < |s.client.log| ensures MayFollow(s.client.log[k], r) {
        assert ReportOk(s.client.log[k], s.links, n);
      }
      ReportAppend(s.client.log, r, links, n);
    }
  }

  /** How the new call and the earlier ones stand after a call. */
  lemma CalledOk(s: State, data: Data, timeout: Option<int>, c: nat)
    requires Inv(s) && Counterparts(s.links) > 0 && c <= |s.arguments|
    ensures var s' := Apply(s, Call(data, timeout)); CallOk(s'.client, s'.links, c)
  {
    var n := |s.arguments|;
    CountBroadcast(s.links, Message(n, Some(data)), c);
    if c < n {
      assert CallOk(s.client, s.links, c);
    } else {
      forall i | 0 <= i < |s.links|
        ensures n !in s.links[i].answered && (s.links[i].counted.Some? ==> IsCounted(s.links[i], n))
      {
        assert LinkOk(s.links[i], s.arguments) && Places(s.links[i], n) == 0;
      }
      CountNew(s.links, n);
      NotYetReported(s.client.log, s.links, n);
    }
  }

  lemma PreserveCall(s: State, data: Data, timeout: Option<int>)
    requires Inv(s) && Counterparts(s.links) > 0
    ensures Inv(Apply(s, Call(data, timeout)))
  {
    var n, s' := |s.arguments|, Apply(s, Call(data, timeout));
    forall i | 0 <= i < |s.links| ensures LinkOk(s'.links[i], s'.arguments) {
      RequestedOk(s.links[i], s.arguments, data);
    }
    forall c: nat | c < n + 1 ensures CallOk(s'.client, s'.links, c) {
      CalledOk(s, data, timeout, c);
    }
    LogKept(s.client.log, s.links, s'.links, n, n + 1);
    WaitingAfterCall(s, timeout);
  }

  lemma WaitingAfterCall(s: State, timeout: Option<int>)
    requires Inv(s) && Counterparts(s.links) > 0
    ensures var client := Trigger(s.client, Counterparts(s.links), |s.arguments|, timeout);
            Waiting(multiset(CallsOf(client.entries)), client.log, |s.arguments| + 1)
  {
    var n := |s.arguments|;
    NotYetReported(s.client.log, s.links, n);
    if timeout.Some? {
      assert CallsOf(s.client.entries + [Entry(timeout.value, n)]) == CallsOf(s.client.entries) + [n];
    }
  }

  lemma {:induction false} NotYetReported(log: seq<Report>, links: seq<Link>, n: nat)
    requires forall k :: 0 <= k < |log| ==> ReportOk(log[k], links, n)
    ensures Results(log, n) == 0 && Timeout(n) !in log
    decreases |log|
  {
    if log != [] {
      NotYetReported(log[..|log| - 1], links, n);
      assert ReportOk(log[|log| - 1], links, n);
    }
  }

  lemma PreserveUnreachable(s: State, data: Data, timeout: Option<int>)
    requires Inv(s) && Counterparts(s.links) == 0
    ensures Inv(Apply(s, Call(data, timeout)))
  {
    var client := Apply(s, Call(data, timeout)).client;
    forall c: nat | c < |s.arguments| ensures CallOk(client, s.links, c) {
      assert CallOk(s.client, s.links, c);
      ResultsAppend(s.client.log, NotReachable, c);
    }
    ReportAppend(s.client.log, NotReachable, s.links, |s.arguments|);
  }

  lemma Preserve(s: State, e: Event)
    requires Inv(s) && Enabled(s, e)
    ensures Inv(Apply(s, e))
  {
    match e
    case Register(handler) => PreserveRegister(s, handler);
    case Discover(i) =>
      DiscoveredOk(s.links[i], s.arguments);
      PreserveServer(s, i, s.links[i].(counted := Some(|s.arguments|)));
    case SetHandler(i, handler) =>
      HandlerChangeOk(s.links[i], s.arguments, handler);
      PreserveServer(s, i, s.links[i].(handler := handler));
    case Call(data, timeout) =>
      if Counterparts(s.links) == 0 {
        PreserveUnreachable(s, data, timeout);
      } else {
        PreserveCall(s, data, timeout);
      }
    case Handle(i) =>
      HandledOk(s.links[i], s.arguments);
      PreserveServer(s, i, Handled(s.links[i]));
    case Submit(i, call, data) =>
      SubmittedOk(s.links[i], s.arguments, call, data);
      PreserveServer(s, i, Submitted(s.links[i], call, data));
    case Respond(i) => PreserveRespond(s, i);
    case Elapse(duration) => PreserveElapse(s, duration);
  }

  lemma {:induction false} RunInv(s: State, es: seq<Event>)
    requires Inv(s) && ValidRun(s, es)
    ensures Inv(Exec(s, es))
    decreases |es|
  {
    if es != [] {
      Preserve(s, es[0]);
      RunInv(Apply(s, es[0]), es[1..]);
    }
  }

  // --------------------------------------------------------------------- the theorems

  /** Whatever the interleaving: no server's result for a call is reported twice, after its
      timeout a call is never reported again, and every reported result is what that server
      submitted for that call after its handler had been given the call's argument, or an
      error for a call that never reached a handler. */
  lemma ReportsAreSound(es: seq<Event>, j: nat, k: nat)
    requires ValidRun(Start(), es) && j <= k < |Exec(Start(), es).client.log|
    ensures var s := Exec(Start(), es);
            var earlier, later := s.client.log[j], s.client.log[k];
            && (j < k && earlier.Timeout? && !later.NotReachable? ==> later.call != earlier.call)
            && (j < k && earlier.Result? && later.Result? ==>
                  earlier.server != later.server || earlier.call != later.call)
            && (later.Result? ==>
                  && later.server < |s.links| && later.call < |s.arguments|
                  && var l := s.links[later.server];
                  && later.call in l.submitted && l.submitted[later.call] == later.data
                  && (later.data.Some? <==> later.call in l.handled)
                  && (later.data.Some? ==> l.handled[later.call] == Some(s.arguments[later.call])))
  {
    RunInv(Start(), es);
    var s := Exec(Start(), es);
    assert j < k ==> MayFollow(s.client.log[j], s.client.log[k]);
    assert ReportOk(s.client.log[k], s.links, |s.arguments|);
  }

  /** The client remembers a call exactly as long as it has not timed out and has fewer
      results than servers were counted when it was made; it keeps the difference. It reports
      the first results that arrive, as many as servers were counted. */
  lemma RemembersExactly(es: seq<Event>, c: nat)
    requires ValidRun(Start(), es) && c < |Exec(Start(), es).arguments|
    ensures var s := Exec(Start(), es);
            var results, counted := Results(s.client.log, c), Counted(s.links, c);
            && (c in s.client.active <==> Timeout(c) !in s.client.log && results < counted)
            && (c in s.client.active ==> s.client.active[c] == counted - results)
            && (Timeout(c) !in s.client.log ==> results == Min(Arrived(s.links, c), counted))
  {
    RunInv(Start(), es);
    var s := Exec(Start(), es);
    assert CallOk(s.client, s.links, c);
  }

  /** Every server that got the call was counted by the client when it was made. */
  ghost predicate AllCounted(s: State, c: nat)
  {
    forall i :: 0 <= i < |s.links| && s.links[i].since <= c ==> IsCounted(s.links[i], c)
  }

  predicate IsQuiet(s: State)
  {
    forall i :: 0 <= i < |s.links| ==>
      s.links[i].requests == [] && s.links[i].pending == {} && s.links[i].responses == []
  }

  /** Once every server's queues are empty, a call that did not time out is forgotten and has
      been reported once for each server counted when it was made; every server that got it
      has been reported if and only if all of these were counted. */
  lemma NothingIsLost(es: seq<Event>, c: nat)
    requires ValidRun(Start(), es) && c < |Exec(Start(), es).arguments| && IsQuiet(Exec(Start(), es))
    requires Timeout(c) !in Exec(Start(), es).client.log
    ensures var s := Exec(Start(), es);
            && c !in s.client.active && Results(s.client.log, c) == Counted(s.links, c)
            && (Results(s.client.log, c) == Reached(s.links, c) <==> AllCounted(s, c))
  {
    RunInv(Start(), es);
    RemembersExactly(es, c);
    var s := Exec(Start(), es);
    forall i | 0 <= i < |s.links| ensures !Owes(s.links[i], c) {
      assert LinkOk(s.links[i], s.arguments);
      assert Places(s.links[i], c) == if Concerns(s.links[i], c, |s.arguments|) then 1 else 0;
    }
    LinksCompare(s, c);
  }

  /** A response is unknown to the client if and only if its call has timed out, as the
      client's warning supposes, or as many responses have arrived as servers were counted;
      and the latter needs a server that got the call without being counted. */
  lemma UnknownResponseIff(es: seq<Event>, i: nat)
    requires ValidRun(Start(), es) && Enabled(Exec(Start(), es), Respond(i))
    ensures var s := Exec(Start(), es);
            var c := s.links[i].responses[0].call;
            && (c !in s.client.active <==> Timeout(c) in s.client.log || Arrived(s.links, c) >= Counted(s.links, c))
            && (AllCounted(s, c) ==> (c !in s.client.active <==> Timeout(c) in s.client.log))
  {
    RunInv(Start(), es);
    var s := Exec(Start(), es);
    var c := s.links[i].responses[0].call;
    RespondedOk(s.links[i], s.arguments);
    assert CallOk(s.client, s.links, c) && Owes(s.links[i], c);
    LinksCompare(s, c);
  }

  /** The time handler uses the element it looked up before asking whether there is one.
      In a reachable state that is well defined if and only if each call whose time is up
      has fewer responses than servers were counted. */
  lemma TimeHandlerIsDefinedIff(es: seq<Event>, duration: int)
    requires ValidRun(Start(), es)
    ensures var s := Exec(Start(), es);
            (Apply(s, Elapse(duration)).client.undefined == s.client.undefined
             <==> forall c :: c in Expired(s.client.entries, duration) ==> Arrived(s.links, c) < Counted(s.links, c))
  {
    RunInv(Start(), es);
    PreserveElapse(Exec(Start(), es), duration);
  }

  lemma Prepend(s: State, e: Event, es: seq<Event>)
    requires Enabled(s, e) && ValidRun(Apply(s, e), es)
    ensures ValidRun(s, [e] + es) && Exec(s, [e] + es) == Exec(Apply(s, e), es)
  {
    assert ([e] + es)[1..] == es;
  }

  /** The state after one call that was answered before its time was up. */
  lemma AnsweredInTime() returns (es: seq<Event>)
    ensures ValidRun(Start(), es)
    ensures Exec(Start(), es).client == Client(map[], [Entry(1, 0)], [Result(0, 0, Some([]))], 0)
  {
    var e1, e2, e3 := Register(true), Discover(0), Call([], Some(1));
    var e4, e5, e6 := Handle(0), Submit(0, 0, []), Respond(0);
    var s1 := Apply(Start(), e1);
    var s2 := Apply(s1, e2);
    assert Counterparts(s2.links) == 1 by { assert s2.links[1..] == []; }
    var s3 := Apply(s2, e3);
    var s4 := Apply(s3, e4);
    var s5 := Apply(s4, e5);
    var s6 := Apply(s5, e6);
    assert s6.client.active == map[];
    es := [];
    Prepend(s5, e6, es);
    es := [e6] + es;
    Prepend(s4, e5, es);
    es := [e5] + es;
    Prepend(s3, e4, es);
    es := [e4] + es;
    Prepend(s2, e3, es);
    es := [e3] + es;
    Prepend(s1, e2, es);
    es := [e2] + es;
    Prepend(Start(), e1, es);
    es := [e1] + es;
  }

  /** And it does happen: a call that is answered in time leaves its timeout behind. */
  lemma AnsweredCallStillExpires() returns (es: seq<Event>)
    ensures ValidRun(Start(), es)
    ensures Apply(Exec(Start(), es), Elapse(1)).client.undefined == 1
  {
    es := AnsweredInTime();
    var client := Exec(Start(), es).client;
    var expired := Expired(client.entries, 1);
    assert expired == [0] + Expired([], 1) && expired[1..] == [];
    var kept := client.(entries := Kept(client.entries, 1));
    assert TimeOutAll(kept, expired) == TimeOutAll(TimeOut(kept, 0), []) == kept.(undefined := 1);
  }

  function Server(counted: Option<nat>): Link
  {
    Link(0, counted, true, [Message(0, Some([]))], {}, [], {}, map[], map[])
  }

  /** A call has been sent to two servers, of which the client has discovered the first. */
  function OneUncounted(): State
  {
    State(Client(map[0 := 1], [], [], 0), [Server(Some(0)), Server(None)], [[]])
  }

  lemma ReachesOneUncounted(rest: seq<Event>) returns (es: seq<Event>)
    requires ValidRun(OneUncounted(), rest)
    ensures ValidRun(Start(), es) && Exec(Start(), es) == Exec(OneUncounted(), rest)
  {
    var s1 := Apply(Start(), Register(true));
    var s2 := Apply(s1, Discover(0));
    var s3 := Apply(s2, Register(true));
    assert s3.links[1..] == [s3.links[1]] && Counterparts([s3.links[1]]) == 0 && Counterparts(s3.links) == 1;
    var call := Call([], None);
    var m := Message(0, Some([]));
    assert s3.links == [Registration(0, true).(counted := Some(0)), Registration(0, true)];
    assert Requested(s3.links[0], m) == Server(Some(0)) && Requested(s3.links[1], m) == Server(None);
    assert Broadcast(s3.links, m) == OneUncounted().links;
    assert Apply(s3, call) == OneUncounted();
    Prepend(s3, call, rest);
    es := [call] + rest;
    Prepend(s2, Register(true), es);
    es := [Register(true)] + es;
    Prepend(s1, Discover(0), es);
    es := [Discover(0)] + es;
    Prepend(Start(), Register(true), es);
    es := [Register(true)] + es;
  }

  /** A run without any timeout in which a response is unknown: the second server gets the
      call before the client has discovered it, and answers after the first. */
  lemma UncountedAnswerIsUnknown() returns (es: seq<Event>)
    ensures ValidRun(Start(), es)
    ensures var s := Exec(Start(), es);
            && Enabled(s, Respond(1)) && s.links[1].responses[0] == Message(0, Some([]))
            && 0 !in s.client.active && s.client.log == [Result(0, 0, Some([]))]
  {
    var s5 := Apply(OneUncounted(), Handle(0));
    var s6 := Apply(s5, Submit(0, 0, []));
    var s7 := Apply(s6, Handle(1));
    var s8 := Apply(s7, Submit(1, 0, []));
    es := [];
    Prepend(s8, Respond(0), es);
    es := [Respond(0)] + es;
    Prepend(s7, Submit(1, 0, []), es);
    es := [Submit(1, 0, [])] + es;
    Prepend(s6, Handle(1), es);
    es := [Handle(1)] + es;
    Prepend(s5, Submit(0, 0, []), es);
    es := [Submit(0, 0, [])] + es;
    Prepend(OneUncounted(), Handle(0), es);
    es := [Handle(0)] + es;
    es := ReachesOneUncounted(es);
  }
}
