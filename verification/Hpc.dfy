/** The central gateway between Zonal A, Zonal B and the telematics ECU: trunk requests
    travel from telematics to Zonal B and back, hazard requests from Zonal A to Zonal B.
    Frames are built and read by byte offset in two different programs. */
module Hpc {
  import opened Arithmetic
  import opened Wrappers

  const OPEN: Byte := 0x80
  const CLOSE: Byte := 0x00

  /** Destination and source address and EtherType of the frames towards Zonal B. */
  const HEADER: seq<Byte> := [0x66, 0x55, 0x44, 0x33, 0x22, 0x11, 0x66, 0x55, 0x44, 0x33, 0x22, 0x33, 0x08, 0x00]

  /** What `CreateFrame_2` puts before its payload: addresses and a fixed 45-byte block. */
  const TO_ZONAL_B: seq<Byte> :=
    [0x66, 0x55, 0x44, 0x33, 0x22, 0x11, 0x66, 0x55, 0x44, 0x33, 0x22, 0x33] +
    [0x08, 0x00, 0x45, 0x00, 0x00, 0x64, 0x00, 0x00, 0x40, 0x00, 0x40, 0x11,
     0xB7, 0x69, 0xC0, 0xA8, 0x01, 0x02, 0xC0, 0xA8, 0x01, 0x05] +
    [0x13, 0x59, 0x13, 0x58, 0x00, 0x50, 0x00, 0x00, 0x00, 0x00, 0x13, 0x01, 0x00, 0x00, 0x00, 0x40,
     0x00, 0x00, 0x00, 0x00, 0x00, 0x00, 0x00]

  /** The same towards the telematics ECU. */
  const TO_TELEMATICS: seq<Byte> :=
    [0x66, 0x55, 0x44, 0x33, 0x22, 0x55, 0x66, 0x55, 0x44, 0x33, 0x22, 0x33] +
    [0x08, 0x00, 0x45, 0x00, 0x00, 0x64, 0x00, 0x00, 0x40, 0x00, 0x40, 0x11,
     0xB7, 0x69, 0xC0, 0xA8, 0x01, 0x02, 0xC0, 0xA8, 0x01, 0x07] +
    [0x13, 0x59, 0x13, 0x58, 0x00, 0x50, 0x00, 0x00, 0x00, 0x00, 0x13, 0x01, 0x00, 0x00, 0x00, 0x40,
     0x00, 0x00, 0x00, 0x00, 0x00, 0x00, 0x00]

  /** `GetPayloadHexFromFrame` of both programs: everything after two addresses and the EtherType. */
  function PayloadOf(frame: seq<Byte>): seq<Byte>
    requires |frame| >= 14
  {
    frame[14..]
  }

  function Pow2(n: nat): (p: nat)
    ensures p > 0
  {
    if n == 0 then 1 else 2 * Pow2(n - 1)
  }

  predicate BitOf(info: Byte, i: nat)
  {
    info / Pow2(i) % 2 == 1
  }

  /** The bits of Zonal A's info byte, most significant first. */
  function BitsOf(info: Byte): seq<bool>
  {
    seq(8, k requires 0 <= k < 8 => BitOf(info, 7 - k))
  }

  predicate MovingBit(info: Byte) { BitOf(info, 5) }
  predicate HazardBits(info: Byte) { BitOf(info, 7) && BitOf(info, 3) }

  // ------------------------------------------------- gateway state and its handlers

  datatype Gateway = Gateway(
    fromTelematic: seq<Byte>, bits: seq<bool>, ignition: bool, flagTelematic: bool, trunkResponse: bool)

  function Fresh(): Gateway
  {
    Gateway([], [], false, false, false)
  }

  function OnZonalA(g: Gateway, frame: seq<Byte>): Gateway
    requires |frame| >= 59
  {
    g.(bits := BitsOf(PayloadOf(frame)[44]), ignition := true)
  }

  function OnTelematic(g: Gateway, frame: seq<Byte>): Gateway
    requires |frame| >= 14
  {
    g.(fromTelematic := PayloadOf(frame), flagTelematic := g.flagTelematic || g.ignition)
  }

  /** The speed check: an opening request of a moving vehicle becomes a closing one. */
  function SendToZonalB(g: Gateway): (Gateway, seq<Byte>)
    requires |g.fromTelematic| >= 2 && |g.bits| == 8
  {
    var p := g.fromTelematic;
    var p' := if p[1] == OPEN && g.bits[2] then p[1 := CLOSE] else p;
    var known := p[1] == OPEN || p[1] == CLOSE;
    (g.(fromTelematic := p', trunkResponse := g.trunkResponse || known, flagTelematic := false), TO_ZONAL_B + p')
  }

  function SendToTelematics(g: Gateway): (Gateway, Option<seq<Byte>>)
  {
    if g.trunkResponse then (g.(trunkResponse := false), Some(TO_TELEMATICS + g.fromTelematic)) else (g, None)
  }

  // --------------------------------------------------------- the telematics verdict

  datatype Verdict = TrunkOpened | TrunkClosed | SomethingWentWrong

  function VerdictOf(frame: seq<Byte>, trunkFrame: seq<Byte>): Verdict
    requires |frame| >= 59 && |trunkFrame| >= 16
  {
    var answer, request := PayloadOf(frame)[44], trunkFrame[15];
    if answer == OPEN && request == OPEN then TrunkOpened
    else if answer == CLOSE && request == OPEN then TrunkClosed
    else if answer == CLOSE && request == CLOSE then TrunkClosed
    else SomethingWentWrong
  }

  // --------------------------------------------------------------- the whole system

  /** One served request. `request` and `moving` are what the telematics ECU asked for and
      what Zonal A last reported when the frame for Zonal B was sent; `later` is the last
      request that came in between that frame and the answer. `asked` and `askedLater` are
      the payloads of these requests, `frame` and `reply` the frames that were sent. */
  datatype Round = Round(
    request: Byte, moving: bool, command: Byte, later: Option<Byte>, answer: Option<Byte>, verdict: Option<Verdict>,
    asked: seq<Byte>, askedLater: seq<Byte>, frame: seq<Byte>, reply: seq<Byte>)

  datatype System = System(
    g: Gateway, trunkFrame: seq<Byte>, lastInfo: Option<Byte>, open: Option<Round>, rounds: seq<Round>)

  datatype Event =
    | ZonalA(frame: seq<Byte>)
    | Telematic(frame: seq<Byte>)
    | SendZonal
    | Respond

  /** Handlers and send routines are atomic, and the worker sends to Zonal B and to telematics
      in turn; a request may arrive at any time. Shorter frames are out of bounds in the
      source. */
  predicate Enabled(s: System, e: Event)
  {
    match e
    case ZonalA(frame) => |frame| >= 59
    case Telematic(frame) => |frame| >= 16
    case SendZonal => s.g.flagTelematic && s.open.None?
    case Respond => s.open.Some?
  }

  predicate WellFormed(s: System)
  {
    && (s.g.ignition ==> s.lastInfo.Some? && s.g.bits == BitsOf(s.lastInfo.value))
    && (s.g.flagTelematic || s.open.Some? ==> s.g.ignition && |s.g.fromTelematic| >= 2 && |s.trunkFrame| >= 16)
  }

  function ApplySendZonal(s: System): System
    requires WellFormed(s) && Enabled(s, SendZonal)
  {
    var (g', frame) := SendToZonalB(s.g);
    var r := Round(s.trunkFrame[15], MovingBit(s.lastInfo.value), frame[58], None, None, None,
                   PayloadOf(s.trunkFrame), [], frame, []);
    s.(g := g', open := Some(r))
  }

  function ApplyRespond(s: System): System
    requires WellFormed(s) && Enabled(s, Respond)
  {
    var (g', frame) := SendToTelematics(s.g);
    var r := if frame.None? then s.open.value
             else s.open.value.(answer := Some(frame.value[58]), verdict := Some(VerdictOf(frame.value, s.trunkFrame)),
                                reply := frame.value);
    s.(g := g', open := None, rounds := s.rounds + [r])
  }

  function Apply(s: System, e: Event): System
    requires WellFormed(s) && Enabled(s, e)
  {
    match e
    case ZonalA(frame) => s.(g := OnZonalA(s.g, frame), lastInfo := Some(frame[58]))
    case Telematic(frame) =>
      var open := if s.open.None? then None
                  else Some(s.open.value.(later := Some(frame[15]), askedLater := PayloadOf(frame)));
      s.(g := OnTelematic(s.g, frame), trunkFrame := frame, open := open)
    case SendZonal => ApplySendZonal(s)
    case Respond => ApplyRespond(s)
  }

  predicate IsTrunkRequest(b: Byte)
  {
    b == OPEN || b == CLOSE
  }

  /** The payload that Zonal B was sent, and the one the answer is built from. */
  function Commanded(r: Round): seq<Byte>
    requires |r.asked| >= 2
  {
    r.asked[1 := r.command]
  }

  function Stored(r: Round): seq<Byte>
    requires |r.asked| >= 2
  {
    if r.later.Some? then r.askedLater else Commanded(r)
  }

  predicate Framed(r: Round)
  {
    && |r.asked| >= 2 && r.asked[1] == r.request && r.frame == TO_ZONAL_B + Commanded(r)
    && (r.later.Some? ==> |r.askedLater| >= 2 && r.askedLater[1] == r.later.value)
    && r.reply == if r.answer.Some? then TO_TELEMATICS + Stored(r) else []
  }

  /** What a round must look like, in terms of the requests and the vehicle only. */
  predicate Correct(r: Round)
  {
    && Framed(r)
    && r.command == (if r.request == OPEN && r.moving then CLOSE else r.request)
    && (if !IsTrunkRequest(r.request) then r.answer.None? && r.verdict.None?
        else if r.later.None? then
          && r.answer == Some(r.command)
          && r.verdict == Some(if r.request == OPEN && !r.moving then TrunkOpened else TrunkClosed)
        else
          && r.answer == r.later
          && r.verdict == Some(if r.later.value == OPEN then TrunkOpened
                               else if r.later.value == CLOSE then TrunkClosed
                               else SomethingWentWrong))
  }

  ghost predicate Inv(s: System)
  {
    && WellFormed(s)
    && (forall i :: 0 <= i < |s.rounds| ==> Correct(s.rounds[i]))
    && (s.g.flagTelematic ==> s.g.fromTelematic == PayloadOf(s.trunkFrame))
    && (s.open.None? ==> !s.g.trunkResponse)
    && (s.open.Some? ==>
          var r := s.open.value;
          && r.answer.None? && r.verdict.None? && Framed(r) && s.g.fromTelematic == Stored(r)
          && r.command == (if r.request == OPEN && r.moving then CLOSE else r.request)
          && s.trunkFrame[15] == (if r.later.Some? then r.later.value else r.request)
          && s.g.fromTelematic[1] == (if r.later.Some? then r.later.value else r.command)
          && (s.g.trunkResponse <==> IsTrunkRequest(r.request)))
  }

  lemma PreserveSendZonal(s: System)
    requires Inv(s) && Enabled(s, SendZonal)
    ensures Inv(ApplySendZonal(s))
  {
    assert |TO_ZONAL_B| == 57;
    var (g', frame) := SendToZonalB(s.g);
    assert frame[58] == g'.fromTelematic[1];
  }

  lemma PreserveRespond(s: System)
    requires Inv(s) && Enabled(s, Respond)
    ensures Inv(ApplyRespond(s))
  {
    assert |TO_TELEMATICS| == 57;
    var (g', frame) := SendToTelematics(s.g);
    assert frame.Some? ==> frame.value[58] == s.g.fromTelematic[1] && PayloadOf(frame.value)[44] == frame.value[58];
  }

  lemma Preserve(s: System, e: Event)
    requires Inv(s) && Enabled(s, e)
    ensures Inv(Apply(s, e))
  {
    match e
    case ZonalA(frame) => assert PayloadOf(frame)[44] == frame[58];
    case Telematic(frame) =>
    case SendZonal => PreserveSendZonal(s);
    case Respond => PreserveRespond(s);
  }

  function Start(): System
  {
    System(Fresh(), [], None, None, [])
  }

  /** A run, as long as the events are possible and the state is well formed. */
  ghost predicate ValidRun(s: System, es: seq<Event>)
    decreases |es|
  {
    es == [] || (WellFormed(s) && Enabled(s, es[0]) && ValidRun(Apply(s, es[0]), es[1..]))
  }

  ghost function Exec(s: System, es: seq<Event>): System
    requires ValidRun(s, es)
    decreases |es|
  {
    if es == [] then s else Exec(Apply(s, es[0]), es[1..])
  }

  lemma {:induction false} RunInv(s: System, es: seq<Event>)
    requires Inv(s) && ValidRun(s, es)
    ensures Inv(Exec(s, es))
    decreases |es|
  {
    if es != [] {
      Preserve(s, es[0]);
      RunInv(Apply(s, es[0]), es[1..]);
    }
  }

  /** In every run and for every payload: opening (0x80) is sent only while the vehicle stands
      still, and a request byte of neither kind is forwarded but not answered. If no request
      came in between, Zonal B and telematics get the same command byte, and the verdict is
      TRUNK_OPENED exactly when opening was requested and the vehicle stood still, never the
      error. */
  lemma EveryRoundIsCorrect(es: seq<Event>, i: nat)
    requires ValidRun(Start(), es) && i < |Exec(Start(), es).rounds|
    ensures var r := Exec(Start(), es).rounds[i];
            && r.command == (if r.request == 0x80 && r.moving then 0x00 else r.request)
            && (r.answer.Some? <==> r.request == 0x80 || r.request == 0x00) && (r.verdict.Some? <==> r.answer.Some?)
            && (r.later.None? ==>
                  && (r.answer.Some? ==> r.answer.value == r.command)
                  && (r.verdict == Some(TrunkOpened) <==> r.request == 0x80 && !r.moving)
                  && r.verdict != Some(SomethingWentWrong))
  {
    RunInv(Start(), es);
  }

  /** A request that comes in between replaces the payload that the answer is built from. In
      every run the answer is the command byte if and only if the last such request, if any,
      equals it; and the verdict is then about the new request, unchecked. */
  lemma AnswerAgreesIff(es: seq<Event>, i: nat)
    requires ValidRun(Start(), es) && i < |Exec(Start(), es).rounds|
    requires var r := Exec(Start(), es).rounds[i]; r.request == 0x80 || r.request == 0x00
    ensures var r := Exec(Start(), es).rounds[i];
            && (r.answer == Some(r.command) <==> r.later.None? || r.later.value == r.command)
            && (r.later.Some? ==> (r.verdict == Some(TrunkOpened) <==> r.later.value == 0x80))
            && (r.verdict == Some(SomethingWentWrong) <==>
                  r.later.Some? && r.later.value != 0x80 && r.later.value != 0x00)
  {
    RunInv(Start(), es);
  }

  /** `frame` goes from the gateway to the given hardware and network address, as UDP over
      IPv4 with the gateway's ports, and carries `payload` from byte 57 on. */
  predicate Addressed(frame: seq<Byte>, mac: Byte, host: Byte, payload: seq<Byte>)
  {
    && |frame| >= 57 && frame[57..] == payload
    // destination and source hardware address, EtherType
    && frame[0] == 0x66 && frame[1] == 0x55 && frame[2] == 0x44 && frame[3] == 0x33 && frame[4] == 0x22
    && frame[5] == mac
    && frame[6] == 0x66 && frame[7] == 0x55 && frame[8] == 0x44 && frame[9] == 0x33 && frame[10] == 0x22
    && frame[11] == 0x33 && frame[12] == 0x08 && frame[13] == 0x00
    // version and protocol, source and destination network address, ports
    && frame[14] == 0x45 && frame[23] == 0x11
    && frame[26] == 192 && frame[27] == 168 && frame[28] == 1 && frame[29] == 2
    && frame[30] == 192 && frame[31] == 168 && frame[32] == 1 && frame[33] == host
    && frame[34] == 0x13 && frame[35] == 0x59 && frame[36] == 0x13 && frame[37] == 0x58
  }

  /** In every run the frame for Zonal B is addressed to Zonal B and carries the requested
      payload with the command in it; the answer, if any, is addressed to telematics and
      carries the stored payload: the same one, or that of the last request in between. */
  lemma FramesAreAddressed(es: seq<Event>, i: nat)
    requires ValidRun(Start(), es) && i < |Exec(Start(), es).rounds|
    ensures var r := Exec(Start(), es).rounds[i];
            && |r.asked| >= 2 && r.asked[1] == r.request
            && Addressed(r.frame, 0x11, 5, r.asked[1 := r.command])
            && (if r.request == 0x80 || r.request == 0x00 then
                  Addressed(r.reply, 0x55, 7, if r.later.Some? then r.askedLater else r.asked[1 := r.command])
                else r.reply == [])
  {
    RunInv(Start(), es);
    var r := Exec(Start(), es).rounds[i];
    assert Correct(r) && Framed(r);
    HeaderOfZonalB(Commanded(r));
    HeaderOfTelematics(Stored(r));
  }

  lemma HeaderOfZonalB(payload: seq<Byte>)
    ensures Addressed(TO_ZONAL_B + payload, 0x11, 5, payload)
  {
    assert |TO_ZONAL_B| == 57;
  }

  lemma HeaderOfTelematics(payload: seq<Byte>)
    ensures Addressed(TO_TELEMATICS + payload, 0x55, 7, payload)
  {
    assert |TO_TELEMATICS| == 57;
  }

  lemma Prepend(s: System, e: Event, es: seq<Event>)
    requires WellFormed(s) && Enabled(s, e) && ValidRun(Apply(s, e), es)
    ensures ValidRun(s, [e] + es) && Exec(s, [e] + es) == Exec(Apply(s, e), es)
  {
    assert ([e] + es)[1..] == es;
  }

  /** A run in which telematics is told that the trunk was opened, although the vehicle moves
      and Zonal B was told to close it: opening is requested twice. */
  lemma InterposedRequest() returns (es: seq<Event>)
    ensures ValidRun(Start(), es) && |Exec(Start(), es).rounds| == 1
    ensures var r := Exec(Start(), es).rounds[0];
            r.moving && r.command == 0x00 && r.answer == Some(0x80) && r.verdict == Some(TrunkOpened)
  {
    var moves, opens := ZonalA(seq(59, i => 0x20)), Telematic(seq(16, i => OPEN));
    assert BitOf(0x20, 5) by { assert Pow2(5) == 32; }
    var s1 := Apply(Start(), moves);
    var s2 := Apply(s1, opens);
    var s3 := Apply(s2, SendZonal);
    var s4 := Apply(s3, opens);
    var s5 := Apply(s4, Respond);
    StartInv();
    Preserve(Start(), moves);
    Preserve(s1, opens);
    Preserve(s2, SendZonal);
    Preserve(s3, opens);
    Preserve(s4, Respond);
    assert Correct(s5.rounds[0]);
    es := [];
    Prepend(s4, Respond, es);
    es := [Respond] + es;
    Prepend(s3, opens, es);
    es := [opens] + es;
    Prepend(s2, SendZonal, es);
    es := [SendZonal] + es;
    Prepend(s1, opens, es);
    es := [opens] + es;
    Prepend(Start(), moves, es);
    es := [moves] + es;
  }

  lemma StartInv()
    ensures Inv(Start())
  {
  }

  /** No run is cut short: every reachable state is well formed, so no routine reads out of
      bounds and every enabled event can follow. */
  lemma RunsStayInBounds(es: seq<Event>)
    requires ValidRun(Start(), es)
    ensures WellFormed(Exec(Start(), es))
  {
    RunInv(Start(), es);
  }

  // ------------------------------------------------------------------- the program

  /** What `CreateFrame_1` overwrites in the payload for Zonal B: the source and destination
      address fields of the IPv4 header and two bytes of the message identifier. */
  function Patched(p: seq<Byte>): seq<Byte>
    requires |p| >= 45
  {
    var identified := p[30 := 0x11][31 := 0x01];
    WithAddress(WithAddress(identified, 12, 0x02), 16, 0x05)
  }

  /** The address 192.168.1.`host` at offset `at`. */
  function WithAddress(p: seq<Byte>, at: nat, host: Byte): (r: seq<Byte>)
    requires |p| >= at + 4
    ensures |r| == |p|
  {
    p[at := 0xC0][at + 1 := 0xA8][at + 2 := 0x01][at + 3 := host]
  }

  /** Every other byte, the hazard byte 44 among them, is Zonal A's own. */
  lemma PatchedElsewhere(p: seq<Byte>)
    requires |p| >= 45
    ensures |Patched(p)| == |p|
    ensures forall i :: 0 <= i < |p| && !(12 <= i <= 19) && i != 30 && i != 31 ==> Patched(p)[i] == p[i]
    ensures Patched(p)[12..20] == [0xC0, 0xA8, 0x01, 0x02, 0xC0, 0xA8, 0x01, 0x05]
    ensures Patched(p)[30] == 0x11 && Patched(p)[31] == 0x01
  {
  }

  type Payload = p: seq<Byte> | |p| >= 45 witness seq(45, i => 0)

  /** What Zonal A's payload is when the blink loop tests its bits and when it copies it; the
      frame handler may replace it at any time in between. */
  datatype Turn = Turn(tested: Payload, copied: Payload)

  /** Bits 0 and 4 of the info byte, counted from the most significant one. */
  predicate Blinks(info: Byte)
  {
    info / 128 % 2 == 1 && info / 8 % 2 == 1
  }

  /** What the bits of the info byte mean, literally. */
  lemma BitsMean(info: Byte)
    ensures BitsOf(info) ==
              [info / 128 % 2 == 1, info / 64 % 2 == 1, info / 32 % 2 == 1, info / 16 % 2 == 1,
               info / 8 % 2 == 1, info / 4 % 2 == 1, info / 2 % 2 == 1, info % 2 == 1]
    ensures HazardBits(info) <==> BitsOf(info)[0] && BitsOf(info)[4]
    ensures HazardBits(info) <==> Blinks(info)
    ensures MovingBit(info) <==> info / 32 % 2 == 1
  {
    PowersOfTwo();
  }

  lemma PowersOfTwo()
    ensures Pow2(0) == 1 && Pow2(1) == 2 && Pow2(2) == 4 && Pow2(3) == 8
    ensures Pow2(4) == 16 && Pow2(5) == 32 && Pow2(6) == 64 && Pow2(7) == 128
  {
    assert Pow2(2) == 4;
    assert Pow2(4) == 16;
    assert Pow2(6) == 64;
  }

  ghost predicate EndsBlinking(env: seq<Turn>, n: nat)
  {
    && n < |env| && !Blinks(env[n].tested[44])
    && forall i :: 0 <= i < n ==> Blinks(env[i].tested[44])
  }

  class Program {
    var fromZonalA: seq<Byte>
    var toZonalB: array<Byte>
    var bits: seq<bool>
    var fromTelematic: seq<Byte>
    var flagTelematic: bool
    var flagHazard: bool
    var trunkResponse: bool
    var ignition: bool

    ghost function Model(): Gateway
      reads this
    {
      Gateway(fromTelematic, bits, ignition, flagTelematic, trunkResponse)
    }

    constructor ()
      ensures Model() == Fresh() && !flagHazard && fresh(toZonalB)
    {
      fromZonalA, bits, fromTelematic := [], [], [];
      flagTelematic, flagHazard, trunkResponse, ignition := false, false, false, false;
      toZonalB := new Byte[0];
    }

    method ExtractBits(info: Byte)
      modifies this`bits, this`ignition
      ensures bits == BitsOf(info) && ignition
      ensures |bits| == 8 && bits[0] == (info / 128 % 2 == 1) && bits[2] == (info / 32 % 2 == 1)
      ensures bits[4] == (info / 8 % 2 == 1) && bits[7] == (info % 2 == 1)
    {
      BitsMean(info);
      bits := [];
      var i := 7;
      while i >= 0
        invariant -1 <= i <= 7
        invariant |bits| == 7 - i
        invariant forall k :: 0 <= k < |bits| ==> bits[k] == BitOf(info, 7 - k)
      {
        bits := bits + [info / Pow2(i) % 2 == 1];
        i := i - 1;
      }
      ignition := true;
    }

    method FrameHandlerZonalA(frame: seq<Byte>)
      requires |frame| >= 59
      modifies this
      ensures Model() == OnZonalA(old(Model()), frame)
      ensures fromZonalA == frame[14..] && bits[2] == (frame[58] / 32 % 2 == 1) && ignition
      ensures flagHazard && toZonalB == old(toZonalB)
      ensures fromTelematic == old(fromTelematic) && flagTelematic == old(flagTelematic)
      ensures trunkResponse == old(trunkResponse)
    {
      fromZonalA := frame[14..];
      ExtractBits(fromZonalA[44]);
      flagHazard := true;
    }

    method FrameHandlerTelematic(frame: seq<Byte>)
      requires |frame| >= 14
      modifies this`fromTelematic, this`flagTelematic
      ensures Model() == OnTelematic(old(Model()), frame)
      ensures fromTelematic == frame[14..] && flagTelematic == (old(flagTelematic) || ignition)
    {
      fromTelematic := frame[14..];
      if ignition {
        flagTelematic := true;
      }
    }

    method SendTelematic2Zonal() returns (frame: seq<Byte>)
      requires |fromTelematic| >= 2 && |bits| == 8
      modifies this`fromTelematic, this`trunkResponse, this`flagTelematic
      ensures (Model(), frame) == SendToZonalB(old(Model()))
      ensures var p := old(fromTelematic);
              && fromTelematic == (if p[1] == 0x80 && bits[2] then p[1 := 0x00] else p)
              && trunkResponse == (old(trunkResponse) || p[1] == 0x80 || p[1] == 0x00) && !flagTelematic
      ensures Addressed(frame, 0x11, 5, fromTelematic)
    {
      if fromTelematic[1] == OPEN && !bits[2] {
        trunkResponse := true;
      } else if fromTelematic[1] == OPEN && bits[2] {
        fromTelematic := fromTelematic[1 := CLOSE];
        trunkResponse := true;
      } else if fromTelematic[1] == CLOSE {
        trunkResponse := true;
      }
      frame := TO_ZONAL_B + fromTelematic;
      HeaderOfZonalB(fromTelematic);
      flagTelematic := false;
    }

    method SendHpc2Telematic() returns (frame: Option<seq<Byte>>)
      modifies this`trunkResponse
      ensures (Model(), frame) == SendToTelematics(old(Model()))
      ensures (frame.Some? <==> old(trunkResponse)) && !trunkResponse
      ensures frame.Some? ==> Addressed(frame.value, 0x55, 7, fromTelematic)
    {
      frame := None;
      if trunkResponse {
        frame := Some(TO_TELEMATICS + fromTelematic);
        HeaderOfTelematics(fromTelematic);
        trunkResponse := false;
      }
    }

    /** The patches go to the buffer for Zonal B, the frame carries `payload`: the patches
        reach the frame exactly because every caller passes that same buffer. */
    method CreateFrame1(payload: array<Byte>) returns (raw: seq<Byte>)
      requires toZonalB.Length >= 45
      modifies toZonalB
      ensures toZonalB[..] == Patched(old(toZonalB[..]))
      ensures payload == toZonalB ==> raw == HEADER + Patched(old(payload[..]))
      ensures payload != toZonalB ==> raw == HEADER + old(payload[..])
      ensures raw[..14] == [0x66, 0x55, 0x44, 0x33, 0x22, 0x11, 0x66, 0x55, 0x44, 0x33, 0x22, 0x33, 0x08, 0x00]
    {
      ghost var was := toZonalB[..];
      toZonalB[30], toZonalB[31] := 0x11, 0x01;
      assert toZonalB[..] == was[30 := 0x11][31 := 0x01];
      PatchAddress(12, 0x02);
      PatchAddress(16, 0x05);
      raw := HEADER + payload[..];
    }

    method PatchAddress(at: nat, host: Byte)
      requires toZonalB.Length >= at + 4
      modifies toZonalB
      ensures toZonalB[..] == WithAddress(old(toZonalB[..]), at, host)
    {
      toZonalB[at], toZonalB[at + 1] := 0xC0, 0xA8;
      toZonalB[at + 2], toZonalB[at + 3] := 0x01, host;
    }

    /** Copies Zonal A's payload into a new buffer. */
    method CopyPayload(payload: seq<Byte>)
      modifies this`toZonalB
      ensures fresh(toZonalB) && toZonalB[..] == payload
    {
      toZonalB := new Byte[|payload|](i requires 0 <= i < |payload| => payload[i]);
    }

    method SendByte44(value: Byte) returns (raw: seq<Byte>)
      requires toZonalB.Length >= 45
      modifies toZonalB
      ensures raw == HEADER + Patched(old(toZonalB[..]))[44 := value]
      ensures toZonalB[..] == Patched(old(toZonalB[..]))[44 := value]
    {
      toZonalB[44] := value;
      assert toZonalB[..] == old(toZonalB[..])[44 := value];
      raw := CreateFrame1(toZonalB);
      assert Patched(old(toZonalB[..])[44 := value]) == Patched(old(toZonalB[..]))[44 := value];
    }

    /** Blinks, one ON and one OFF frame a turn, until Zonal A clears a hazard bit; then sends
        one frame with Zonal A's own hazard byte. */
    method SendHazard2Zonal(env: seq<Turn>, ghost n: nat) returns (frames: seq<seq<Byte>>)
      requires EndsBlinking(env, n)
      modifies this`toZonalB, this`flagHazard
      ensures |frames| == 2 * n + 1 && !flagHazard
      ensures forall i :: 0 <= i < n ==>
                && frames[2 * i] == HEADER + Patched(env[i].copied)[44 := 0xFE]
                && frames[2 * i + 1] == HEADER + Patched(env[i].copied)[44 := 0x00]
      ensures frames[2 * n] == HEADER + Patched(env[n].copied)
    {
      frames := [];
      var i := 0;
      BitsMean(env[0].tested[44]);
      while HazardBits(env[i].tested[44])
        invariant 0 <= i <= n && (HazardBits(env[i].tested[44]) <==> Blinks(env[i].tested[44])) && |frames| == 2 * i
        invariant forall k :: 0 <= k < i ==>
                    && frames[2 * k] == HEADER + Patched(env[k].copied)[44 := 0xFE]
                    && frames[2 * k + 1] == HEADER + Patched(env[k].copied)[44 := 0x00]
        decreases n - i
      {
        var on, off := Blink(env[i].copied);
        frames := frames + [on, off];
        i := i + 1;
        BitsMean(env[i].tested[44]);
      }
      CopyPayload(env[i].copied);
      var last := CreateFrame1(toZonalB);
      frames := frames + [last];
      flagHazard := false;
    }

    method Blink(payload: Payload) returns (on: seq<Byte>, off: seq<Byte>)
      modifies this`toZonalB
      ensures on == HEADER + Patched(payload)[44 := 0xFE] && off == HEADER + Patched(payload)[44 := 0x00]
    {
      CopyPayload(payload);
      on := SendByte44(0xFE);
      off := SendByte44(0x00);
      assert Patched(Patched(payload)[44 := 0xFE])[44 := 0x00] == Patched(payload)[44 := 0x00];
    }
  }
}
