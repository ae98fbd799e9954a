/** The sequential core of the remote-tuner server: one status refresh that queries the
    tuner in a fixed order and publishes a snapshot only when every query succeeded, the
    mode-name maps, and the dispatch of client messages to tuner commands. */
module RemoteTuner {
  import opened Results
  import opened Framing
  import opened Protocol
  import Kat500

  /** One connected client session. */
  type SessionId = nat

  /** One published snapshot: the fields of the JSON object sent to clients. Its fault code,
      name and description are `fault.code`, `fault.Name()` and `fault.Description()`. */
  datatype TunerStatus = TunerStatus(
    time: int,
    firmwareRevision: string,
    powered: bool,
    vswr: real,
    mode: string,
    fault: Fault,
    usersConnected: nat,
    tuning: bool)

  /** Device mode code to the name clients see. */
  const ModeNames: map<string, string> :=
    map[ModeBypass := "bypass", ModeManual := "manual", ModeAuto := "auto"]

  /** Client mode name to the device mode code. */
  const TunerModes: map<string, string> :=
    map["bypass" := ModeBypass, "manual" := ModeManual, "auto" := ModeAuto]

  /** The two maps are mutual inverses, and the codes are exactly the driver's modes. */
  lemma ModeMapsAreInverse()
    ensures forall code :: code in ModeNames <==> code in Modes
    ensures forall code :: code in ModeNames ==>
      ModeNames[code] in TunerModes && TunerModes[ModeNames[code]] == code
    ensures forall name :: name in TunerModes ==>
      TunerModes[name] in ModeNames && ModeNames[TunerModes[name]] == name
  {
  }

  /** The queries of one refresh, in the order they are written. */
  const RefreshCommands: seq<string> :=
    [Frame("RV"), Frame("PS"), Frame("VSWR"), Frame("MD"), Frame("FLT"), Frame("TP")]

  // ---------------------------------------------------------------------------------------
  // Sessions

  /** The sessions whose channel is not closed; `connected` maps each session to its
      `closed` flag. */
  function LiveSessions(connected: map<SessionId, bool>): set<SessionId> {
    set id | id in connected && !connected[id]
  }

  /** `sum(not websocket.closed for websocket in connected_websockets)`. */
  method CountLive(connected: map<SessionId, bool>) returns (n: nat)
    ensures n == |LiveSessions(connected)|
  {
    n := 0;
    var pending := connected.Keys;
    ghost var live: set<SessionId> := {};
    while pending != {}
      invariant pending <= connected.Keys
      invariant live == set id | id in connected.Keys - pending && !connected[id]
      invariant n == |live|
      decreases pending
    {
      var id :| id in pending;
      if !connected[id] {
        assert id !in live;
        live := live + {id};
        n := n + 1;
      }
      pending := pending - {id};
    }
    assert live == LiveSessions(connected);
  }

  /** A session whose channel closes stops being counted. */
  lemma {:induction false} ClosingDropsCount(connected: map<SessionId, bool>, id: SessionId)
    requires id in connected && !connected[id]
    ensures |LiveSessions(connected[id := true])| == |LiveSessions(connected)| - 1
  {
    assert LiveSessions(connected[id := true]) == LiveSessions(connected) - {id};
  }

  /** No more sessions are counted than are connected. */
  lemma LiveCountBounded(connected: map<SessionId, bool>)
    ensures |LiveSessions(connected)| <= |connected|
  {
    assert LiveSessions(connected) <= connected.Keys;
    SubsetCardinality(LiveSessions(connected), connected.Keys);
  }

  lemma {:induction false} SubsetCardinality<T>(a: set<T>, b: set<T>)
    requires a <= b
    ensures |a| <= |b|
    decreases |b|
  {
    if a != {} {
      var x :| x in a;
      SubsetCardinality(a - {x}, b - {x});
    }
  }

  // ---------------------------------------------------------------------------------------
  // One status refresh

  /** The outcome of a run of refresh queries: the value, or the error that aborted the run;
      the chunks left unread; and how many of the refresh queries were written. */
  datatype Cycle<+T> = Cycle(outcome: Result<T>, rest: Queue, issued: nat)

  /** The value one refresh query yields. */
  datatype Reading = Text(text: string) | Flag(flag: bool) | Ratio(ratio: real) | Code(fault: Fault)

  /** The kind of value the k-th refresh query yields; the mode query yields a mode code. */
  predicate Expected(k: nat, r: Reading) {
    if k == 0 then r.Text?
    else if k == 1 || k == 5 then r.Flag?
    else if k == 2 then r.Ratio?
    else if k == 3 then r.Text? && r.text in Modes
    else r.Code?
  }

  /** The driver's decoder for the k-th refresh query, its value wrapped as a reading. */
  function DecodeReading(k: nat, response: string, parseFloat: string -> Option<real>): (r: Result<Reading>)
    requires k < |RefreshCommands|
    ensures r.Ok? ==> Expected(k, r.value)
  {
    if k == 0 then Ok(Text(Revision(response).value))
    else if k == 1 then (match Powered(response) case Ok(on) => Ok(Flag(on)) case Err(e) => Err(e))
    else if k == 2 then
      (match VswrDecoder(parseFloat)(response) case Ok(x) => Ok(Ratio(x)) case Err(e) => Err(e))
    else if k == 3 then (match ModeOf(response) case Ok(m) => Ok(Text(m)) case Err(e) => Err(e))
    else if k == 4 then (match DecodeFault(response) case Ok(f) => Ok(Code(f)) case Err(e) => Err(e))
    else Ok(Flag(Tuning(response).value))
  }

  /** The refresh queries from the k-th on, each answered and decoded in turn, stopping at
      the first that fails; `readings` holds the values of the queries before the k-th. */
  function Collect(k: nat, q: Queue, readings: seq<Reading>, parseFloat: string -> Option<real>)
    : (c: Cycle<seq<Reading>>)
    requires k <= |RefreshCommands| && |readings| == k
    ensures k <= c.issued <= |RefreshCommands|
    ensures k < |RefreshCommands| ==> k < c.issued
    ensures c.outcome.Ok? ==> c.issued == |RefreshCommands| && |c.outcome.value| == |RefreshCommands|
    ensures c.outcome.Ok? ==> c.outcome.value[..k] == readings
    ensures c.outcome.Ok? && (forall i :: 0 <= i < k ==> Expected(i, readings[i])) ==>
      forall i :: 0 <= i < |RefreshCommands| ==> Expected(i, c.outcome.value[i])
    decreases |RefreshCommands| - k
  {
    if k == |RefreshCommands| then
      Cycle(Ok(readings), q, k)
    else
      var f := ReadFrame(q);
      var d := if f.result.Ok? then DecodeReading(k, f.result.value, parseFloat) else Err(f.result.error);
      if d.Err? then
        Cycle(Err(d.error), f.rest, k + 1)
      else
        var c := Collect(k + 1, f.rest, readings + [d.value], parseFloat);
        assert c.outcome.Ok? ==> c.outcome.value[..k] == (readings + [d.value])[..k] == readings;
        c
  }

  /** The snapshot built from the six readings. */
  function Snapshot(readings: seq<Reading>, now: int, users: nat): (s: TunerStatus)
    requires |readings| == |RefreshCommands|
    requires forall i :: 0 <= i < |RefreshCommands| ==> Expected(i, readings[i])
    ensures s.mode in TunerModes
  {
    assert Expected(0, readings[0]) && Expected(1, readings[1]) && Expected(2, readings[2]);
    assert Expected(3, readings[3]) && Expected(4, readings[4]) && Expected(5, readings[5]);
    TunerStatus(now, readings[0].text, readings[1].flag, readings[2].ratio,
                ModeNames[readings[3].text], readings[4].fault, users, readings[5].flag)
  }

  /** update_tuner_status as a function of what the device will send: the queries in order
      RV, PS, VSWR, MD, FLT, TP, stopping at the first that fails. */
  function Refresh(q: Queue, now: int, users: nat, parseFloat: string -> Option<real>)
    : (c: Cycle<TunerStatus>)
    ensures 1 <= c.issued <= |RefreshCommands|
    ensures c.outcome.Ok? ==> c.issued == |RefreshCommands|
    ensures c.outcome.Ok? ==>
      && c.outcome.value.time == now
      && c.outcome.value.usersConnected == users
      && c.outcome.value.mode in TunerModes
  {
    Finish(Collect(0, q, [], parseFloat), now, users)
  }

  /** The snapshot once all six readings are in, or the error that stopped the queries. */
  function Finish(g: Cycle<seq<Reading>>, now: int, users: nat): Cycle<TunerStatus>
    requires g.outcome.Ok? ==> |g.outcome.value| == |RefreshCommands|
    requires g.outcome.Ok? ==>
      forall i :: 0 <= i < |RefreshCommands| ==> Expected(i, g.outcome.value[i])
  {
    if g.outcome.Err? then Cycle(Err(g.outcome.error), g.rest, g.issued)
    else Cycle(Ok(Snapshot(g.outcome.value, now, users)), g.rest, g.issued)
  }

  /** A malformed fault response aborts the refresh after five queries; the tune poll is
      never written. */
  lemma MalformedFaultAborts(revision: string, power: string, vswr: string, mode: string,
                             fault: string, later: Queue, now: int, users: nat,
                             parseFloat: string -> Option<real>)
    requires Terminator !in revision && Terminator !in power && Terminator !in vswr
    requires Terminator !in mode && Terminator !in fault
    requires Powered(power).Ok? && VswrDecoder(parseFloat)(vswr).Ok? && ModeOf(mode).Ok?
    requires DecodeFault(fault).Err?
    ensures Refresh([Frame(revision), Frame(power), Frame(vswr), Frame(mode), Frame(fault)] + later,
                    now, users, parseFloat)
            == Cycle(Err(NotAnInteger), later, 5)
  {
    var q4: Queue := [Frame(fault)] + later;
    var q3: Queue := [Frame(mode)] + q4;
    var q2: Queue := [Frame(vswr)] + q3;
    var q1: Queue := [Frame(power)] + q2;
    var q0: Queue := [Frame(revision)] + q1;
    assert DecodeReading(1, power, parseFloat).Ok? && DecodeReading(2, vswr, parseFloat).Ok?;
    assert DecodeReading(3, mode, parseFloat).Ok?;
    assert DecodeReading(4, fault, parseFloat) == Err(NotAnInteger);
    FiveFrames(Frame(revision), Frame(power), Frame(vswr), Frame(mode), Frame(fault), later);
    CollectTwoSteps(0, revision, power, q2, [], parseFloat);
    var a2 := [] + [DecodeReading(0, revision, parseFloat).value]
                 + [DecodeReading(1, power, parseFloat).value];
    CollectTwoSteps(2, vswr, mode, q4, a2, parseFloat);
    var a4 := a2 + [DecodeReading(2, vswr, parseFloat).value]
                 + [DecodeReading(3, mode, parseFloat).value];
    CollectFails(4, fault, later, a4, parseFloat);
  }

  /** One refresh query answered by a whole frame: its reading is decoded from the frame's
      text, and the rest of the run reads what follows the frame. */
  lemma CollectStep(k: nat, response: string, later: Queue, readings: seq<Reading>,
                    parseFloat: string -> Option<real>)
    requires k < |RefreshCommands| && |readings| == k && Terminator !in response
    requires DecodeReading(k, response, parseFloat).Ok?
    ensures Collect(k, [Frame(response)] + later, readings, parseFloat) ==
      Collect(k + 1, later, readings + [DecodeReading(k, response, parseFloat).value], parseFloat)
  {
    FrameRoundTrip(response, later);
  }

  /** Six replies that all decode give a snapshot of exactly the decoded values, with the
      mode shown by its client name, and leave the later chunks unread. */
  lemma RefreshSucceeds(revision: string, power: string, vswr: string, mode: string,
                        fault: string, tuning: string, later: Queue, now: int, users: nat,
                        parseFloat: string -> Option<real>)
    requires Terminator !in revision && Terminator !in power && Terminator !in vswr
    requires Terminator !in mode && Terminator !in fault && Terminator !in tuning
    requires Powered(power).Ok? && VswrDecoder(parseFloat)(vswr).Ok? && ModeOf(mode).Ok?
    requires DecodeFault(fault).Ok?
    ensures Refresh([Frame(revision), Frame(power), Frame(vswr), Frame(mode), Frame(fault),
                     Frame(tuning)] + later, now, users, parseFloat)
            == Cycle(Ok(TunerStatus(now, Revision(revision).value, Powered(power).value,
                                    VswrDecoder(parseFloat)(vswr).value, ModeNames[mode],
                                    DecodeFault(fault).value, users, tuning == "TP1")),
                     later, 6)
  {
    assert DecodeReading(1, power, parseFloat).Ok? && DecodeReading(2, vswr, parseFloat).Ok?;
    assert DecodeReading(3, mode, parseFloat).Ok? && DecodeReading(4, fault, parseFloat).Ok?;
    CollectSucceeds(revision, power, vswr, mode, fault, tuning, later, parseFloat);
    assert DecodeReading(0, revision, parseFloat).value == Text(Revision(revision).value);
    assert DecodeReading(1, power, parseFloat).value == Flag(Powered(power).value);
    assert DecodeReading(2, vswr, parseFloat).value == Ratio(VswrDecoder(parseFloat)(vswr).value);
    assert DecodeReading(3, mode, parseFloat).value == Text(mode);
    assert DecodeReading(4, fault, parseFloat).value == Code(DecodeFault(fault).value);
    assert DecodeReading(5, tuning, parseFloat).value == Flag(tuning == "TP1");
  }

  /** Six whole frames that all decode complete the run of queries with their six readings. */
  lemma CollectSucceeds(revision: string, power: string, vswr: string, mode: string,
                        fault: string, tuning: string, later: Queue,
                        parseFloat: string -> Option<real>)
    requires Terminator !in revision && Terminator !in power && Terminator !in vswr
    requires Terminator !in mode && Terminator !in fault && Terminator !in tuning
    requires DecodeReading(1, power, parseFloat).Ok? && DecodeReading(2, vswr, parseFloat).Ok?
    requires DecodeReading(3, mode, parseFloat).Ok? && DecodeReading(4, fault, parseFloat).Ok?
    ensures Collect(0, [Frame(revision), Frame(power), Frame(vswr), Frame(mode), Frame(fault),
                        Frame(tuning)] + later, [], parseFloat)
            == Cycle(Ok([DecodeReading(0, revision, parseFloat).value,
                         DecodeReading(1, power, parseFloat).value,
                         DecodeReading(2, vswr, parseFloat).value,
                         DecodeReading(3, mode, parseFloat).value,
                         DecodeReading(4, fault, parseFloat).value,
                         DecodeReading(5, tuning, parseFloat).value]), later, 6)
  {
    var q4: Queue := [Frame(fault)] + ([Frame(tuning)] + later);
    var q2: Queue := [Frame(vswr)] + ([Frame(mode)] + q4);
    SixFrames(Frame(revision), Frame(power), Frame(vswr), Frame(mode), Frame(fault),
              Frame(tuning), later);
    var r0 := DecodeReading(0, revision, parseFloat).value;
    var r1 := DecodeReading(1, power, parseFloat).value;
    var r2 := DecodeReading(2, vswr, parseFloat).value;
    var r3 := DecodeReading(3, mode, parseFloat).value;
    CollectTwoSteps(0, revision, power, q2, [], parseFloat);
    CollectTwoSteps(2, vswr, mode, q4, [] + [r0] + [r1], parseFloat);
    CollectTwoSteps(4, fault, tuning, later, [] + [r0] + [r1] + [r2] + [r3], parseFloat);
    SixReadings(r0, r1, r2, r3, DecodeReading(4, fault, parseFloat).value,
                DecodeReading(5, tuning, parseFloat).value);
  }

  /** Six readings appended one at a time form the six-element sequence. */
  lemma SixReadings(r0: Reading, r1: Reading, r2: Reading, r3: Reading, r4: Reading, r5: Reading)
    ensures [] + [r0] + [r1] + [r2] + [r3] + [r4] + [r5] == [r0, r1, r2, r3, r4, r5]
  {
  }

  /** A queue of six frames and more, taken apart two frames at a time. */
  lemma SixFrames(a: Chunk, b: Chunk, c: Chunk, d: Chunk, e: Chunk, f: Chunk, later: Queue)
    ensures [a, b, c, d, e, f] + later == [a] + ([b] + ([c] + ([d] + ([e] + ([f] + later)))))
  {
  }

  /** A queue of five frames and more, taken apart one frame at a time. */
  lemma FiveFrames(a: Chunk, b: Chunk, c: Chunk, d: Chunk, e: Chunk, later: Queue)
    ensures [a, b, c, d, e] + later == [a] + ([b] + ([c] + ([d] + ([e] + later))))
  {
  }

  /** Two refresh queries in a row answered by whole frames that decode. */
  lemma CollectTwoSteps(k: nat, first: string, second: string, later: Queue,
                        readings: seq<Reading>, parseFloat: string -> Option<real>)
    requires k + 1 < |RefreshCommands| && |readings| == k
    requires Terminator !in first && Terminator !in second
    requires DecodeReading(k, first, parseFloat).Ok?
    requires DecodeReading(k + 1, second, parseFloat).Ok?
    ensures Collect(k, [Frame(first)] + ([Frame(second)] + later), readings, parseFloat) ==
      Collect(k + 2, later, readings + [DecodeReading(k, first, parseFloat).value]
                                     + [DecodeReading(k + 1, second, parseFloat).value], parseFloat)
  {
    CollectStep(k, first, [Frame(second)] + later, readings, parseFloat);
    CollectStep(k + 1, second, later, readings + [DecodeReading(k, first, parseFloat).value],
                parseFloat);
  }

  /** One refresh query answered by a whole frame that does not decode: the run stops there,
      with the query counted as written. */
  lemma CollectFails(k: nat, response: string, later: Queue, readings: seq<Reading>,
                     parseFloat: string -> Option<real>)
    requires k < |RefreshCommands| && |readings| == k && Terminator !in response
    requires DecodeReading(k, response, parseFloat).Err?
    ensures Collect(k, [Frame(response)] + later, readings, parseFloat) ==
      Cycle(Err(DecodeReading(k, response, parseFloat).error), later, k + 1)
  {
    FrameRoundTrip(response, later);
  }

  // ---------------------------------------------------------------------------------------
  // Client messages

  /** A decoded client message: the optional `tune` and `mode` fields. */
  datatype Message = Message(tune: Option<bool>, mode: Option<string>)

  /** What arrives on a session: a payload json.loads refuses, or a decoded message. */
  datatype Inbound = Malformed | Decoded(message: Message)

  /** The outcome of handling messages: whether no exception was raised, the published
      status, the chunks left unread and every write, in order. */
  datatype Effect = Effect(ok: bool, status: Option<TunerStatus>, rest: Queue, sent: seq<string>)

  /** A command written, then one refresh. */
  function AfterCommand(command: string, q: Queue, st: Option<TunerStatus>, now: int, users: nat,
                        parseFloat: string -> Option<real>): (e: Effect)
    ensures !e.ok ==> e.status == st
  {
    var c := Refresh(q, now, users, parseFloat);
    Effect(c.outcome.Ok?, if c.outcome.Ok? then Some(c.outcome.value) else st, c.rest,
           [Frame(command)] + RefreshCommands[..c.issued])
  }

  /** `tune` true starts a full-search tune, false cancels one (reading its response); either
      is followed by a refresh. */
  function TuneEffect(start: bool, q: Queue, st: Option<TunerStatus>, now: int, users: nat,
                      parseFloat: string -> Option<real>): Effect
  {
    if start then
      AfterCommand("FT", q, st, now, users, parseFloat)
    else
      var f := ReadFrame(q);
      if f.result.Err? then Effect(false, st, f.rest, [Frame("CT")])
      else AfterCommand("CT", f.rest, st, now, users, parseFloat)
  }

  /** One message: the tune field first, then a mode field naming a known mode. An exception
      in the first part skips the second. */
  function Handle(msg: Message, q: Queue, st: Option<TunerStatus>, now: int, users: nat,
                  parseFloat: string -> Option<real>): Effect
  {
    var t := if msg.tune.Some? then TuneEffect(msg.tune.value, q, st, now, users, parseFloat)
             else Effect(true, st, q, []);
    if t.ok && msg.mode.Some? && msg.mode.value in TunerModes then
      var m := AfterCommand(TunerModes[msg.mode.value], t.rest, t.status, now, users, parseFloat);
      Effect(m.ok, m.status, m.rest, t.sent + m.sent)
    else
      t
  }

  /** A message with neither a tune field nor a known mode touches nothing. */
  lemma UnknownModeSendsNothing(msg: Message, q: Queue, st: Option<TunerStatus>, now: int,
                                users: nat, parseFloat: string -> Option<real>)
    requires msg.tune.None?
    requires msg.mode.None? || msg.mode.value !in TunerModes
    ensures Handle(msg, q, st, now, users, parseFloat) == Effect(true, st, q, [])
  {
  }

  /** A command whose refresh succeeds is followed by all six refresh queries. */
  lemma AfterCommandComplete(command: string, q: Queue, st: Option<TunerStatus>, now: int,
                             users: nat, parseFloat: string -> Option<real>)
    ensures var e := AfterCommand(command, q, st, now, users, parseFloat);
      e.ok ==> e.sent == [Frame(command)] + RefreshCommands
  {
  }

  /** A tune request that succeeds writes its own command and then the six queries. */
  lemma TuneComplete(start: bool, q: Queue, st: Option<TunerStatus>, now: int, users: nat,
                     parseFloat: string -> Option<real>)
    ensures var t := TuneEffect(start, q, st, now, users, parseFloat);
      t.ok ==> t.sent == [Frame(if start then "FT" else "CT")] + RefreshCommands
  {
    if start {
      AfterCommandComplete("FT", q, st, now, users, parseFloat);
    } else {
      AfterCommandComplete("CT", ReadFrame(q).rest, st, now, users, parseFloat);
    }
  }

  /** With both fields present and no exception, the tune command and its refresh come
      before the mode command and its refresh. */
  lemma TuneBeforeMode(msg: Message, q: Queue, st: Option<TunerStatus>, now: int, users: nat,
                       parseFloat: string -> Option<real>)
    requires msg.tune.Some? && msg.mode.Some? && msg.mode.value in TunerModes
    ensures var e := Handle(msg, q, st, now, users, parseFloat);
      e.ok ==> e.sent == [Frame(if msg.tune.value then "FT" else "CT")] + RefreshCommands +
                         [Frame(TunerModes[msg.mode.value])] + RefreshCommands
  {
    var t := TuneEffect(msg.tune.value, q, st, now, users, parseFloat);
    if t.ok {
      var code := TunerModes[msg.mode.value];
      TuneComplete(msg.tune.value, q, st, now, users, parseFloat);
      AfterCommandComplete(code, t.rest, t.status, now, users, parseFloat);
      AppendAssociates([Frame(if msg.tune.value then "FT" else "CT")] + RefreshCommands,
                       [Frame(code)], RefreshCommands);
    }
  }

  /** Any message carrying a tune field writes FT or CT before anything else. */
  lemma TuneCommandFirst(msg: Message, q: Queue, st: Option<TunerStatus>, now: int, users: nat,
                         parseFloat: string -> Option<real>)
    requires msg.tune.Some?
    ensures var e := Handle(msg, q, st, now, users, parseFloat);
      e.sent != [] && e.sent[0] == Frame(if msg.tune.value then "FT" else "CT")
  {
  }

  /** The messages of one session, in order, until the first that raises. */
  function Converse(inbox: seq<Inbound>, q: Queue, st: Option<TunerStatus>, now: int, users: nat,
                    parseFloat: string -> Option<real>): Effect
    decreases |inbox|
  {
    if inbox == [] then
      Effect(true, st, q, [])
    else if inbox[0].Malformed? then
      Effect(false, st, q, [])
    else
      var e := Handle(inbox[0].message, q, st, now, users, parseFloat);
      if !e.ok then e
      else
        var r := Converse(inbox[1..], e.rest, e.status, now, users, parseFloat);
        Effect(r.ok, r.status, r.rest, e.sent + r.sent)
  }

  /** A payload that does not decode ends the session's receive loop: nothing after it
      reaches the tuner. */
  lemma {:induction false} MalformedEndsConversation(inbox: seq<Inbound>, k: nat, q: Queue,
                                                     st: Option<TunerStatus>, now: int, users: nat,
                                                     parseFloat: string -> Option<real>)
    requires k < |inbox| && inbox[k].Malformed?
    ensures var whole := Converse(inbox, q, st, now, users, parseFloat);
            var before := Converse(inbox[..k], q, st, now, users, parseFloat);
            !whole.ok && whole.status == before.status && whole.rest == before.rest &&
            whole.sent == before.sent
  {
    if k > 0 && inbox[0].Decoded? {
      var e := Handle(inbox[0].message, q, st, now, users, parseFloat);
      assert inbox[..k][0] == inbox[0];
      if e.ok {
        assert inbox[..k][1..] == inbox[1..][..k - 1];
        MalformedEndsConversation(inbox[1..], k - 1, e.rest, e.status, now, users, parseFloat);
      }
    }
  }

  /** The write log after each of the refresh queries, two at a time. */
  lemma QueriesLogged(log: seq<string>)
    ensures log + [Frame("RV")] == log + RefreshCommands[..1]
    ensures log + [Frame("RV")] + [Frame("PS")] == log + RefreshCommands[..2]
    ensures log + [Frame("VSWR")] == log + RefreshCommands[2..3]
    ensures log + [Frame("VSWR")] + [Frame("MD")] == log + RefreshCommands[2..4]
    ensures log + [Frame("FLT")] == log + RefreshCommands[4..5]
    ensures log + [Frame("FLT")] + [Frame("TP")] == log + RefreshCommands[4..6]
  {
  }

  /** Consecutive runs of refresh queries make one run. */
  lemma LogJoins(log: seq<string>, k: nat, m: nat, n: nat)
    requires k <= m <= n <= |RefreshCommands|
    ensures log + RefreshCommands[k..m] + RefreshCommands[m..n] == log + RefreshCommands[k..n]
    ensures k == 0 ==> log + RefreshCommands[..m] + RefreshCommands[m..n] == log + RefreshCommands[..n]
  {
    assert RefreshCommands[k..m] + RefreshCommands[m..n] == RefreshCommands[k..n];
    assert RefreshCommands[..m] + RefreshCommands[m..n] == RefreshCommands[..n];
  }

  /** The queries of update_tuner_status on `tuner`, stopping at the first that raises: RV
      and PS here, the rest in the two methods below. */
  method Poll(tuner: Kat500.Tuner, connected: map<SessionId, bool>, now: int,
              parseFloat: string -> Option<real>) returns (r: Result<TunerStatus>, ghost issued: nat)
    modifies tuner.port
    ensures tuner.port.isOpen == old(tuner.port.isOpen)
    ensures Cycle(r, tuner.port.incoming, issued) ==
      Refresh(old(tuner.port.incoming), now, |LiveSessions(connected)|, parseFloat)
    ensures tuner.port.sent == old(tuner.port.sent) + RefreshCommands[..issued]
  {
    ghost var log := tuner.port.sent;
    QueriesLogged(log);
    ghost var g := Collect(0, tuner.port.incoming, [], parseFloat);
    var revision := tuner.GetFirmwareRevision();
    if revision.Err? {
      return Err(revision.error), 1;
    }
    assert g == Collect(1, tuner.port.incoming, [] + [Text(revision.value)], parseFloat);
    var powered := tuner.GetPowered();
    if powered.Err? {
      return Err(powered.error), 2;
    }
    ghost var readings := [] + [Text(revision.value)] + [Flag(powered.value)];
    assert g == Collect(2, tuner.port.incoming, readings, parseFloat);
    r, issued := PollMiddle(tuner, connected, now, parseFloat, revision.value, powered.value, readings);
    LogJoins(log, 0, 2, issued);
  }

  /** VSWR and MD, once revision and power are in. */
  method PollMiddle(tuner: Kat500.Tuner, connected: map<SessionId, bool>, now: int,
                    parseFloat: string -> Option<real>, revision: string, powered: bool,
                    ghost readings: seq<Reading>) returns (r: Result<TunerStatus>, ghost issued: nat)
    requires readings == [Text(revision), Flag(powered)]
    modifies tuner.port
    ensures tuner.port.isOpen == old(tuner.port.isOpen)
    ensures Cycle(r, tuner.port.incoming, issued) ==
      Finish(Collect(2, old(tuner.port.incoming), readings, parseFloat), now, |LiveSessions(connected)|)
    ensures 2 <= issued <= |RefreshCommands|
    ensures tuner.port.sent == old(tuner.port.sent) + RefreshCommands[2..issued]
  {
    ghost var log := tuner.port.sent;
    QueriesLogged(log);
    ghost var g := Collect(2, tuner.port.incoming, readings, parseFloat);
    var vswr := tuner.GetVswr(parseFloat);
    if vswr.Err? {
      return Err(vswr.error), 3;
    }
    assert g == Collect(3, tuner.port.incoming, readings + [Ratio(vswr.value)], parseFloat);
    var mode := tuner.GetMode();
    if mode.Err? {
      return Err(mode.error), 4;
    }
    ghost var more := readings + [Ratio(vswr.value)] + [Text(mode.value)];
    assert g == Collect(4, tuner.port.incoming, more, parseFloat);
    r, issued := PollLast(tuner, connected, now, parseFloat, revision, powered, vswr.value,
                          mode.value, more);
    LogJoins(log, 2, 4, issued);
  }

  /** FLT and TP, once revision, power, VSWR and mode are in; the live sessions of
      `connected` are counted between the two queries. */
  method PollLast(tuner: Kat500.Tuner, connected: map<SessionId, bool>, now: int,
                  parseFloat: string -> Option<real>, revision: string, powered: bool, vswr: real,
                  mode: string, ghost readings: seq<Reading>)
    returns (r: Result<TunerStatus>, ghost issued: nat)
    requires mode in Modes
    requires readings == [Text(revision), Flag(powered), Ratio(vswr), Text(mode)]
    modifies tuner.port
    ensures tuner.port.isOpen == old(tuner.port.isOpen)
    ensures Cycle(r, tuner.port.incoming, issued) ==
      Finish(Collect(4, old(tuner.port.incoming), readings, parseFloat), now, |LiveSessions(connected)|)
    ensures 4 <= issued <= |RefreshCommands|
    ensures tuner.port.sent == old(tuner.port.sent) + RefreshCommands[4..issued]
  {
    ghost var log := tuner.port.sent;
    QueriesLogged(log);
    ghost var g := Collect(4, tuner.port.incoming, readings, parseFloat);
    var fault := tuner.GetFault();
    if fault.Err? {
      return Err(fault.error), 5;
    }
    assert g == Collect(5, tuner.port.incoming, readings + [Code(fault.value)], parseFloat);
    var users := CountLive(connected);
    var tuning := tuner.GetTuning();
    if tuning.Err? {
      return Err(tuning.error), 6;
    }
    ghost var all := readings + [Code(fault.value)] + [Flag(tuning.value)];
    assert g == Cycle(Ok(all), tuner.port.incoming, 6);
    r := Ok(TunerStatus(now, revision, powered, vswr, ModeNames[mode], fault.value, users,
                        tuning.value));
    issued := 6;
  }

  /** Writes logged in two steps are the writes of both, in order. */
  lemma AppendAssociates(log: seq<string>, first: seq<string>, second: seq<string>)
    ensures log + first + second == log + (first + second)
  {
  }

  // ---------------------------------------------------------------------------------------
  // The server state

  class Server {
    const tuner: Kat500.Tuner
    /** The last published snapshot; None while it is still the initial empty object. */
    var status: Option<TunerStatus>
    /** The connected sessions, each with its `closed` flag. */
    var connected: map<SessionId, bool>

    constructor (tuner: Kat500.Tuner)
      ensures this.tuner == tuner && status == None && connected == map[]
    {
      this.tuner := tuner;
      status := None;
      connected := map[];
    }

    /** A new session joins the set; adding one already present changes nothing. */
    method Register(id: SessionId)
      modifies this
      ensures connected == if id in old(connected) then old(connected) else old(connected)[id := false]
      ensures status == old(status)
    {
      if id !in connected {
        connected := connected[id := false];
      }
    }

    /** A session leaves the set when its handler ends. */
    method Unregister(id: SessionId)
      requires id in connected
      modifies this
      ensures connected == old(connected) - {id}
      ensures status == old(status)
    {
      connected := connected - {id};
    }

    /** update_tuner_status: the snapshot is published only after every query succeeded;
        otherwise the previous one stays. */
    method UpdateTunerStatus(now: int, parseFloat: string -> Option<real>) returns (r: Result<TunerStatus>)
      modifies this, tuner.port
      ensures tuner.port.isOpen == old(tuner.port.isOpen)
      ensures var c := Refresh(old(tuner.port.incoming), now, |LiveSessions(old(connected))|, parseFloat);
        && r == c.outcome
        && status == (if c.outcome.Ok? then Some(c.outcome.value) else old(status))
        && tuner.port.incoming == c.rest
        && tuner.port.sent == old(tuner.port.sent) + RefreshCommands[..c.issued]
      ensures connected == old(connected)
    {
      ghost var issued;
      r, issued := Poll(tuner, connected, now, parseFloat);
      if r.Ok? {
        status := Some(r.value);
      }
    }

    /** The tune field: FT or CT, then a refresh; false when either raised. */
    method Tune(start: bool, now: int, parseFloat: string -> Option<real>) returns (ok: bool)
      modifies this, tuner.port
      ensures tuner.port.isOpen == old(tuner.port.isOpen)
      ensures var e := TuneEffect(start, old(tuner.port.incoming), old(status),
                                  now, |LiveSessions(old(connected))|, parseFloat);
        && ok == e.ok
        && status == e.status
        && tuner.port.incoming == e.rest
        && tuner.port.sent == old(tuner.port.sent) + e.sent
      ensures connected == old(connected)
    {
      ghost var log := tuner.port.sent;
      if start {
        tuner.SetFullSearchTune();
      } else {
        var cancelled := tuner.CancelFullSearchTune();
        if cancelled.Err? {
          return false;
        }
      }
      ghost var c := Refresh(tuner.port.incoming, now, |LiveSessions(connected)|, parseFloat);
      var refreshed := UpdateTunerStatus(now, parseFloat);
      AppendAssociates(log, [Frame(if start then "FT" else "CT")], RefreshCommands[..c.issued]);
      ok := refreshed.Ok?;
    }

    /** The mode field naming a known mode: set_mode with its code, then a refresh. */
    method SwitchMode(name: string, now: int, parseFloat: string -> Option<real>) returns (ok: bool)
      requires name in TunerModes
      modifies this, tuner.port
      ensures tuner.port.isOpen == old(tuner.port.isOpen)
      ensures var e := AfterCommand(TunerModes[name], old(tuner.port.incoming), old(status),
                                    now, |LiveSessions(old(connected))|, parseFloat);
        && ok == e.ok
        && status == e.status
        && tuner.port.incoming == e.rest
        && tuner.port.sent == old(tuner.port.sent) + e.sent
      ensures connected == old(connected)
    {
      ghost var log := tuner.port.sent;
      var accepted := tuner.SetMode(TunerModes[name]);
      ghost var c := Refresh(tuner.port.incoming, now, |LiveSessions(connected)|, parseFloat);
      var refreshed := UpdateTunerStatus(now, parseFloat);
      AppendAssociates(log, [Frame(TunerModes[name])], RefreshCommands[..c.issued]);
      ok := refreshed.Ok?;
    }

    /** The body of the receive loop for one decoded message; false when it raised. */
    method HandleMessage(msg: Message, now: int, parseFloat: string -> Option<real>) returns (ok: bool)
      modifies this, tuner.port
      ensures tuner.port.isOpen == old(tuner.port.isOpen)
      ensures var e := Handle(msg, old(tuner.port.incoming), old(status),
                              now, |LiveSessions(old(connected))|, parseFloat);
        && ok == e.ok
        && status == e.status
        && tuner.port.incoming == e.rest
        && tuner.port.sent == old(tuner.port.sent) + e.sent
      ensures connected == old(connected)
    {
      ghost var sent := tuner.port.sent;
      ghost var users := |LiveSessions(connected)|;
      ghost var t := if msg.tune.Some?
        then TuneEffect(msg.tune.value, tuner.port.incoming, status, now, users, parseFloat)
        else Effect(true, status, tuner.port.incoming, []);
      ok := true;
      if msg.tune.Some? {
        ok := Tune(msg.tune.value, now, parseFloat);
      }
      assert ok == t.ok && status == t.status && tuner.port.incoming == t.rest;
      assert tuner.port.sent == sent + t.sent;
      if ok && msg.mode.Some? && msg.mode.value in TunerModes {
        ghost var m := AfterCommand(TunerModes[msg.mode.value], t.rest, t.status, now, users, parseFloat);
        ok := SwitchMode(msg.mode.value, now, parseFloat);
        AppendAssociates(sent, t.sent, m.sent);
      }
    }

    /** receive_from_websocket: messages are handled in arrival order until one raises; a
        payload that does not decode raises too. */
    method ReceiveFromWebsocket(inbox: seq<Inbound>, now: int, parseFloat: string -> Option<real>)
      modifies this, tuner.port
      ensures tuner.port.isOpen == old(tuner.port.isOpen)
      ensures var e := Converse(inbox, old(tuner.port.incoming), old(status),
                                now, |LiveSessions(old(connected))|, parseFloat);
        && status == e.status
        && tuner.port.incoming == e.rest
        && tuner.port.sent == old(tuner.port.sent) + e.sent
      ensures connected == old(connected)
    {
      ghost var users := |LiveSessions(connected)|;
      ghost var whole := Converse(inbox, tuner.port.incoming, status, now, users, parseFloat);
      ghost var done: seq<string> := [];
      var i := 0;
      while i < |inbox|
        invariant 0 <= i <= |inbox|
        invariant connected == old(connected)
        invariant tuner.port.isOpen == old(tuner.port.isOpen)
        invariant tuner.port.sent == old(tuner.port.sent) + done
        invariant var e := Converse(inbox[i..], tuner.port.incoming, status, now, users, parseFloat);
          whole == Effect(e.ok, e.status, e.rest, done + e.sent)
      {
        if inbox[i].Malformed? {
          assert done + [] == done;
          break;
        }
        ghost var e := Handle(inbox[i].message, tuner.port.incoming, status, now, users, parseFloat);
        var ok := HandleMessage(inbox[i].message, now, parseFloat);
        AppendAssociates(old(tuner.port.sent), done, e.sent);
        if !ok {
          break;
        }
        assert inbox[i..][1..] == inbox[i + 1..];
        ghost var r := Converse(inbox[i + 1..], tuner.port.incoming, status, now, users, parseFloat);
        AppendAssociates(done, e.sent, r.sent);
        done := done + e.sent;
        i := i + 1;
      }
      assert done + [] == done;
    }
  }
}
