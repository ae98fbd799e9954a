/** The KAT500 command vocabulary shared by both driver versions: baud rates, mode codes,
    the identification string, the fault table, the response decoders and the rule that
    picks the baud rate during discovery. */
module Protocol {
  import opened Results
  import opened Text
  import opened Framing

  /** BR0 .. BR3, in the order discovery tries them. */
  const BaudRates: seq<int> := [4800, 9600, 19200, 38400]

  const ModeBypass: string := "MDB"
  const ModeManual: string := "MDM"
  const ModeAuto: string := "MDA"
  const Modes: seq<string> := [ModeBypass, ModeManual, ModeAuto]

  /** The answer to 'I;' that identifies a KAT500. */
  const Identity: string := "KAT500"

  /** The bare terminator written five times per candidate rate during discovery. */
  const Probe: string := ";"
  const ProbeCount: nat := 5

  /** What a port opened during discovery has been sent once probing at its rate is over. */
  const ProbeWrites: seq<string> := [Probe, Probe, Probe, Probe, Probe]

  // ---------------------------------------------------------------------------------------
  // Baud discovery

  /** Index of the first rate whose port had bytes waiting after the probes, or |rates|
      when none had. `replyAt(rate)` is what a port opened at `rate` finds waiting. */
  function FirstAnswering(rates: seq<int>, replyAt: int -> Queue): (k: nat)
    ensures k <= |rates|
    ensures k < |rates| ==> replyAt(rates[k]) != []
    ensures forall j :: 0 <= j < k ==> replyAt(rates[j]) == []
  {
    if rates == [] then 0
    else if replyAt(rates[0]) != [] then 0
    else 1 + FirstAnswering(rates[1..], replyAt)
  }

  /** The baud rate discovery settles on, or the error raised when no rate answers. */
  function Discovered(replyAt: int -> Queue): Result<int> {
    var k := FirstAnswering(BaudRates, replyAt);
    if k < |BaudRates| then Ok(BaudRates[k]) else Err(NoResponse)
  }

  /** A device that answers at exactly one rate is found at that rate; slower rates are
      tried first and faster ones never. */
  lemma DiscoversOnlyAnsweringRate(replyAt: int -> Queue, k: nat)
    requires k < |BaudRates|
    requires forall j :: 0 <= j < |BaudRates| ==> (replyAt(BaudRates[j]) != [] <==> j == k)
    ensures Discovered(replyAt) == Ok(BaudRates[k])
    ensures FirstAnswering(BaudRates, replyAt) == k
  {
  }

  /** Discovery fails exactly when no candidate rate answers. */
  lemma DiscoveryFailsIffSilent(replyAt: int -> Queue)
    ensures Discovered(replyAt) == Err(NoResponse) <==>
      forall j :: 0 <= j < |BaudRates| ==> replyAt(BaudRates[j]) == []
  {
  }

  /** The exchange on the new port that ends the constructor: 'I;' must be answered by the
      KAT500 identity, then 'RV;' and 'SN;' must each be answered and decoded. `script` is
      what the device sends on that port. */
  function Handshake(script: Queue): Result<()> {
    var id := Ask(script, Identified);
    if id.result.Err? then Err(id.result.error)
    else if !id.result.value then Err(NotKat500)
    else
      var revision := Ask(id.rest, Revision);
      if revision.result.Err? then Err(revision.result.error)
      else
        var serialNumber := Ask(revision.rest, SerialNumber);
        if serialNumber.result.Err? then Err(serialNumber.result.error) else Ok(())
  }

  /** A device that identifies itself and answers RV with any version and SN with a number
      completes the handshake. */
  lemma HandshakeAccepts(version: string, serialNumber: int, later: Queue)
    requires Terminator !in version
    ensures Handshake([Frame(Identity), Frame("RV" + version), Frame("SN " + IntToString(serialNumber))]
                      + later) == Ok(())
  {
    var q2: Queue := [Frame("SN " + IntToString(serialNumber))] + later;
    var q1: Queue := [Frame("RV" + version)] + q2;
    assert [Frame(Identity), Frame("RV" + version), Frame("SN " + IntToString(serialNumber))] + later
      == [Frame(Identity)] + q1;
    FrameRoundTrip(Identity, q1);
    assert Terminator !in "RV" + version by {
      assert forall k :: 0 <= k < |"RV" + version| ==> ("RV" + version)[k] != Terminator by {
        forall k | 0 <= k < |"RV" + version| ensures ("RV" + version)[k] != Terminator {
          if k >= 2 { assert ("RV" + version)[k] == version[k - 2]; }
        }
      }
    }
    FrameRoundTrip("RV" + version, q2);
    assert Terminator !in "SN " + IntToString(serialNumber) by {
      var t := "SN " + IntToString(serialNumber);
      forall k | 0 <= k < |t| ensures t[k] != Terminator {
        if k >= 3 { assert t[k] == IntToString(serialNumber)[k - 3]; }
      }
    }
    FrameRoundTrip("SN " + IntToString(serialNumber), later);
    SerialNumberRoundTrip(serialNumber);
  }

  // ---------------------------------------------------------------------------------------
  // Response decoders, one per query

  /** identify: the response must be exactly KAT500. */
  function Identified(response: string): Result<bool> {
    Ok(response == Identity)
  }

  /** get_firmware_revision: every "RV" removed. */
  function Revision(response: string): Result<string> {
    Ok(RemoveAll(response, "RV"))
  }

  /** get_serial_number: every "SN " removed, the rest parsed as an integer. */
  function SerialNumber(response: string): Result<int> {
    match ParseInt(RemoveAll(response, "SN "))
    case Some(n) => Ok(n)
    case None => Err(NotAnInteger)
  }

  /** get_vswr: every "VSWR " removed, the rest handed to the float parser. */
  function VswrDecoder(parseFloat: string -> Option<real>): string -> Result<real> {
    response =>
      match parseFloat(RemoveAll(response, "VSWR "))
      case Some(x) => Ok(x)
      case None => Err(NotAFloat)
  }

  /** get_powered: PS0 anywhere means off, even beside PS1; otherwise PS1 anywhere means on;
      otherwise the response is refused. */
  function Powered(response: string): (r: Result<bool>)
    ensures r == Ok(false) <==> exists i :: OccursAt(response, "PS0", i)
    ensures r == Ok(true) <==>
      (forall i :: !OccursAt(response, "PS0", i)) && exists i :: OccursAt(response, "PS1", i)
    ensures r.Err? <==> r == Err(NoPowerStatus)
  {
    if Contains(response, "PS0") then Ok(false)
    else if Contains(response, "PS1") then Ok(true)
    else Err(NoPowerStatus)
  }

  /** The command text of set_power_on / set_power_off. */
  function PowerCommand(on: bool): string {
    if on then "PS1" else "PS0"
  }

  /** A power response worded like the set-power command reads back as that power state. */
  lemma PowerCommandReadsBack(on: bool)
    ensures Powered(PowerCommand(on)) == Ok(on)
  {
    if on {
      var r := "PS1";
      assert r[..3] == r && r[2] != "PS0"[2];
      assert |r[1..]| < 3;
    }
  }

  /** get_mode: only a mode code is accepted, and it is returned unchanged. */
  function ModeOf(response: string): (r: Result<string>)
    ensures r.Ok? <==> response in Modes
    ensures r.Ok? ==> r.value == response
    ensures r.Err? ==> r.error == NoMode
  {
    if response in Modes then Ok(response) else Err(NoMode)
  }

  /** get_frequency_counter: the whole response parsed as an integer. */
  function FrequencyCounter(response: string): Result<int> {
    match ParseInt(response)
    case Some(n) => Ok(n)
    case None => Err(NotAnInteger)
  }

  /** get_tuning: tuning exactly when the response is TP1. */
  function Tuning(response: string): Result<bool> {
    Ok(response == "TP1")
  }

  /** cancel_full_search_tune and clear_fault: the response is read and thrown away. */
  function Discard(response: string): Result<()> {
    Ok(())
  }

  /** The older driver's set_full_search_tune: the device must echo FT. */
  function TuneEcho(response: string): (r: Result<()>)
    ensures r.Ok? <==> response == "FT"
    ensures r.Err? ==> r.error == TuneFailed
  {
    if response != "FT" then Err(TuneFailed) else Ok(())
  }

  // ---------------------------------------------------------------------------------------
  // Faults

  /** A fault as get_fault reports it: the code, with the name and description the fixed
      table gives it. Codes 0 to 4 are documented; any other integer is reported as unknown
      rather than refused. */
  datatype Fault = Fault(code: int) {
    function Name(): (n: string)
      ensures n == UnknownFault <==> !(0 <= code <= 4)
    {
      if 0 <= code < |KnownFaults| then
        assert |KnownFaults[code].0| != |UnknownFault|;
        KnownFaults[code].0
      else
        UnknownFault
    }

    function Description(): (d: string)
      ensures d == UnknownFaultDescription <==> !(0 <= code <= 4)
    {
      if 0 <= code < |KnownFaults| then
        assert |KnownFaults[code].1| != |UnknownFaultDescription|;
        KnownFaults[code].1
      else
        UnknownFaultDescription
    }
  }

  const UnknownFault: string := "Unknown fault code"

  /** The documented faults, indexed by code: name and description. */
  const KnownFaults: seq<(string, string)> := [
    ("No Fault", "No error"),
    ("No Match", "The ATU tune algorithm was unable to find a satisfactory match"),
    ("Power Above Design Limit for Antenna SWR",
      "Transmitter power exceeds the design limit for the unmatched antenna SWR. This power limit varies with the SWR of the antenna: 600 watts at 10:1 SWR, 1000 watts at 3:1 SWR."),
    ("Power Above Safe Relay Switch Limit",
      "Transmit power, with the amplifier key line relay in the interrupted position, exceeds the ATU???s safe relay switching limit of 100 watts. This might be the result of failing to route the amplifier key line through the KAT500."),
    ("SWR exceeds Amplifier Key Interrupt SWR threshold",
      "The current SWR exceeds the amplifier key interrupt SWR threshold. Fault code 4 is cleared by a subsequent transmission with SWR below 7/8 of this threshold. Fault code 4 is not written into the fault log.")
  ]

  const UnknownFaultDescription: string :=
    "The FLT; command appeared to return a fault code that is not in the KAT500's manual. Check that the serial connection is good."

  /** get_fault: every "FLT" removed, the rest parsed as an integer and reported with its table entry. */
  function DecodeFault(response: string): Result<Fault> {
    match ParseInt(RemoveAll(response, "FLT"))
    case Some(code) => Ok(Fault(code))
    case None => Err(NotAnInteger)
  }

  /** A decimal number carries no letter, so no letter-led pattern occurs in it. */
  lemma NumberHasNoLetters(n: int, p: string)
    requires p != [] && p[0] != '-' && !IsDigit(p[0])
    ensures !Contains(IntToString(n), p)
  {
    NotContainsWithoutFirstChar(IntToString(n), p);
  }

  /** Any integer the device reports after FLT decodes to that code's table entry; only a
      payload that is not an integer is refused. */
  lemma FaultRoundTrip(code: int)
    ensures DecodeFault("FLT" + IntToString(code)) == Ok(Fault(code))
  {
    NumberHasNoLetters(code, "FLT");
    StripPrefix("FLT", IntToString(code));
    ParseIntRoundTrip(code);
  }

  /** An undocumented code such as 99 is reported, not refused. */
  lemma UnknownCodeReported(code: int)
    requires !(0 <= code <= 4)
    ensures DecodeFault("FLT" + IntToString(code)).Ok?
    ensures DecodeFault("FLT" + IntToString(code)).value.code == code
    ensures DecodeFault("FLT" + IntToString(code)).value.Name() == UnknownFault
  {
    FaultRoundTrip(code);
  }

  /** The serial-number response "SN " followed by a number decodes to that number. */
  lemma SerialNumberRoundTrip(n: int)
    ensures SerialNumber("SN " + IntToString(n)) == Ok(n)
  {
    NumberHasNoLetters(n, "SN ");
    StripPrefix("SN ", IntToString(n));
    ParseIntRoundTrip(n);
  }

  /** The frequency counter reads back any integer the device prints. */
  lemma FrequencyCounterRoundTrip(n: int)
    ensures FrequencyCounter(IntToString(n)) == Ok(n)
  {
    ParseIntRoundTrip(n);
  }

  /** A revision response "RV" followed by a version that does not itself contain RV decodes
      to that version: "RV01.75" gives "01.75". */
  lemma RevisionStripsPrefix(version: string)
    requires !Contains(version, "RV")
    ensures Revision("RV" + version) == Ok(version)
  {
    StripPrefix("RV", version);
  }

  /** get_mode accepts exactly what set_mode may send. */
  lemma ModeCodesReadBack(code: string)
    ensures ModeOf(code) == Ok(code) <==> code in Modes
  {
  }
}
