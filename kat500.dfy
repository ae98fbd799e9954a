/** The current KAT500 driver (the one the server uses): a tuner object that owns one serial
    port, writes framed commands and decodes framed responses. */
module Kat500 {
  import opened Results
  import opened Framing
  import opened Protocol
  import opened Serial

  /** The baud-probing loop of the constructor: for each rate in ascending order, open a
      port, write the bare terminator five times and stop at the first port with bytes
      waiting; every port that stayed silent is closed. `replyAt(rate)` is what the device
      leaves waiting on a port opened at `rate`. The ports opened are returned for the
      specification only. */
  method DiscoverBaudRate(replyAt: int -> Queue) returns (r: Result<int>, ghost probed: seq<Port>)
    ensures r == Discovered(replyAt)
    ensures |probed| == if r.Ok? then FirstAnswering(BaudRates, replyAt) + 1 else |BaudRates|
    ensures forall i :: 0 <= i < |probed| ==> fresh(probed[i])
    ensures forall i :: 0 <= i < |probed| ==>
      probed[i].rate == BaudRates[i] && probed[i].sent == ProbeWrites
    ensures forall i :: 0 <= i < |probed| ==> (probed[i].isOpen <==> r.Ok? && i == |probed| - 1)
  {
    ghost var tried: seq<Port> := [];
    var i := 0;
    while i < |BaudRates|
      invariant 0 <= i <= |BaudRates| && |tried| == i
      invariant forall j :: 0 <= j < i ==> replyAt(BaudRates[j]) == []
      invariant forall j :: 0 <= j < i ==> fresh(tried[j])
      invariant forall j :: 0 <= j < i ==>
        tried[j].rate == BaudRates[j] && tried[j].sent == ProbeWrites && !tried[j].isOpen
    {
      var s := new Port.Open(BaudRates[i], replyAt(BaudRates[i]));
      var n := 0;
      while n < ProbeCount
        invariant 0 <= n <= ProbeCount
        invariant s.sent == ProbeWrites[..n] && s.isOpen
        invariant s.incoming == replyAt(BaudRates[i])
        modifies s
      {
        s.Write(Probe);
        n := n + 1;
      }
      if s.InWaiting() > 0 {
        assert FirstAnswering(BaudRates, replyAt) == i;
        return Ok(BaudRates[i]), tried + [s];
      }
      s.Close();
      tried := tried + [s];
      i := i + 1;
    }
    return Err(NoResponse), tried;
  }

  /** The constructor: settle on a baud rate (the one given, or the one discovery finds),
      open the port at it, require the KAT500 identity, then read the firmware revision and
      the serial number. `script` is what the device sends on that port. */
  method Connect(baudRate: Option<int>, replyAt: int -> Queue, script: Queue) returns (r: Result<Tuner>)
    ensures baudRate.None? && Discovered(replyAt).Err? ==> r == Err(NoResponse)
    ensures (baudRate.Some? || Discovered(replyAt).Ok?) ==>
      (r.Ok? <==> Handshake(script).Ok?) && (r.Err? ==> r.error == Handshake(script).error)
    ensures r.Ok? ==> fresh(r.value) && fresh(r.value.port) && r.value.port.isOpen
    ensures r.Ok? ==>
      r.value.port.rate == if baudRate.Some? then baudRate.value else Discovered(replyAt).value
    ensures r.Ok? ==> ReadFrame(script).result == Ok(Identity)
    ensures r.Ok? ==> r.value.port.sent == [Frame("I"), Frame("RV"), Frame("SN")]
  {
    var rate: int;
    if baudRate.None? {
      var found;
      ghost var probed;
      found, probed := DiscoverBaudRate(replyAt);
      if found.Err? {
        return Err(found.error);
      }
      rate := found.value;
    } else {
      rate := baudRate.value;
    }
    var port := new Port.Open(rate, script);
    var tuner := new Tuner(port);
    var identified :- tuner.Identify();
    if !identified {
      return Err(NotKat500);
    }
    var revision :- tuner.GetFirmwareRevision();
    var serialNumber :- tuner.GetSerialNumber();
    r := Ok(tuner);
  }

  class Tuner {
    const port: Port

    constructor (port: Port)
      ensures this.port == port
    {
      this.port := port;
    }

    /** `_write_command`: the command text and one terminator, in one write. */
    method WriteCommand(command: string)
      modifies port
      ensures port.sent == old(port.sent) + [Frame(command)]
      ensures port.incoming == old(port.incoming) && port.isOpen == old(port.isOpen)
    {
      port.Write(command + [Terminator]);
    }

    /** `_read_response`: one byte, then whatever is waiting, until the buffer's last byte
        is the terminator; the response is the buffer without it. */
    method ReadResponse() returns (r: Result<string>)
      modifies port
      ensures Reply(r, port.incoming) == ReadFrame(old(port.incoming))
      ensures port.sent == old(port.sent) && port.isOpen == old(port.isOpen)
    {
      var first := port.Read(1);
      if first.None? {
        return Err(Stalled);
      }
      var buffer := first.value;
      while buffer[|buffer| - 1] != Terminator
        invariant buffer != []
        invariant Accumulate(buffer, port.incoming) == ReadFrame(old(port.incoming))
        invariant port.sent == old(port.sent) && port.isOpen == old(port.isOpen)
        decreases |port.incoming|
      {
        if port.incoming == [] {
          // Nothing more will arrive: the Python loop polls an empty port forever.
          return Err(Stalled);
        }
        TakeWaiting(port.incoming);
        var more := port.Read(port.InWaiting());
        buffer := buffer + more.value;
      }
      r := Ok(buffer[..|buffer| - 1]);
    }

    method Identify() returns (r: Result<bool>)
      modifies port
      ensures port.sent == old(port.sent) + [Frame("I")] && port.isOpen == old(port.isOpen)
      ensures Reply(r, port.incoming) == Ask(old(port.incoming), Identified)
    {
      WriteCommand("I");
      var response :- ReadResponse();
      r := Identified(response);
    }

    method GetFirmwareRevision() returns (r: Result<string>)
      modifies port
      ensures port.sent == old(port.sent) + [Frame("RV")] && port.isOpen == old(port.isOpen)
      ensures Reply(r, port.incoming) == Ask(old(port.incoming), Revision)
    {
      WriteCommand("RV");
      var response :- ReadResponse();
      r := Revision(response);
    }

    method GetSerialNumber() returns (r: Result<int>)
      modifies port
      ensures port.sent == old(port.sent) + [Frame("SN")] && port.isOpen == old(port.isOpen)
      ensures Reply(r, port.incoming) == Ask(old(port.incoming), SerialNumber)
    {
      WriteCommand("SN");
      var response :- ReadResponse();
      r := SerialNumber(response);
    }

    /** `parseFloat` stands for Python's float(). */
    method GetVswr(parseFloat: string -> Option<real>) returns (r: Result<real>)
      modifies port
      ensures port.isOpen == old(port.isOpen)
      ensures port.sent == old(port.sent) + [Frame("VSWR")]
      ensures Reply(r, port.incoming) == Ask(old(port.incoming), VswrDecoder(parseFloat))
    {
      WriteCommand("VSWR");
      var response :- ReadResponse();
      r := VswrDecoder(parseFloat)(response);
    }

    method GetPowered() returns (r: Result<bool>)
      modifies port
      ensures port.isOpen == old(port.isOpen)
      ensures port.sent == old(port.sent) + [Frame("PS")]
      ensures Reply(r, port.incoming) == Ask(old(port.incoming), Powered)
    {
      WriteCommand("PS");
      var response :- ReadResponse();
      r := Powered(response);
    }

    method SetPowerOn()
      modifies port
      ensures port.isOpen == old(port.isOpen)
      ensures port.sent == old(port.sent) + [Frame(PowerCommand(true))]
      ensures port.incoming == old(port.incoming)
    {
      WriteCommand(PowerCommand(true));
    }

    method SetPowerOff()
      modifies port
      ensures port.isOpen == old(port.isOpen)
      ensures port.sent == old(port.sent) + [Frame(PowerCommand(false))]
      ensures port.incoming == old(port.incoming)
    {
      WriteCommand(PowerCommand(false));
    }

    method GetMode() returns (r: Result<string>)
      modifies port
      ensures port.isOpen == old(port.isOpen)
      ensures port.sent == old(port.sent) + [Frame("MD")]
      ensures Reply(r, port.incoming) == Ask(old(port.incoming), ModeOf)
    {
      WriteCommand("MD");
      var response :- ReadResponse();
      r := ModeOf(response);
    }

    method GetFrequencyCounter() returns (r: Result<int>)
      modifies port
      ensures port.isOpen == old(port.isOpen)
      ensures port.sent == old(port.sent) + [Frame("FC")]
      ensures Reply(r, port.incoming) == Ask(old(port.incoming), FrequencyCounter)
    {
      WriteCommand("FC");
      var response :- ReadResponse();
      r := FrequencyCounter(response);
    }

    /** A mode outside the three codes is refused before anything is written. */
    method SetMode(mode: string) returns (r: Result<()>)
      modifies port
      ensures port.isOpen == old(port.isOpen)
      ensures r.Ok? <==> mode in Modes
      ensures r.Err? ==> r.error == InvalidMode
      ensures port.sent == old(port.sent) + if mode in Modes then [Frame(mode)] else []
      ensures port.incoming == old(port.incoming)
    {
      if mode in Modes {
        WriteCommand(mode);
        r := Ok(());
      } else {
        r := Err(InvalidMode);
      }
    }

    /** Starts a tune; no response is read. */
    method SetFullSearchTune()
      modifies port
      ensures port.isOpen == old(port.isOpen)
      ensures port.sent == old(port.sent) + [Frame("FT")]
      ensures port.incoming == old(port.incoming)
    {
      WriteCommand("FT");
    }

    /** Cancels a tune; one response is read and discarded. */
    method CancelFullSearchTune() returns (r: Result<()>)
      modifies port
      ensures port.isOpen == old(port.isOpen)
      ensures port.sent == old(port.sent) + [Frame("CT")]
      ensures Reply(r, port.incoming) == Ask(old(port.incoming), Discard)
    {
      WriteCommand("CT");
      var response :- ReadResponse();
      r := Discard(response);
    }

    method GetFault() returns (r: Result<Fault>)
      modifies port
      ensures port.isOpen == old(port.isOpen)
      ensures port.sent == old(port.sent) + [Frame("FLT")]
      ensures Reply(r, port.incoming) == Ask(old(port.incoming), DecodeFault)
    {
      WriteCommand("FLT");
      var response :- ReadResponse();
      r := DecodeFault(response);
    }

    /** Clears the fault; one response is read and discarded. */
    method ClearFault() returns (r: Result<()>)
      modifies port
      ensures port.isOpen == old(port.isOpen)
      ensures port.sent == old(port.sent) + [Frame("FLTC")]
      ensures Reply(r, port.incoming) == Ask(old(port.incoming), Discard)
    {
      WriteCommand("FLTC");
      var response :- ReadResponse();
      r := Discard(response);
    }

    method GetTuning() returns (r: Result<bool>)
      modifies port
      ensures port.isOpen == old(port.isOpen)
      ensures port.sent == old(port.sent) + [Frame("TP")]
      ensures Reply(r, port.incoming) == Ask(old(port.incoming), Tuning)
    {
      WriteCommand("TP");
      var response :- ReadResponse();
      r := Tuning(response);
    }
  }
}
