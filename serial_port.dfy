/** An abstract serial port standing in for pyserial's `serial.Serial`: it records every
    write in order and delivers a scripted queue of incoming chunks. */
module Serial {
  import opened Results
  import opened Framing

  class Port {
    /** The baud rate the port was opened at. */
    const rate: int
    var isOpen: bool
    /** Every write, in order. */
    var sent: seq<string>
    /** The chunks the device will deliver, in arrival order. */
    var incoming: Queue

    /** Opening the port at `rate`; `script` is what the device will send on it. */
    constructor Open(rate: int, script: Queue)
      ensures this.rate == rate && isOpen
      ensures sent == [] && incoming == script
    {
      this.rate := rate;
      isOpen := true;
      sent := [];
      incoming := script;
    }

    /** `in_waiting`: the bytes that have arrived and not been read. */
    function InWaiting(): (n: nat)
      reads this
      ensures n > 0 <==> incoming != []
    {
      if incoming == [] then 0 else |incoming[0]|
    }

    method Write(data: string)
      modifies this
      ensures sent == old(sent) + [data]
      ensures incoming == old(incoming) && isOpen == old(isOpen)
    {
      sent := sent + [data];
    }

    /** `read(n)`: blocks until `n` bytes have arrived; None when they never do. */
    method Read(n: nat) returns (data: Option<seq<char>>)
      modifies this
      ensures Taken(data, incoming) == Take(old(incoming), n)
      ensures sent == old(sent) && isOpen == old(isOpen)
    {
      var t := Take(incoming, n);
      data, incoming := t.data, t.rest;
    }

    method Close()
      modifies this
      ensures !isOpen
      ensures sent == old(sent) && incoming == old(incoming)
    {
      isOpen := false;
    }
  }
}
