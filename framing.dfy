/** Framing of the KAT500 serial protocol: every command and every response ends in ';'.
    The bytes the device sends are modelled as a queue of non-empty chunks, each chunk being
    what one serial read finds waiting. */
module Framing {
  import opened Results

  const Terminator: char := ';'

  /** The bytes that arrive together: what one `read(in_waiting)` returns. */
  type Chunk = c: seq<char> | c != [] witness [';']

  /** The chunks the device will deliver, in arrival order. */
  type Queue = seq<Chunk>

  function Flatten(q: Queue): seq<char> {
    if q == [] then [] else q[0] + Flatten(q[1..])
  }

  /** What `_write_command` puts on the wire for `command`. */
  function Frame(command: string): Chunk {
    command + [Terminator]
  }

  /** A frame is the command text and one more byte, and for a command free of ';' that
      last byte is the frame's only terminator. */
  lemma FrameAppendsTerminator(command: string)
    requires Terminator !in command
    ensures Frame(command)[..|command|] == command
    ensures forall i :: 0 <= i < |Frame(command)| ==>
      (Frame(command)[i] == Terminator <==> i == |command|)
  {
  }

  /** The outcome of a blocking read: the bytes, or None when the requested number of bytes
      never arrives; and the chunks still waiting. */
  datatype Taken = Taken(data: Option<seq<char>>, rest: Queue)

  /** A blocking `read(n)` without timeout: the next `n` bytes, across chunk boundaries; the
      unread tail of a partly read chunk stays at the head of the queue. */
  function Take(q: Queue, n: nat): (t: Taken)
    ensures t.data.Some? <==> n <= |Flatten(q)|
    ensures t.data.Some? ==> |t.data.value| == n && Flatten(q) == t.data.value + Flatten(t.rest)
    ensures t.data.None? ==> t.rest == []
    decreases |q|
  {
    if n == 0 then
      Taken(Some([]), q)
    else if q == [] then
      Taken(None, [])
    else if n < |q[0]| then
      var rest: Queue := [q[0][n..]] + q[1..];
      assert Flatten(rest) == q[0][n..] + Flatten(q[1..]);
      assert q[0] == q[0][..n] + q[0][n..];
      Taken(Some(q[0][..n]), rest)
    else
      var t := Take(q[1..], n - |q[0]|);
      if t.data.Some? then Taken(Some(q[0] + t.data.value), t.rest) else Taken(None, [])
  }

  /** Reading exactly what is waiting takes the head chunk and nothing else. */
  lemma TakeWaiting(q: Queue)
    requires q != []
    ensures Take(q, |q[0]|) == Taken(Some(q[0]), q[1..])
  {
    assert q[0] + [] == q[0];
  }

  /** A decoded response, or the error that stopped it, and the chunks left unread. */
  datatype Reply<+T> = Reply(result: Result<T>, rest: Queue)

  /** The loop of `_read_response`: while the buffer's last byte is not the terminator,
      append the next chunk. */
  function Accumulate(buffer: seq<char>, q: Queue): Reply<string>
    requires buffer != []
    decreases |q|
  {
    if buffer[|buffer| - 1] == Terminator then
      Reply(Ok(buffer[..|buffer| - 1]), q)
    else if q == [] then
      Reply(Err(Stalled), [])
    else
      Accumulate(buffer + q[0], q[1..])
  }

  /** `_read_response`: one blocking byte, then whole chunks until the buffer ends in the
      terminator, which is stripped. */
  function ReadFrame(q: Queue): Reply<string> {
    var first := Take(q, 1);
    if first.data.None? then Reply(Err(Stalled), []) else Accumulate(first.data.value, first.rest)
  }

  /** One response read and decoded. */
  function Ask<T>(q: Queue, decode: string -> Result<T>): Reply<T> {
    var f := ReadFrame(q);
    Reply(if f.result.Ok? then decode(f.result.value) else Err(f.result.error), f.rest)
  }

  lemma {:induction false} AccumulateConserves(buffer: seq<char>, q: Queue)
    requires buffer != []
    ensures Accumulate(buffer, q).result.Ok? ==>
      buffer + Flatten(q) == Accumulate(buffer, q).result.value + [Terminator] + Flatten(Accumulate(buffer, q).rest)
    ensures Accumulate(buffer, q).result.Err? ==> Accumulate(buffer, q) == Reply(Err(Stalled), [])
    decreases |q|
  {
    if buffer[|buffer| - 1] == Terminator {
      assert buffer == buffer[..|buffer| - 1] + [Terminator];
    } else if q != [] {
      AccumulateConserves(buffer + q[0], q[1..]);
    }
  }

  /** Nothing is lost or reordered: the bytes of a successful read are the response, the
      terminator, and then exactly what is left in the queue; a read that fails has drained
      the queue. */
  lemma ReadFrameConserves(q: Queue)
    ensures ReadFrame(q).result.Ok? ==>
      Flatten(q) == ReadFrame(q).result.value + [Terminator] + Flatten(ReadFrame(q).rest)
    ensures ReadFrame(q).result.Err? ==> ReadFrame(q) == Reply(Err(Stalled), [])
  {
    var first := Take(q, 1);
    if first.data.Some? {
      AccumulateConserves(first.data.value, first.rest);
    }
  }

  /** A queue that never carries the terminator leaves the read waiting forever. */
  lemma NoTerminatorStalls(q: Queue)
    requires Terminator !in Flatten(q)
    ensures ReadFrame(q) == Reply(Err(Stalled), [])
  {
    ReadFrameConserves(q);
  }

  /** Only the last byte of the buffer is tested: a single chunk that has a ';' inside but
      does not end in one never completes the read. */
  lemma TerminatorInsideChunkIgnored(c: Chunk)
    requires c[0] != Terminator && c[|c| - 1] != Terminator
    ensures ReadFrame([c]) == Reply(Err(Stalled), [])
  {
    if |c| > 1 {
      var tail: Chunk := c[1..];
      assert Take([c], 1) == Taken(Some(c[..1]), [tail]);
      assert c[..1] + tail == c;
      assert Accumulate(c[..1], [tail]) == Accumulate(c, []);
    }
  }

  /** In a terminator-free response followed by its terminator, the only ';' is the last byte. */
  lemma OnlyTerminatorIsLast(buffer: seq<char>, more: seq<char>, s: string)
    requires buffer != [] && buffer[|buffer| - 1] == Terminator && Terminator !in s
    requires buffer + more == s + [Terminator]
    ensures buffer == s + [Terminator] && more == []
  {
    var k := |buffer| - 1;
    assert (buffer + more)[k] == Terminator;
    assert buffer == (buffer + more)[..|buffer|];
  }

  /** A buffer not yet ending in the terminator has bytes of the frame still to come. */
  lemma UnterminatedNeedsMore(buffer: seq<char>, more: seq<char>, s: string)
    requires buffer != [] && buffer[|buffer| - 1] != Terminator
    requires buffer + more == s + [Terminator]
    ensures more != []
  {
    assert (buffer + more)[|buffer + more| - 1] == Terminator;
    assert more == [] ==> buffer + more == buffer;
  }

  lemma {:induction false} AccumulateSplit(buffer: seq<char>, q1: Queue, q2: Queue, s: string)
    requires buffer != [] && Terminator !in s
    requires buffer + Flatten(q1) == s + [Terminator]
    ensures Accumulate(buffer, q1 + q2) == Reply(Ok(s), q2)
    decreases |q1|
  {
    if buffer[|buffer| - 1] == Terminator {
      OnlyTerminatorIsLast(buffer, Flatten(q1), s);
      assert |Flatten(q1)| == 0;
      assert q1 == [];
      assert buffer == s + [Terminator];
      assert q1 + q2 == q2;
    } else {
      UnterminatedNeedsMore(buffer, Flatten(q1), s);
      assert (q1 + q2)[0] == q1[0] && (q1 + q2)[1..] == q1[1..] + q2;
      assert (buffer + q1[0]) + Flatten(q1[1..]) == buffer + Flatten(q1);
      AccumulateSplit(buffer + q1[0], q1[1..], q2, s);
    }
  }

  /** However the response was split into chunks, once the chunks up to and including its
      terminator have arrived, the read returns the response and leaves the later chunks. */
  lemma ReadFrameSplit(q1: Queue, q2: Queue, s: string)
    requires Terminator !in s
    requires Flatten(q1) == s + [Terminator]
    ensures ReadFrame(q1 + q2) == Reply(Ok(s), q2)
  {
    var q := q1 + q2;
    assert q1 != [];
    assert q[0] == q1[0] && q[1..] == q1[1..] + q2;
    var c := q1[0];
    if |c| > 1 {
      var rest: Queue := [c[1..]] + q1[1..];
      assert Take(q, 1) == Taken(Some(c[..1]), [c[1..]] + q[1..]);
      assert c[..1] == [c[0]];
      assert [c[0]] + Flatten(rest) == Flatten(q1);
      assert [c[1..]] + q[1..] == rest + q2;
      AccumulateSplit([c[0]], rest, q2, s);
    } else {
      TakeWaiting(q);
      AccumulateSplit(c, q1[1..], q2, s);
    }
  }

  /** What the driver writes is what its own reader takes back, for any command text
      free of the terminator. */
  lemma FrameRoundTrip(command: string, later: Queue)
    requires Terminator !in command
    ensures ReadFrame([Frame(command)] + later) == Reply(Ok(command), later)
  {
    assert Flatten([Frame(command)]) == Frame(command);
    ReadFrameSplit([Frame(command)], later, command);
  }
}
