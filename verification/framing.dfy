/** Framing on the serial link. Outbound commands are `[OPC] data` followed
    by CR LF, or raw text when no opcode is given. Inbound text is collected
    one byte at a time up to the first CR or LF; only lines starting with `{`
    are kept, and they are read as `{OPC} payload`. */
module FrameCodec {
  import opened Text

  /** One outbound command as the program hands it to the port. */
  datatype Command = Command(op: string, data: string)

  /** The payload that asks the device for its current value. */
  const Get: string := "G"

  function Query(op: string): Command {
    Command(op, Get)
  }

  // ---------------------------------------------------------------------------
  // Outbound
  // ---------------------------------------------------------------------------

  /** The characters written for `sendPort(op, data)`. */
  function Encode(op: string, data: string): (wire: string)
    ensures op == "" ==> wire == data
    ensures op != "" ==> |wire| == |op| + |data| + 5
    ensures op != "" ==> wire[0] == '[' && wire[|wire| - 2..] == "\r\n"
  {
    if |op| > 0 then "[" + op + "] " + data + "\r\n" else data
  }

  function Wire(c: Command): string {
    Encode(c.op, c.data)
  }

  /** The first position of `c` in `s`, or `|s|` when it does not occur. */
  function IndexOf(s: string, c: char): (k: nat)
    ensures k <= |s|
    ensures k < |s| ==> s[k] == c
    ensures forall i :: 0 <= i < k ==> s[i] != c
  {
    if |s| == 0 then 0 else if s[0] == c then 0 else 1 + IndexOf(s[1..], c)
  }

  /** How the receiving end reads a tagged command: an opening bracket, the
      opcode up to the first closing bracket, one space, the data, CR LF. */
  function ParseTagged(wire: string): (r: Option<Command>)
    ensures r.Some? ==> r.value.op != "" && ']' !in r.value.op
  {
    if |wire| >= 5 && wire[0] == '[' && wire[|wire| - 2..] == "\r\n" then
      var body := wire[1..|wire| - 2];
      var k := IndexOf(body, ']');
      if 0 < k && k + 1 < |body| && body[k + 1] == ' ' then
        Some(Command(body[..k], body[k + 2..]))
      else None
    else None
  }

  /** Every tagged command can be read back exactly, whatever its data. */
  lemma EncodeParse(op: string, data: string)
    requires op != "" && ']' !in op
    ensures ParseTagged(Encode(op, data)) == Some(Command(op, data))
  {
    var wire := Encode(op, data);
    var body := wire[1..|wire| - 2];
    assert body == op + "] " + data;
    assert body[|op|] == ']';
    assert forall i :: 0 <= i < |op| ==> body[i] == op[i];
    assert IndexOf(body, ']') == |op|;
    assert body[..|op|] == op;
    assert body[|op| + 2..] == data;
  }

  /** Raw passthrough writes exactly the given text: nothing is added. */
  lemma RawPassthrough(data: string)
    ensures Encode("", data) == data
  {
  }

  // ---------------------------------------------------------------------------
  // Inbound line reading
  // ---------------------------------------------------------------------------

  /** Upper bound on single-byte reads while waiting for a line end. */
  const ReadCap: nat := 1_000_000

  /** One single-byte read: it either times out or yields a byte. */
  datatype Read = Timeout | Byte(c: char)

  /** The port as `readPort` sees it: not selected, or open with a count of
      bytes waiting and the results its successive reads will give. Reads
      past the end of `stream` time out. */
  datatype Port = NoPort | Open(waiting: nat, stream: seq<Read>)

  function ReadAt(stream: seq<Read>, i: nat): Read {
    if i < |stream| then stream[i] else Timeout
  }

  predicate IsTerminator(r: Read) {
    r.Byte? && (r.c == '\r' || r.c == '\n')
  }

  predicate IsLineEnd(c: char) {
    c == '\r' || c == '\n'
  }

  /** The bytes delivered by the first `n` reads, timeouts contributing
      nothing. */
  function Collected(stream: seq<Read>, n: nat): string {
    if n == 0 then ""
    else
      var r := ReadAt(stream, n - 1);
      Collected(stream, n - 1) + (if r.Byte? then [r.c] else "")
  }

  /** The last step of `readPort`: an empty buffer or one that does not
      start with `{` gives the empty string; otherwise trailing whitespace
      is dropped. */
  function Accept(buff: string): (line: string)
    ensures line == "" || line[0] == '{'
    ensures |buff| >= 1 && buff[0] == '{' ==> line == RStrip(buff)
    ensures line != "" ==> line == RStrip(buff)
  {
    if |buff| < 1 || buff[0] != '{' then "" else RStripSpec(buff); RStrip(buff)
  }

  /** `readPort`. Returns the line and how many reads it performed.
      No port, or nothing waiting, returns at once with nothing read.
      Otherwise it reads up to the first line end or until `ReadCap` reads
      have been made, whichever comes first; the line is what was gathered
      before the line end, filtered by `Accept`. */
  method ReadPort(p: Port) returns (line: string, used: nat)
    ensures (p.NoPort? || p.waiting < 1) ==> line == "" && used == 0
    ensures p.Open? && p.waiting >= 1 ==> 1 <= used <= ReadCap
    ensures p.Open? && p.waiting >= 1 ==>
      forall i :: 0 <= i < used - 1 ==> !IsTerminator(ReadAt(p.stream, i))
    ensures p.Open? && p.waiting >= 1 && used < ReadCap ==> IsTerminator(ReadAt(p.stream, used - 1))
    ensures p.Open? && p.waiting >= 1 ==>
      line == Accept(Collected(p.stream, if IsTerminator(ReadAt(p.stream, used - 1)) then used - 1 else used))
    ensures line == "" || line[0] == '{'
    ensures forall i :: 0 <= i < |line| ==> !IsLineEnd(line[i])
    ensures line == "" || !IsSpace(line[|line| - 1])
  {
    if p.NoPort? || p.waiting < 1 {
      return "", 0;
    }
    var buff := "";
    var count := 0;
    var ended := false;
    while count < ReadCap && !ended
      invariant count <= ReadCap
      invariant ended ==> count >= 1 && IsTerminator(ReadAt(p.stream, count - 1))
      invariant forall i :: 0 <= i < (if ended then count - 1 else count) ==> !IsTerminator(ReadAt(p.stream, i))
      invariant buff == Collected(p.stream, if ended then count - 1 else count)
      invariant forall i :: 0 <= i < |buff| ==> !IsLineEnd(buff[i])
    {
      count := count + 1;
      var ch := ReadAt(p.stream, count - 1);
      if IsTerminator(ch) {
        ended := true;
      } else if ch.Byte? {
        buff := buff + [ch.c];
      }
    }
    RStripSpec(buff);
    line := Accept(buff);
    used := count;
  }

  // ---------------------------------------------------------------------------
  // Inbound decoding
  // ---------------------------------------------------------------------------

  /** What `handleMessage` makes of a line: too short to dispatch, or an
      opcode and payload. `tagged` records whether the line had `{` at 0 and
      `}` at 4, the only case in which the port is shown as working; the
      opcode is dispatched either way. */
  datatype Inbound = Short | Frame(tagged: bool, op: string, payload: string)

  function Decode(msg: string): (r: Inbound)
    ensures r.Short? <==> |msg| < 5
    ensures r.Frame? ==> |r.op| == 3 && r.op == msg[1..4]
    ensures r.Frame? ==> (r.tagged <==> msg[0] == '{' && msg[4] == '}')
    ensures r.Frame? ==> |r.payload| <= |msg| - 5 && r.payload == msg[|msg| - |r.payload|..]
    ensures r.Frame? && |msg| == 5 ==> r.payload == ""
    ensures r.Frame? && |msg| > 5 && msg[5] != ' ' ==> r.payload == msg[5..]
    ensures r.Frame? && |msg| > 5 && msg[5] == ' ' ==> r.payload == msg[6..]
  {
    if |msg| < 5 then Short
    else
      var data := if |msg| > 5 then (if msg[5] != ' ' then msg[5..] else msg[6..]) else "";
      Frame(msg[0] == '{' && msg[4] == '}', msg[1..4], data)
  }

  /** The inbound line the device sends for an opcode and payload. */
  function InboundLine(op: string, payload: string): string {
    "{" + op + "} " + payload
  }

  /** Decoding recovers opcode and payload from a well-formed line, whatever
      the payload (a leading space in it included). */
  lemma DecodeInbound(op: string, payload: string)
    requires |op| == 3
    ensures Decode(InboundLine(op, payload)) == Frame(true, op, payload)
  {
    var msg := InboundLine(op, payload);
    assert msg[1..4] == op;
    assert msg[6..] == payload;
  }

  /** The device sometimes leaves out the space after `}`; the payload is
      still recovered when it does not itself start with a space. */
  lemma DecodeWithoutSpace(op: string, payload: string)
    requires |op| == 3
    requires payload == "" || payload[0] != ' '
    ensures Decode("{" + op + "}" + payload) == Frame(true, op, payload)
  {
    var msg := "{" + op + "}" + payload;
    assert msg[1..4] == op;
    assert msg[5..] == payload;
  }

  /** A line that does not start with `{` is never marked as tagged. */
  lemma UnbracedNotTagged(msg: string)
    requires |msg| >= 5 && msg[0] != '{'
    ensures Decode(msg).Frame? && !Decode(msg).tagged
  {
  }

  /** A device line that went through `readPort` decodes to its opcode and
      its payload without trailing whitespace. */
  lemma ReadThenDecode(op: string, payload: string)
    requires |op| == 3
    ensures Decode(Accept(InboundLine(op, payload))) == Frame(true, op, RStrip(payload))
  {
    var msg := InboundLine(op, payload);
    var prefix := "{" + op + "} ";
    assert msg == prefix + payload;
    assert Accept(msg) == RStrip(msg);
    RStripAppend(prefix, payload);
    if RStrip(payload) == "" {
      BareLine(op);
    } else {
      assert RStrip(msg) == InboundLine(op, RStrip(payload));
      DecodeInbound(op, RStrip(payload));
    }
  }

  /** A line with an opcode and only whitespace after it is read as the
      bare `{OPC}` and decodes with an empty payload. */
  lemma BareLine(op: string)
    requires |op| == 3
    ensures RStrip("{" + op + "} ") == "{" + op + "}"
    ensures Decode("{" + op + "}") == Frame(true, op, "")
  {
    var bare := "{" + op + "}";
    assert ("{" + op + "} ")[..5] == bare;
    assert bare[1..4] == op;
  }

  lemma {:induction false} RStripAppend(prefix: string, s: string)
    ensures RStrip(s) != "" ==> RStrip(prefix + s) == prefix + RStrip(s)
    ensures RStrip(s) == "" ==> RStrip(prefix + s) == RStrip(prefix)
  {
    if |s| > 0 {
      assert (prefix + s)[..|prefix + s| - 1] == prefix + s[..|s| - 1];
      if IsSpace(s[|s| - 1]) {
        RStripAppend(prefix, s[..|s| - 1]);
      }
    } else {
      assert prefix + s == prefix;
    }
  }
}
