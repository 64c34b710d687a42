/** The resynchronisation routine and one step of the main loop. After the
    device announces itself, every configuration opcode in a fixed order is
    queried with `G`; for each one, incoming lines are read and dispatched
    until a line carrying that opcode arrives or 100 other lines have been
    dispatched, and then the next opcode is queried without retrying. The
    serial port is replaced by the finite sequence of lines `readPort`
    returns; when the lines run out while waiting, the routine is `Stalled`
    (the program itself would keep polling). */
module Resync {
  import opened Text
  import opened FrameCodec
  import opened Dispatcher

  /** The opcodes queried, in order. */
  const QueryOrder: seq<string> := [
    "CCM", "OTP", "OSM", "OBD", "OLC", "OPW", "DCS", "DL4", "DPD",
    "DNM", "DGF", "FPN", "FHV", "FHR", "FSV", "FSR", "FRF", "FLP"
  ]

  /** How many non-matching lines are dispatched before giving up on one
      opcode. */
  const WaitCap: nat := 100

  /** The controller's state during a resync: the session, the running count
      of received characters, the opcodes queried so far, every command sent
      (queries and whatever the handlers send) and the opcodes whose wait
      ran into the cap. */
  datatype State = State(st: Session, rx: nat, asked: seq<string>, sent: seq<Command>, unanswered: seq<string>)

  /** A line that is dispatched: longer than two characters. */
  predicate Long(msg: string) {
    |msg| > 2
  }

  /** A dispatched line that ends the wait for `cmd`: characters 1 to 3 are
      the opcode. A four-character line such as `{CCM` qualifies even though
      the dispatcher rejects it as too short. */
  predicate Answers(msg: string, cmd: string) {
    Long(msg) && Slice(msg, 1, 4) == cmd
  }

  /** The number of dispatched lines in `lines`. */
  function CountLong(lines: seq<string>): nat {
    if |lines| == 0 then 0 else (if Long(lines[0]) then 1 else 0) + CountLong(lines[1..])
  }

  /** The total number of characters in `lines`. */
  function TotalLength(lines: seq<string>): nat {
    if |lines| == 0 then 0 else |lines[0]| + TotalLength(lines[1..])
  }

  /** The lines taken off the front of `lines`, leaving `rest`. */
  function Consumed(lines: seq<string>, rest: seq<string>): seq<string>
    requires |rest| <= |lines|
  {
    lines[..|lines| - |rest|]
  }

  // ---------------------------------------------------------------------------
  // Waiting for one reply
  // ---------------------------------------------------------------------------

  datatype Wait =
    | Answered(progress: State, rest: seq<string>)
    | Gave(progress: State, rest: seq<string>)
    | Starved(progress: State)
    | Raised(reason: Crash)

  /** One line read while waiting: its characters are counted; a line too
      short to dispatch changes nothing else. */
  function Receive(p: State, msg: string): (q: State)
    ensures q.rx == p.rx + |msg| && q.asked == p.asked && q.unanswered == p.unanswered
  {
    p.(rx := p.rx + |msg|)
  }

  /** The inner loop of `updateStatus`, from `count` dispatched lines on:
      each line is counted, a long one is dispatched, and the wait ends on
      the first long line that answers `cmd` or when `count` reaches the
      cap. Only whole lines are taken off the front. */
  function Await(p: State, cmd: string, lines: seq<string>, count: nat): Wait
    requires count <= WaitCap
    decreases |lines|
  {
    if count == WaitCap then Gave(p, lines)
    else if |lines| == 0 then Starved(p)
    else
      var msg := lines[0];
      if !Long(msg) then Await(Receive(p, msg), cmd, lines[1..], count)
      else
        match HandleMessage(p.st, msg)
        case Crashed(e) => Raised(e)
        case Done(st, _, out) =>
          var q := Receive(p, msg).(st := st, sent := p.sent + out);
          if Answers(msg, cmd) then Answered(q, lines[1..])
          else Await(q, cmd, lines[1..], count + 1)
  }

  /** The state after a dispatched line whose handler returned `h`. */
  function Handled(p: State, msg: string, h: Dispatcher.Outcome): State
    requires h.Done?
  {
    Receive(p, msg).(st := h.session, sent := p.sent + h.sent)
  }

  /** How `Await` takes one line off the front. */
  lemma AwaitFirst(p: State, cmd: string, lines: seq<string>, count: nat)
    requires count < WaitCap && |lines| > 0
    ensures var msg := lines[0];
      !Long(msg) ==> Await(p, cmd, lines, count) == Await(Receive(p, msg), cmd, lines[1..], count)
    ensures var msg := lines[0];
      var h := HandleMessage(p.st, msg);
      Long(msg) && h.Crashed? ==> Await(p, cmd, lines, count) == Raised(h.reason)
    ensures var msg := lines[0];
      var h := HandleMessage(p.st, msg);
      Long(msg) && h.Done? && Answers(msg, cmd) ==> Await(p, cmd, lines, count) == Answered(Handled(p, msg, h), lines[1..])
    ensures var msg := lines[0];
      var h := HandleMessage(p.st, msg);
      Long(msg) && h.Done? && !Answers(msg, cmd) ==> Await(p, cmd, lines, count) == Await(Handled(p, msg, h), cmd, lines[1..], count + 1)
  {
  }

  /** A wait ends with whole lines taken off the front, at least one when it
      was answered, and leaves the queried and unanswered opcodes as they
      were. */
  lemma {:induction false} AwaitShape(p: State, cmd: string, lines: seq<string>, count: nat)
    requires count <= WaitCap
    ensures var w := Await(p, cmd, lines, count);
      && ((w.Answered? || w.Gave?) ==> |w.rest| <= |lines| && w.rest == lines[|lines| - |w.rest|..])
      && ((w.Answered? || w.Gave? || w.Starved?) ==> w.progress.asked == p.asked && w.progress.unanswered == p.unanswered)
      && (w.Answered? ==> |w.rest| < |lines|)
    decreases |lines|
  {
    if count < WaitCap && |lines| > 0 {
      var msg := lines[0];
      var h := HandleMessage(p.st, msg);
      AwaitFirst(p, cmd, lines, count);
      if !Long(msg) {
        AwaitShape(Receive(p, msg), cmd, lines[1..], count);
      } else if h.Done? && !Answers(msg, cmd) {
        AwaitShape(Handled(p, msg, h), cmd, lines[1..], count + 1);
      }
    }
  }

  /** `Await` as a loop: the inner loop of `updateStatus` for one opcode. */
  method AwaitReply(p: State, cmd: string, lines: seq<string>) returns (w: Wait)
    ensures w == Await(p, cmd, lines, 0)
  {
    var q := p;
    var remaining := lines;
    var count := 0;
    while count < WaitCap
      invariant count <= WaitCap
      invariant Await(q, cmd, remaining, count) == Await(p, cmd, lines, 0)
      decreases |remaining|
    {
      if |remaining| == 0 {
        return Starved(q);
      }
      var msg := remaining[0];
      AwaitFirst(q, cmd, remaining, count);
      remaining := remaining[1..];
      if Long(msg) {
        var h := HandleMessage(q.st, msg);
        if h.Crashed? {
          return Raised(h.reason);
        }
        q := Handled(q, msg, h);
        if Slice(msg, 1, 4) == cmd {
          return Answered(q, remaining);
        }
        count := count + 1;
      } else {
        q := Receive(q, msg);
      }
    }
    w := Gave(q, remaining);
  }

  /** An answer is the first line that answers `cmd`, and it arrives before
      the cap: fewer than `WaitCap - count` long lines precede it. */
  lemma {:induction false} AnsweredByFirstReply(p: State, cmd: string, lines: seq<string>, count: nat)
    requires count <= WaitCap
    requires Await(p, cmd, lines, count).Answered?
    ensures var n := |lines| - |Await(p, cmd, lines, count).rest|;
      && 1 <= n <= |lines|
      && Answers(lines[n - 1], cmd)
      && (forall i :: 0 <= i < n - 1 ==> !Answers(lines[i], cmd))
      && count + CountLong(lines[..n - 1]) < WaitCap
    decreases |lines|
  {
    AwaitShape(p, cmd, lines, count);
    var w := Await(p, cmd, lines, count);
    var n := |lines| - |w.rest|;
    var msg := lines[0];
    AwaitFirst(p, cmd, lines, count);
    if Long(msg) && Answers(msg, cmd) {
      assert n == 1 && lines[..0] == [];
    } else {
      var c := if Long(msg) then count + 1 else count;
      var q := if Long(msg) then Handled(p, msg, HandleMessage(p.st, msg)) else Receive(p, msg);
      assert w == Await(q, cmd, lines[1..], c);
      AnsweredByFirstReply(q, cmd, lines[1..], c);
      assert lines[..n - 1] == [msg] + lines[1..][..n - 2];
      assert lines[..n - 1][1..] == lines[1..][..n - 2];
    }
  }

  /** Giving up happens after exactly `WaitCap - count` long lines, none of
      which answered `cmd`. */
  lemma {:induction false} GaveAfterCap(p: State, cmd: string, lines: seq<string>, count: nat)
    requires count <= WaitCap
    requires Await(p, cmd, lines, count).Gave?
    ensures var w := Await(p, cmd, lines, count);
      && |w.rest| <= |lines|
      && var c := Consumed(lines, w.rest);
      && (forall i :: 0 <= i < |c| ==> !Answers(c[i], cmd))
      && count + CountLong(c) == WaitCap
    decreases |lines|
  {
    AwaitShape(p, cmd, lines, count);
    var w := Await(p, cmd, lines, count);
    var c := Consumed(lines, w.rest);
    if count == WaitCap {
      assert c == [];
    } else {
      var msg := lines[0];
      AwaitFirst(p, cmd, lines, count);
      var k := if Long(msg) then count + 1 else count;
      var q := if Long(msg) then Handled(p, msg, HandleMessage(p.st, msg)) else Receive(p, msg);
      assert w == Await(q, cmd, lines[1..], k);
      GaveAfterCap(q, cmd, lines[1..], k);
      assert c == [msg] + Consumed(lines[1..], w.rest);
      assert c[1..] == Consumed(lines[1..], w.rest);
    }
  }

  /** Every character read while waiting is counted. */
  lemma {:induction false} WaitCountsCharacters(p: State, cmd: string, lines: seq<string>, count: nat)
    requires count <= WaitCap
    requires Await(p, cmd, lines, count).Answered? || Await(p, cmd, lines, count).Gave?
    ensures var w := Await(p, cmd, lines, count);
      && |w.rest| <= |lines|
      && w.progress.rx == p.rx + TotalLength(Consumed(lines, w.rest))
    decreases |lines|
  {
    AwaitShape(p, cmd, lines, count);
    var w := Await(p, cmd, lines, count);
    var c := Consumed(lines, w.rest);
    if count == WaitCap {
      assert c == [];
    } else {
      var msg := lines[0];
      AwaitFirst(p, cmd, lines, count);
      if Long(msg) && Answers(msg, cmd) {
        assert c == [msg];
        assert c[1..] == [];
      } else {
        var k := if Long(msg) then count + 1 else count;
        var q := if Long(msg) then Handled(p, msg, HandleMessage(p.st, msg)) else Receive(p, msg);
        assert w == Await(q, cmd, lines[1..], k);
        WaitCountsCharacters(q, cmd, lines[1..], k);
        assert c == [msg] + Consumed(lines[1..], w.rest);
        assert c[1..] == Consumed(lines[1..], w.rest);
      }
    }
  }

  /** Running out of lines while waiting means no line answered. */
  lemma {:induction false} StarvedUnanswered(p: State, cmd: string, lines: seq<string>, count: nat)
    requires count <= WaitCap
    requires Await(p, cmd, lines, count).Starved?
    ensures forall i :: 0 <= i < |lines| ==> !Answers(lines[i], cmd)
    decreases |lines|
  {
    if |lines| > 0 {
      var msg := lines[0];
      AwaitFirst(p, cmd, lines, count);
      var k := if Long(msg) then count + 1 else count;
      var q := if Long(msg) then Handled(p, msg, HandleMessage(p.st, msg)) else Receive(p, msg);
      StarvedUnanswered(q, cmd, lines[1..], k);
      forall i | 1 <= i < |lines|
        ensures !Answers(lines[i], cmd)
      {
        assert lines[i] == lines[1..][i - 1];
      }
    }
  }

  // ---------------------------------------------------------------------------
  // The whole routine
  // ---------------------------------------------------------------------------

  datatype Outcome =
    | Completed(progress: State, rest: seq<string>)
    | Stalled(progress: State, waiting: string)
    | Failed(reason: Crash)

  /** Sending the query for one opcode. */
  function Ask(p: State, cmd: string): (q: State)
    ensures q.asked == p.asked + [cmd] && q.sent == p.sent + [Query(cmd)]
  {
    p.(asked := p.asked + [cmd], sent := p.sent + [Query(cmd)])
  }

  /** `updateStatus` over the opcodes `ops`: each one is asked in turn, and
      the lines left after one wait feed the next; an opcode whose wait ran
      into the cap is recorded as unanswered. */
  function ResyncFrom(p: State, ops: seq<string>, lines: seq<string>): Outcome
    decreases |ops|
  {
    if |ops| == 0 then Completed(p, lines)
    else
      match Await(Ask(p, ops[0]), ops[0], lines, 0)
      case Raised(e) => Failed(e)
      case Starved(p1) => Stalled(p1, ops[0])
      case Answered(p1, rest) => ResyncFrom(p1, ops[1..], rest)
      case Gave(p1, rest) => ResyncFrom(p1.(unanswered := p1.unanswered + [ops[0]]), ops[1..], rest)
  }

  /** How `ResyncFrom` moves past its first opcode. */
  lemma ResyncFirst(p: State, ops: seq<string>, lines: seq<string>)
    requires |ops| > 0
    ensures var w := Await(Ask(p, ops[0]), ops[0], lines, 0);
      ResyncFrom(p, ops, lines) == match w
        case Raised(e) => Failed(e)
        case Starved(p1) => Stalled(p1, ops[0])
        case Answered(p1, rest) => ResyncFrom(p1, ops[1..], rest)
        case Gave(p1, rest) => ResyncFrom(p1.(unanswered := p1.unanswered + [ops[0]]), ops[1..], rest)
  {
  }

  /** Completing means every opcode was asked, in order, with whole lines
      consumed and only opcodes of `ops` added to the unanswered ones;
      stalling happens while waiting on one of them, after it and all
      before it were asked. */
  lemma {:induction false} ResyncShape(p: State, ops: seq<string>, lines: seq<string>)
    ensures var r := ResyncFrom(p, ops, lines);
      && (r.Completed? ==> r.progress.asked == p.asked + ops)
      && (r.Completed? ==> |r.rest| <= |lines| && r.rest == lines[|lines| - |r.rest|..])
      && (r.Completed? ==> forall o :: o in r.progress.unanswered ==> o in p.unanswered || o in ops)
      && (r.Stalled? ==> exists j :: 0 <= j < |ops| && ops[j] == r.waiting && r.progress.asked == p.asked + ops[..j + 1])
    decreases |ops|
  {
    if |ops| > 0 {
      var q := Ask(p, ops[0]);
      var w := Await(q, ops[0], lines, 0);
      ResyncFirst(p, ops, lines);
      AwaitShape(q, ops[0], lines, 0);
      match w
      case Raised(e) =>
      case Starved(p1) =>
        assert ops[..1] == [ops[0]];
      case Answered(p1, rest) =>
        ResyncShape(p1, ops[1..], rest);
        ResyncNext(p, ops, lines, p1, rest, ResyncFrom(p1, ops[1..], rest));
      case Gave(p1, rest) =>
        var p2 := p1.(unanswered := p1.unanswered + [ops[0]]);
        ResyncShape(p2, ops[1..], rest);
        ResyncNext(p, ops, lines, p2, rest, ResyncFrom(p2, ops[1..], rest));
    }
  }

  /** Carrying the contract of the remaining opcodes back to all of them. */
  lemma ResyncNext(p: State, ops: seq<string>, lines: seq<string>, p1: State, rest: seq<string>, r: Outcome)
    requires |ops| >= 1 && p1.asked == p.asked + [ops[0]]
    requires |rest| <= |lines| && rest == lines[|lines| - |rest|..]
    requires forall o :: o in p1.unanswered ==> o in p.unanswered || o == ops[0]
    requires r.Completed? ==> r.progress.asked == p1.asked + ops[1..]
    requires r.Completed? ==> |r.rest| <= |rest| && r.rest == rest[|rest| - |r.rest|..]
    requires r.Completed? ==> forall o :: o in r.progress.unanswered ==> o in p1.unanswered || o in ops[1..]
    requires r.Stalled? ==>
      exists j :: 0 <= j < |ops[1..]| && ops[1..][j] == r.waiting && r.progress.asked == p1.asked + ops[1..][..j + 1]
    ensures r.Completed? ==> r.progress.asked == p.asked + ops
    ensures r.Completed? ==> |r.rest| <= |lines| && r.rest == lines[|lines| - |r.rest|..]
    ensures r.Completed? ==> forall o :: o in r.progress.unanswered ==> o in p.unanswered || o in ops
    ensures r.Stalled? ==>
      exists j :: 0 <= j < |ops| && ops[j] == r.waiting && r.progress.asked == p.asked + ops[..j + 1]
  {
    assert ops == [ops[0]] + ops[1..];
    if r.Completed? {
      assert p.asked + [ops[0]] + ops[1..] == p.asked + ops;
    }
    if r.Stalled? {
      var j :| 0 <= j < |ops[1..]| && ops[1..][j] == r.waiting && r.progress.asked == p1.asked + ops[1..][..j + 1];
      assert ops[..j + 2] == [ops[0]] + ops[1..][..j + 1];
      assert p.asked + [ops[0]] + ops[1..][..j + 1] == p.asked + ops[..j + 2];
      assert ops[j + 1] == r.waiting;
    }
  }

  function Fresh(st: Session, rx: nat): State {
    State(st, rx, [], [], [])
  }

  /** `updateStatus`: the two nested loops of the program, over the lines the
      port delivers. It computes exactly `ResyncFrom` over `QueryOrder`, so
      when it completes every opcode was asked, in order. */
  method UpdateStatus(st: Session, rx: nat, lines: seq<string>) returns (r: Outcome)
    ensures r == ResyncFrom(Fresh(st, rx), QueryOrder, lines)
    ensures r.Completed? ==> r.progress.asked == QueryOrder
  {
    var p := Fresh(st, rx);
    var remaining := lines;
    var k := 0;
    while k < |QueryOrder|
      invariant k <= |QueryOrder|
      invariant ResyncFrom(p, QueryOrder[k..], remaining) == ResyncFrom(Fresh(st, rx), QueryOrder, lines)
    {
      var cmd := QueryOrder[k];
      var ops := QueryOrder[k..];
      assert ops[0] == cmd && ops[1..] == QueryOrder[k + 1..];
      ResyncFirst(p, ops, remaining);
      var w := AwaitReply(Ask(p, cmd), cmd, remaining);
      match w {
        case Raised(e) =>
          return Failed(e);
        case Starved(p1) =>
          return Stalled(p1, cmd);
        case Answered(p1, rest) =>
          p, remaining := p1, rest;
        case Gave(p1, rest) =>
          p, remaining := p1.(unanswered := p1.unanswered + [cmd]), rest;
      }
      k := k + 1;
    }
    assert QueryOrder[k..] == [];
    r := Completed(p, remaining);
    ResyncShape(Fresh(st, rx), QueryOrder, lines);
  }

  // ---------------------------------------------------------------------------
  // Properties of the wait
  // ---------------------------------------------------------------------------

  /** Lines of two characters or fewer (an empty read included) are neither
      dispatched nor counted towards the cap. */
  lemma ShortLinesIgnored(p: State, cmd: string, msg: string, rest: seq<string>, count: nat)
    requires count < WaitCap && |msg| <= 2
    ensures Await(p, cmd, [msg] + rest, count) == Await(Receive(p, msg), cmd, rest, count)
  {
    assert ([msg] + rest)[1..] == rest;
  }

  /** A reply to the awaited opcode ends the wait at once, whatever its
      handler did, unless the handler raised. */
  lemma ReplyEndsWait(p: State, code: Opcode, payload: string, rest: seq<string>, count: nat)
    requires count < WaitCap
    requires HandleMessage(p.st, InboundLine(Mnemonic(code), payload)).Done?
    ensures Await(p, Mnemonic(code), [InboundLine(Mnemonic(code), payload)] + rest, count).Answered?
    ensures Await(p, Mnemonic(code), [InboundLine(Mnemonic(code), payload)] + rest, count).rest == rest
  {
    var msg := InboundLine(Mnemonic(code), payload);
    assert msg[1..4] == Mnemonic(code);
    assert ([msg] + rest)[0] == msg && ([msg] + rest)[1..] == rest;
  }

  /** Unrelated traffic does not get in the way: a GPS time that arrives
      while waiting for the callsign is dispatched (the mirror clock is set
      to it) and the callsign reply that follows still ends the wait. */
  lemma InterleavedTimeThenCallsign(p: State, c: MirrorClock.Clock, call: string)
    requires |call| <= 6
    ensures
      var w := Await(p, "DCS", [InboundLine("GTM", MirrorClock.TimeString(c)), InboundLine("DCS", call)], 0);
      && w.Answered? && w.rest == []
      && w.progress.st.clock == c.(armed := true)
      && w.progress.st.sats == []
      && w.progress.sent == p.sent + [Command("CCM", "S N"), Command("DCS", "S " + call), Command("DCS", "S " + call)]
  {
    var time := InboundLine("GTM", MirrorClock.TimeString(c));
    var reply := InboundLine("DCS", call);
    var echo := [Command("CCM", "S N"), Command("DCS", "S " + call), Command("DCS", "S " + call)];
    var s1 := p.st.(clock := c.(armed := true), sats := []);
    TimeLine(p.st, c);
    CallsignLine(s1, call);
    NotAnswering("GTM", MirrorClock.TimeString(c), "DCS");
    Answering("DCS", call);
    OtherThenAnswer(p, "DCS", time, reply, s1, echo);
  }

  /** A line for another opcode that sends nothing, then the answer: the
      wait ends after both, with the session the answer's handler left and
      the commands it sent. */
  lemma OtherThenAnswer(p: State, cmd: string, first: string, second: string, s1: Session, out: seq<Command>)
    requires Long(first) && !Answers(first, cmd) && Answers(second, cmd)
    requires HandleMessage(p.st, first).Done? && HandleMessage(p.st, first).session == s1 && HandleMessage(p.st, first).sent == []
    requires HandleMessage(s1, second).Done? && HandleMessage(s1, second).session == s1 && HandleMessage(s1, second).sent == out
    ensures Await(p, cmd, [first, second], 0) == Answered(p.(rx := p.rx + |first| + |second|, st := s1, sent := p.sent + out), [])
  {
    assert [first, second] == [first] + [second];
    AwaitOther(p, cmd, first, [second], 0);
    var q := Receive(p, first).(st := s1, sent := p.sent + []);
    assert p.sent + [] == p.sent;
    assert [second] == [second] + [];
    AwaitAnswer(q, cmd, second, [], 1);
  }

  /** A device line answers the wait for its own opcode only. */
  lemma Answering(op: string, payload: string)
    requires |op| == 3
    ensures Answers(InboundLine(op, payload), op)
  {
    assert InboundLine(op, payload)[1..4] == op;
  }

  lemma NotAnswering(op: string, payload: string, cmd: string)
    requires |op| == 3 && op != cmd
    ensures Long(InboundLine(op, payload)) && !Answers(InboundLine(op, payload), cmd)
  {
    assert InboundLine(op, payload)[1..4] == op;
  }

  /** A dispatched line that answers another opcode is handled and the wait
      goes on with the next line. */
  lemma AwaitOther(p: State, cmd: string, msg: string, rest: seq<string>, count: nat)
    requires count < WaitCap && Long(msg) && !Answers(msg, cmd) && HandleMessage(p.st, msg).Done?
    ensures var h := HandleMessage(p.st, msg);
      Await(p, cmd, [msg] + rest, count) == Await(Handled(p, msg, h), cmd, rest, count + 1)
  {
    AwaitFirst(p, cmd, [msg] + rest, count);
    assert ([msg] + rest)[1..] == rest;
  }

  /** The answering line is handled and ends the wait. */
  lemma AwaitAnswer(p: State, cmd: string, msg: string, rest: seq<string>, count: nat)
    requires count < WaitCap && Answers(msg, cmd) && HandleMessage(p.st, msg).Done?
    ensures var h := HandleMessage(p.st, msg);
      Await(p, cmd, [msg] + rest, count) == Answered(Handled(p, msg, h), rest)
  {
    assert ([msg] + rest)[0] == msg && ([msg] + rest)[1..] == rest;
  }

  /** A GPS time line sets the mirror clock to it and sends nothing. */
  lemma TimeLine(st: Session, c: MirrorClock.Clock)
    ensures var h := HandleMessage(st, InboundLine("GTM", MirrorClock.TimeString(c)));
      h.Done? && h.session == st.(clock := c.(armed := true), sats := []) && h.sent == []
  {
    var data := MirrorClock.TimeString(c);
    MirrorClock.SetTimeString(c, st.clock);
    TimeReply(st, data);
  }

  /** A callsign line sends the callsign back after stopping the beacon. */
  lemma CallsignLine(st: Session, call: string)
    requires |call| <= 6
    ensures var h := HandleMessage(st, InboundLine("DCS", call));
      h.Done? && h.session == st && h.sent == [Command("CCM", "S N"), Command("DCS", "S " + call), Command("DCS", "S " + call)]
  {
    CallsignEcho(st, call);
    var g := Handle(st, DCS, call);
    assert g == HandleDCS(st, call);
    DeviceLineDispatch(st, DCS, call);
    assert Mnemonic(DCS) == "DCS";
  }

  /** A line of exactly four characters is rejected by the dispatcher as too
      short, yet it ends the wait when characters 1 to 3 name the opcode. */
  lemma FourCharacterLineAnswers(p: State, rest: seq<string>)
    ensures Await(p, "OTP", ["{OTP"] + rest, 0).Answered?
    ensures Await(p, "OTP", ["{OTP"] + rest, 0).progress.sent == p.sent
  {
    assert (["{OTP"] + rest)[0] == "{OTP";
    assert Slice("{OTP", 1, 4) == "OTP";
  }

  /** A line that only keeps the port alive. */
  const Noise: string := "{MVC}"

  /** `n` noise lines, each dispatched and counted. */
  function NoiseLines(n: nat): (s: seq<string>)
    ensures |s| == n && forall i :: 0 <= i < n ==> s[i] == Noise
  {
    seq(n, _ => Noise)
  }

  lemma NoiseHandled(st: Session)
    ensures HandleMessage(st, Noise) == Done(st, [PortOk], [])
  {
    assert Handle(st, MVC, "") == Ignore(st);
    BareLineDispatch(st, MVC);
    assert "{" + Mnemonic(MVC) + "}" == Noise;
  }

  /** Once `n` more unrelated lines arrive while `WaitCap - n` have already
      been counted, the wait gives up with the next line unread. */
  lemma {:induction false} NoiseExhaustsWait(p: State, cmd: string, n: nat, tail: seq<string>)
    requires n <= WaitCap && cmd != "MVC"
    ensures Await(p, cmd, NoiseLines(n) + tail, WaitCap - n) == Gave(p.(rx := p.rx + 5 * n), tail)
    decreases n
  {
    var lines := NoiseLines(n) + tail;
    if n > 0 {
      assert lines[0] == Noise;
      assert lines[1..] == NoiseLines(n - 1) + tail;
      NoiseHandled(p.st);
      assert Long(Noise) && !Answers(Noise, cmd) by {
        assert Slice(Noise, 1, 4) == "MVC";
      }
      AwaitFirst(p, cmd, lines, WaitCap - n);
      var q := p.(rx := p.rx + 5);
      assert Receive(p, Noise).(st := p.st, sent := p.sent + []) == q;
      NoiseExhaustsWait(q, cmd, n - 1, tail);
    } else {
      assert lines == tail;
    }
  }

  /** A reply that arrives after 100 unrelated lines is missed: the wait has
      already given up, and the reply is left for the next opcode's wait. */
  lemma LateReplyMissed(p: State, cmd: string, reply: string)
    requires cmd != "MVC"
    ensures Await(p, cmd, NoiseLines(WaitCap) + [reply], 0) == Gave(p.(rx := p.rx + 5 * WaitCap), [reply])
  {
    NoiseExhaustsWait(p, cmd, WaitCap, [reply]);
  }

  // ---------------------------------------------------------------------------
  // One step of the main loop
  // ---------------------------------------------------------------------------

  /** One pass of `drive` with a port selected: a non-empty line is counted
      and dispatched, and a line whose characters 1 to 3 are `MIN` (the
      device's announcement) then runs the whole resync on the lines that
      follow. */
  function DriveStep(p: State, line: string, following: seq<string>): (r: Outcome)
    ensures line == "" ==> r == Completed(p, following)
    ensures r.Completed? && Slice(line, 1, 4) == "MIN" ==> r.progress.asked == p.asked + QueryOrder
    ensures r.Completed? && Slice(line, 1, 4) != "MIN" ==> r.rest == following && r.progress.asked == p.asked
    ensures line != "" && HandleMessage(p.st, line).Crashed? ==> r == Failed(HandleMessage(p.st, line).reason)
    ensures line != "" && Slice(line, 1, 4) != "MIN" ==> (r.Failed? <==> HandleMessage(p.st, line).Crashed?)
  {
    if |line| == 0 then Completed(p, following)
    else
      match HandleMessage(p.st, line)
      case Crashed(e) => Failed(e)
      case Done(st, _, out) =>
        var q := Receive(p, line).(st := st, sent := p.sent + out);
        if Slice(line, 1, 4) == "MIN" then
          ResyncShape(q, QueryOrder, following);
          ResyncFrom(q, QueryOrder, following)
        else Completed(q, following)
  }

  /** The device's announcement starts a resync that asks for every setting
      in order when the replies come in. */
  lemma AnnouncementStartsResync(p: State, text: string, following: seq<string>)
    ensures
      var line := InboundLine("MIN", text);
      DriveStep(p, line, following) == ResyncFrom(Receive(p, line), QueryOrder, following)
  {
    var line := InboundLine("MIN", text);
    AnnouncementHandled(p.st, text);
    assert Slice(line, 1, 4) == "MIN";
    assert p.sent + [] == p.sent;
  }

  /** Any other line is only handled: its handler's effects are recorded
      and the following lines are left for the next pass. */
  lemma OrdinaryLineHandled(p: State, line: string, following: seq<string>)
    requires line != "" && Slice(line, 1, 4) != "MIN"
    requires HandleMessage(p.st, line).Done?
    ensures var h := HandleMessage(p.st, line);
      DriveStep(p, line, following) == Completed(Receive(p, line).(st := h.session, sent := p.sent + h.sent), following)
  {
  }

  /** The announcement is logged and changes nothing else. */
  lemma AnnouncementHandled(st: Session, text: string)
    ensures HandleMessage(st, InboundLine("MIN", text)) == Done(st, [PortOk, Log(text), PortOk], [])
  {
    DeviceLineDispatch(st, MIN, text);
  }
}
