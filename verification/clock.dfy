/** The mirror clock: a local hh:mm:ss display clock that advances one second
    per timer kick and is re-locked whenever an authoritative GPS time string
    arrives. The timer itself is reduced to an `armed` flag: a tick is pending
    exactly when the flag is set. */
module MirrorClock {
  import opened Text

  datatype Clock = Clock(hour: int, minute: int, second: int, armed: bool)

  const DaySeconds: int := 86400

  /** The clock as it starts: midnight, no tick pending. */
  const Initial: Clock := Clock(0, 0, 0, false)

  predicate Valid(c: Clock) {
    0 <= c.hour <= 23 && 0 <= c.minute <= 59 && 0 <= c.second <= 59
  }

  function SecondOfDay(c: Clock): int {
    c.hour * 3600 + c.minute * 60 + c.second
  }

  /** One timer kick: the second advances and carries into the minute and the
      hour; the hour wraps after 23. The kick re-arms the timer. On a valid
      clock this is one step of seconds-of-day modulo a day. */
  function Tick(c: Clock): (r: Clock)
    ensures r.armed
    ensures Valid(c) ==> Valid(r)
  {
    var s := c.second + 1;
    if s > 59 then
      var m := c.minute + 1;
      if m > 59 then
        var h := c.hour + 1;
        Clock(if h > 23 then 0 else h, 0, 0, true)
      else Clock(c.hour, m, 0, true)
    else Clock(c.hour, c.minute, s, true)
  }

  /** On a valid clock a tick is one step of seconds-of-day modulo a day. */
  lemma TickAdvancesOneSecond(c: Clock)
    requires Valid(c)
    ensures Valid(Tick(c))
    ensures SecondOfDay(Tick(c)) == (SecondOfDay(c) + 1) % DaySeconds
  {
    var x := SecondOfDay(c);
    var r := Tick(c);
    if c.second < 59 {
      assert r == c.(second := c.second + 1, armed := true);
      ModBelow(x + 1);
    } else if c.minute < 59 {
      assert r == Clock(c.hour, c.minute + 1, 0, true);
      ModBelow(x + 1);
    } else if c.hour < 23 {
      assert r == Clock(c.hour + 1, 0, 0, true);
      ModBelow(x + 1);
    } else {
      assert r == Clock(0, 0, 0, true);
      assert x + 1 == DaySeconds;
    }
  }

  lemma ModBelow(y: int)
    requires 0 <= y < DaySeconds
    ensures y % DaySeconds == y
  {
  }

  /** The text the clock publishes: each field at least two digits wide. */
  function TimeString(c: Clock): string {
    FormatInt(c.hour, 2) + ":" + FormatInt(c.minute, 2) + ":" + FormatInt(c.second, 2)
  }

  /** What assigning a string to the clock's time does. The pending tick is
      always cancelled first. `Stored` is the normal case and re-arms the
      timer; `Rejected` is a string that does not split into three
      `:`-separated parts (the setter returns -1); `ParseFailure` is a part
      that `int()` cannot read, which raises ValueError to the caller. */
  datatype SetResult = Stored(clock: Clock) | Rejected(clock: Clock) | ParseFailure(clock: Clock)

  function SetTime(c: Clock, data: string): (r: SetResult)
    ensures r.Stored? ==> r.clock.armed
    ensures !r.Stored? ==> r.clock == c.(armed := false)
    ensures r.Rejected? <==> |Split(data, ':')| != 3
    ensures r.ParseFailure? <==> var p := Split(data, ':');
      |p| == 3 && (ParseInt(p[0]).None? || ParseInt(p[1]).None? || ParseInt(p[2]).None?)
    ensures r.Stored? ==> var p := Split(data, ':');
      |p| == 3 && ParseInt(p[0]) == Some(r.clock.hour) && ParseInt(p[1]) == Some(r.clock.minute) && ParseInt(p[2]) == Some(r.clock.second)
  {
    var cancelled := c.(armed := false);
    var parts := Split(data, ':');
    if |parts| != 3 then Rejected(cancelled)
    else
      match (ParseInt(parts[0]), ParseInt(parts[1]), ParseInt(parts[2]))
      case (Some(h), Some(m), Some(s)) => Stored(Clock(h, m, s, true))
      case _ => ParseFailure(cancelled)
  }

  /** Setting the clock from the text it publishes restores the same fields,
      whatever they are: the setter performs no range check. */
  lemma SetTimeString(c: Clock, prev: Clock)
    ensures SetTime(prev, TimeString(c)) == Stored(c.(armed := true))
  {
    SplitTimeString(c);
    ParseFormatInt(c.hour, 2);
    ParseFormatInt(c.minute, 2);
    ParseFormatInt(c.second, 2);
  }

  lemma SplitTimeString(c: Clock)
    ensures Split(TimeString(c), ':') == [FormatInt(c.hour, 2), FormatInt(c.minute, 2), FormatInt(c.second, 2)]
  {
    var h, m, s := FormatInt(c.hour, 2), FormatInt(c.minute, 2), FormatInt(c.second, 2);
    FormatHasNoColon(c.hour, 2);
    FormatHasNoColon(c.minute, 2);
    FormatHasNoColon(c.second, 2);
    assert TimeString(c) == h + [':'] + (m + [':'] + s);
    SplitFirst(h, ':', m + [':'] + s);
    SplitFirst(m, ':', s);
    SplitNoSep(s, ':');
  }

  lemma FormatHasNoColon(n: int, w: nat)
    ensures ':' !in FormatInt(n, w)
  {
    var d := ZeroPad(if n >= 0 then n else -n, if n >= 0 || w == 0 then w else w - 1);
    assert forall i :: 0 <= i < |d| ==> d[i] != ':';
  }

  /** The last second of the day rolls all three fields over at once. */
  lemma MidnightRollover(c: Clock)
    ensures SetTime(c, "23:59:59") == Stored(Clock(23, 59, 59, true))
    ensures TimeString(Tick(SetTime(c, "23:59:59").clock)) == "00:00:00"
  {
    TwoDigits(23);
    TwoDigits(59);
    TwoDigits(0);
    assert TimeString(Clock(23, 59, 59, true)) == "23:59:59";
    SetTimeString(Clock(23, 59, 59, true), c);
    assert Tick(Clock(23, 59, 59, true)) == Clock(0, 0, 0, true);
    assert TimeString(Clock(0, 0, 0, true)) == "00:00:00";
  }

  lemma TwoDigits(n: nat)
    requires n < 100
    ensures FormatInt(n, 2) == [DigitChar(n / 10), DigitChar(n % 10)]
  {
    if n >= 10 {
      assert Decimal(n) == Decimal(n / 10) + [DigitChar(n % 10)];
    }
  }

  /** A string without exactly two colons is refused, the displayed fields
      stay as they were and the clock stops until the next good time. */
  lemma BadTimeKeepsFields(c: Clock)
    ensures SetTime(c, "bad") == Rejected(c.(armed := false))
  {
    SplitNoSep("bad", ':');
  }

  /** GPS time pushed without separators (six digits) is refused too. */
  lemma CompactTimeRejected(c: Clock)
    ensures SetTime(c, "123456") == Rejected(c.(armed := false))
  {
    SplitNoSep("123456", ':');
  }
}
