/** Opcode dispatch and the per-opcode payload handlers of the controller,
    together with the user-action encoders whose commands the handlers can
    trigger. A handler never reads anything back from the display: it
    updates the small session state the controller owns (frequency register,
    mirror clock, pending satellite lines), emits display events, and may
    send commands, typically a corrective `G` query on its own opcode. A
    Python exception raised on the way is a `Crashed` outcome. */
module Dispatcher {
  import opened Text
  import opened FrameCodec
  import opened MirrorClock
  import FrequencyRegister

  // ---------------------------------------------------------------------------
  // Device constants
  // ---------------------------------------------------------------------------

  /** The sixteen bands the device knows, by index. */
  const Bands: seq<string> := ["2190m", "630m", "160m", "80m", "40m", "30m", "20m", "17m",
                               "15m", "12m", "10m", "6m", "4m", "2m", "70cm", "23cm"]

  /** The reportable power levels in dBm, as offered to the user. */
  const Powers: seq<string> := ["0", "3", "7", "10", "13", "17", "20", "23", "27", "30",
                                "33", "37", "40", "43", "47", "50", "53", "57", "60"]

  /** Highest reportable power; larger reports are capped to it. */
  const MaxPower: nat := 60

  /** Largest pause (in seconds) the five-digit field can carry. */
  const MaxPause: nat := 99999

  // ---------------------------------------------------------------------------
  // Outcomes
  // ---------------------------------------------------------------------------

  /** The Python exceptions a handler can raise; each one ends the program. */
  datatype Crash = IndexError | ValueError | NameError

  datatype DiagKind = ShortMessage | UnknownOpcode | BadPayload

  datatype Mode = Idle | Beacon | Generator

  /** What the controller pushes to the display (and the diagnostic stream). */
  datatype Event =
    | PortOk
    | Diag(kind: DiagKind, op: string, text: string)
    | ShowMode(mode: Mode)
    | PauseTime(seconds: int)
    | BootMode(boot: char)
    | BandEnabled(index: nat, enabled: bool)
    | LocationSource(source: char)
    | PowerReport(report: char)
    | Callsign(call: string)
    | Locator(locator: string)
    | ReportedPower(power: string)
    | DeviceName(name: string)
    | FrequencyDigits(digits: seq<nat>)
    | Device(model: string)
    | HardwareVersion(version: string)
    | HardwareRevision(revision: string)
    | FirmwareVersion(version: string)
    | FirmwareRevision(revision: string)
    | FilterInstalled(filter: nat)
    | Position(position: string)
    | Time(time: string)
    | SatellitePlot(lines: seq<string>)
    | GpsLock(locked: bool)
    | TxFrequency(frequency: string)
    | Transmitting(keyed: bool)
    | Active(band: int, transmitting: bool)
    | Progress(band: int, seconds: int)
    | Log(text: string)

  /** The state the controller itself owns across messages. */
  datatype Session = Session(fq: nat, clock: Clock, sats: seq<string>)

  const Start: Session := Session(FrequencyRegister.Initial, MirrorClock.Initial, [])

  datatype Outcome =
    | Done(session: Session, events: seq<Event>, sent: seq<Command>)
    | Crashed(reason: Crash)

  function Bad(st: Session, op: string, data: string): Outcome {
    Done(st, [Diag(BadPayload, op, data)], [])
  }

  function BadQuery(st: Session, op: string, data: string): Outcome {
    Done(st, [Diag(BadPayload, op, data)], [Query(op)])
  }

  function Show(st: Session, e: Event): Outcome {
    Done(st, [e], [])
  }

  // ---------------------------------------------------------------------------
  // User-action encoders
  // ---------------------------------------------------------------------------

  /** `bandCheck`: one enable/disable command per band, in band order. */
  function BandCheck(enabled: seq<bool>): (cmds: seq<Command>)
    requires |enabled| == |Bands|
    ensures |cmds| == |Bands|
    ensures forall i :: 0 <= i < |cmds| ==> cmds[i].op == "OBD" && |cmds[i].data| == 6
  {
    seq(|Bands|, i requires 0 <= i < |Bands| => BandCommand(i, enabled[i]))
  }

  /** The command for one band: its index as two digits, then E or D. */
  function BandCommand(band: nat, on: bool): (c: Command)
    requires band < |Bands|
    ensures c.op == "OBD" && |c.data| == 6
    ensures c.data[2..4] == ZeroPad(band, 2) && c.data[4] == ' ' && c.data[5] == (if on then 'E' else 'D')
  {
    ZeroPadValue(band, 2);
    assert Pow10(2) == 100;
    Command("OBD", "S " + FormatInt(band, 2) + (if on then " E" else " D"))
  }

  /** `pauseUpdate`: a pause that does not fit five digits is not sent; the
      device is asked for its value instead. */
  function PauseUpdate(t: int): (c: Command)
    ensures c.op == "OTP"
    ensures t > MaxPause <==> c == Query("OTP")
    ensures 0 <= t <= MaxPause ==> |c.data| == 7 && ParseInt(c.data[2..]) == Some(t)
  {
    if t > MaxPause then Query("OTP")
    else
      var c := Command("OTP", "S " + FormatInt(t, 5));
      ParseFormatInt(t, 5);
      assert c.data[2..] == FormatInt(t, 5);
      if t >= 0 then PauseDigits(t); c else c
  }

  /** A pause that fits is written as exactly five digits. */
  lemma PauseDigits(t: nat)
    requires t <= MaxPause
    ensures FormatInt(t, 5) == ZeroPad(t, 5) && |ZeroPad(t, 5)| == 5
    ensures IsDigits(ZeroPad(t, 5)) && ValueOf(ZeroPad(t, 5)) == t
  {
    ZeroPadValue(t, 5);
    assert Pow10(5) == 100000;
  }

  /** `rpwrUpdate`: the selected power as two digits; a selection `int()`
      cannot read raises ValueError (None here). */
  function RpwrUpdate(t: string): (c: Option<Command>)
    ensures c.None? <==> ParseInt(t).None?
    ensures c.Some? ==> c.value.op == "DPD" && |c.value.data| >= 2 && ParseInt(c.value.data[2..]) == ParseInt(t)
  {
    match ParseInt(t)
    case None => None
    case Some(v) =>
      ParseFormatInt(v, 2);
      var c := Command("DPD", "S " + FormatInt(v, 2));
      assert c.data[2..] == FormatInt(v, 2);
      Some(c)
  }

  /** `callUpdate`, which runs whenever the callsign field is written. A
      callsign longer than six characters is cut to six by writing the field
      again; Tk runs no trace of a variable while one of its traces is
      running, so that write does not call `callUpdate` again and `setCall`
      is not reached. The value as typed is then sent, uncut. A short enough
      callsign goes through `setCall`, which stops the beacon and sends it,
      and is then sent once more. Returns what the field finally shows and
      the commands sent. */
  function CallUpdate(v: string): (r: (string, seq<Command>))
    ensures |r.0| == (if |v| <= 6 then |v| else 6) && r.0 == v[..|r.0|]
    ensures |r.1| == (if |v| <= 6 then 3 else 1)
    ensures r.1[0] == Command("CCM", "S N") <==> |v| <= 6
    ensures forall i :: 0 <= i < |r.1| ==> r.1[i].data != Get
    ensures forall i :: (if |v| <= 6 then 1 else 0) <= i < |r.1| ==> r.1[i] == Command("DCS", "S " + v)
  {
    if |v| > 6 then (v[..6], [Command("DCS", "S " + v)])
    else (v, [Command("CCM", "S N"), Command("DCS", "S " + v), Command("DCS", "S " + v)])
  }

  /** The remaining user actions. Each sends one fixed command. */
  datatype Action =
    | StartBeacon | Stop | StartGenerator | LocationFromGps | LocationManual
    | PowerNormal | PowerAltitude | Boot(mode: string) | Location(locator: string)
    | Name(name: string) | SaveSettings

  function ActionCommands(a: Action): (cmds: seq<Command>)
    ensures |cmds| == 1
    ensures |cmds[0].op| == 3 && cmds[0].data != Get && |cmds[0].data| >= 1 && cmds[0].data[0] == 'S'
  {
    match a
    case StartBeacon => [Command("CCM", "S W")]
    case Stop => [Command("CCM", "S N")]
    case StartGenerator => [Command("CCM", "S S")]
    case LocationFromGps => [Command("OLC", "S G")]
    case LocationManual => [Command("OLC", "S M")]
    case PowerNormal => [Command("OPW", "S N")]
    case PowerAltitude => [Command("OPW", "S A")]
    case Boot(b) => [Command("OSM", "S " + b)]
    case Location(l) => [Command("DL4", "S " + l)]
    case Name(n) => [Command("DNM", "S " + n)]
    case SaveSettings => [Command("CSE", "S")]
  }

  // ---------------------------------------------------------------------------
  // Handlers
  // ---------------------------------------------------------------------------

  /** Current mode: the first character selects idle, beacon or generator;
      anything else is reported and re-queried. An empty payload reaches a
      misspelt `sendport`, a NameError. */
  function HandleCCM(st: Session, data: string): (r: Outcome)
    ensures r.Crashed? <==> data == ""
    ensures r.Done? ==> r.session == st
    ensures r.Done? ==> (r.sent == [] <==> data[0] in "NWS")
    ensures r.Done? && r.sent != [] ==> r.sent == [Query("CCM")] && r.events == [Diag(BadPayload, "CCM", data)]
    ensures data != "" && data[0] == 'N' ==> r.events == [ShowMode(Idle)]
    ensures data != "" && data[0] == 'W' ==> r.events == [ShowMode(Beacon)]
    ensures data != "" && data[0] == 'S' ==> r.events == [ShowMode(Generator)]
  {
    if |data| < 1 then Crashed(NameError)
    else if data[0] == 'N' then Show(st, ShowMode(Idle))
    else if data[0] == 'W' then Show(st, ShowMode(Beacon))
    else if data[0] == 'S' then Show(st, ShowMode(Generator))
    else BadQuery(st, "CCM", data)
  }

  /** Transmit pause: a digit payload becomes the pause field, and writing
      that field sends it straight back as a pause setting. */
  function HandleOTP(st: Session, data: string): (r: Outcome)
    ensures r.Done? && r.session == st
    ensures IsDigits(data) ==> r.events == [PauseTime(ValueOf(data))] && r.sent == [PauseUpdate(ValueOf(data))]
    ensures !IsDigits(data) ==> r.sent == [Query("OTP")]
  {
    if IsDigits(data) then
      var v := ValueOf(data);
      Done(st, [PauseTime(v)], [PauseUpdate(v)])
    else BadQuery(st, "OTP", data)
  }

  /** Start mode: one of N, W, S. */
  function HandleOSM(st: Session, data: string): (r: Outcome)
    ensures r.Crashed? <==> data == ""
    ensures r.Done? ==> r.session == st && (r.sent == [] <==> data[0] in "NWS")
    ensures r.Done? ==> r.events == if data[0] in "NWS" then [BootMode(data[0])] else [Diag(BadPayload, "OSM", data)]
  {
    if |data| < 1 then Crashed(IndexError)
    else if data[0] in "NWS" then Show(st, BootMode(data[0]))
    else BadQuery(st, "OSM", data)
  }

  /** Index into the sixteen band widgets the way Python indexes a list:
      negative indices count from the end. */
  function BandIndex(f: int): (r: Option<nat>)
    ensures r.Some? <==> -|Bands| <= f < |Bands|
    ensures r.Some? ==> r.value < |Bands| && (r.value - f) % |Bands| == 0
  {
    if 0 <= f < |Bands| then Some(f)
    else if -|Bands| <= f < 0 then Some(f + |Bands|)
    else None
  }

  /** Band enable: `BB X` with a band number and E or D. */
  function HandleOBD(st: Session, data: string): (r: Outcome)
    ensures r.Done? ==> r.session == st
    ensures ParseInt(Slice(data, 0, 2)).None? ==> r == Crashed(ValueError)
  {
    match ParseInt(Slice(data, 0, 2))
    case None => Crashed(ValueError)
    case Some(f) =>
      if |data| < 4 then Crashed(IndexError)
      else if data[3] == 'E' || data[3] == 'D' then
        match BandIndex(f)
        case None => Crashed(IndexError)
        case Some(b) => Show(st, BandEnabled(b, data[3] == 'E'))
      else BadQuery(st, "OBD", data)
  }

  /** Location source: G (from GPS) or M (manual). */
  function HandleOLC(st: Session, data: string): (r: Outcome)
    ensures r.Crashed? <==> data == ""
    ensures r.Done? ==> r.session == st && (r.sent == [] <==> data[0] in "GM")
    ensures r.Done? ==> r.events == if data[0] in "GM" then [LocationSource(data[0])] else [Diag(BadPayload, "OLC", data)]
  {
    if |data| < 1 then Crashed(IndexError)
    else if data[0] == 'G' then Show(st, LocationSource('G'))
    else if data[0] == 'M' then Show(st, LocationSource('M'))
    else BadQuery(st, "OLC", data)
  }

  /** Power reporting: N (normal) or A (altitude). */
  function HandleOPW(st: Session, data: string): (r: Outcome)
    ensures r.Crashed? <==> data == ""
    ensures r.Done? ==> r.session == st && (r.sent == [] <==> data[0] in "NA")
    ensures r.Done? ==> r.events == if data[0] in "NA" then [PowerReport(data[0])] else [Diag(BadPayload, "OPW", data)]
  {
    if |data| < 1 then Crashed(IndexError)
    else if data[0] == 'N' then Show(st, PowerReport('N'))
    else if data[0] == 'A' then Show(st, PowerReport('A'))
    else BadQuery(st, "OPW", data)
  }

  /** Callsign: shown unchecked; writing the field runs `callUpdate`. */
  function HandleDCS(st: Session, data: string): (r: Outcome)
    ensures r.Done? && r.session == st
    ensures |data| <= 6 ==> r.events == [Callsign(data)]
    ensures |data| > 6 ==> r.events == [Callsign(data[..6])]
    ensures r.sent != [] && r.sent[|r.sent| - 1] == Command("DCS", "S " + data)
    ensures r.sent[0] == Command("CCM", "S N") <==> |data| <= 6
  {
    var u := CallUpdate(data);
    Done(st, [Callsign(u.0)], u.1)
  }

  /** Locator: shown unchecked; writing the field sends it back. */
  function HandleDL4(st: Session, data: string): (r: Outcome)
    ensures r == Done(st, [Locator(data)], ActionCommands(Location(data)))
  {
    Done(st, [Locator(data)], [Command("DL4", "S " + data)])
  }

  /** Reported power: digits, capped at 60 and shown without leading zeros;
      anything else is re-queried without a diagnostic. */
  function HandleDPD(st: Session, data: string): (r: Outcome)
    ensures r.Done? && r.session == st
    ensures IsDigits(data) <==> r.sent == []
    ensures !IsDigits(data) ==> r == Done(st, [], [Query("DPD")])
    ensures IsDigits(data) ==> |r.events| == 1 && r.events[0].ReportedPower?
    ensures IsDigits(data) ==> ParseInt(r.events[0].power) == Some(if ValueOf(data) > MaxPower then MaxPower else ValueOf(data))
  {
    if IsDigits(data) then
      var p := if ValueOf(data) > MaxPower then MaxPower else ValueOf(data);
      DecimalValue(p);
      ParseDigits(Decimal(p));
      Show(st, ReportedPower(Decimal(p)))
    else Done(st, [], [Query("DPD")])
  }

  /** Device name: shown unchecked; writing the field sends it back. */
  function HandleDNM(st: Session, data: string): (r: Outcome)
    ensures r == Done(st, [DeviceName(data)], ActionCommands(Name(data)))
  {
    Done(st, [DeviceName(data)], [Command("DNM", "S " + data)])
  }

  /** Generator frequency: only exactly twelve digits are accepted; they
      become the register value and are split into the display digits. */
  function HandleDGF(st: Session, data: string): (r: Outcome)
    ensures r.Done?
    ensures r.sent == [] <==> |data| == 12 && IsDigits(data)
    ensures r.sent != [] ==> r == BadQuery(st, "DGF", data)
    ensures r.sent == [] ==> r.session == st.(fq := ValueOf(data)) && FrequencyRegister.Renderable(r.session.fq)
    ensures r.sent == [] ==> r.events == [FrequencyDigits(FrequencyRegister.Display(data))]
  {
    if |data| == 12 && IsDigits(data) then
      ValueOfBound(data);
      FrequencyRegister.PowersOfTen();
      Done(st.(fq := ValueOf(data)), [FrequencyDigits(FrequencyRegister.Display(data))], [])
    else BadQuery(st, "DGF", data)
  }

  /** Low-pass filter report as written: `data[2:]` must be digits (else a
      diagnostic that names an undefined variable, a NameError), a filter
      number above 16 is reported, and the rest index the sixteen filter
      indicators, so 16 itself raises IndexError. */
  function HandleFLPAsWritten(st: Session, data: string): (r: Outcome)
    ensures r.Crashed? ==> r.reason != ValueError
    ensures r.Done? ==> r.session == st && r.sent == []
  {
    var v := Slice(data, 2, |data|);
    if !IsDigits(v) then Crashed(NameError)
    else if ValueOf(v) > |Bands| then Bad(st, "FLP", data)
    else if ValueOf(v) < |Bands| then Show(st, FilterInstalled(ValueOf(v)))
    else Crashed(IndexError)
  }

  /** Low-pass filter report with the bound check the indicator list needs
      (`>=` instead of `>`): every digit payload is handled without an
      exception and only existing filters are marked installed. */
  function HandleFLP(st: Session, data: string): (r: Outcome)
    ensures r.Crashed? <==> !IsDigits(Slice(data, 2, |data|))
    ensures r.Crashed? ==> r.reason == NameError
    ensures r.Done? ==> r.session == st && r.sent == [] && |r.events| == 1
    ensures r.Done? && r.events[0].FilterInstalled? ==> r.events[0].filter < |Bands|
    ensures r.Done? ==> (r.events[0].FilterInstalled? <==> ValueOf(Slice(data, 2, |data|)) < |Bands|)
  {
    var v := Slice(data, 2, |data|);
    if !IsDigits(v) then Crashed(NameError)
    else if ValueOf(v) >= |Bands| then Bad(st, "FLP", data)
    else Show(st, FilterInstalled(ValueOf(v)))
  }

  /** GPS time: shown, and written to the mirror clock; a time part that
      `int()` rejects raises ValueError. Pending satellite lines are then
      handed to the plot (which draws `Satellites.Summarize` of them) and
      cleared. */
  function HandleGTM(st: Session, data: string): (r: Outcome)
    ensures r.Crashed? <==> SetTime(st.clock, data).ParseFailure?
    ensures r.Crashed? ==> r.reason == ValueError
    ensures r.Done? ==> r.session.clock == SetTime(st.clock, data).clock && r.session.fq == st.fq
    ensures r.Done? ==> r.session.sats == [] && r.sent == [] && |r.events| >= 1 && r.events[0] == Time(data)
    ensures r.Done? ==> (|r.events| == 2 <==> st.sats != [])
    ensures r.Done? && st.sats != [] ==> r.events[1] == SatellitePlot(st.sats)
  {
    var result := SetTime(st.clock, data);
    if result.ParseFailure? then Crashed(ValueError)
    else
      var plot := if |st.sats| > 0 then [SatellitePlot(st.sats)] else [];
      Done(Session(st.fq, result.clock, []), [Time(data)] + plot, [])
  }

  /** GPS lock: T or F; anything else is only reported. */
  function HandleGLC(st: Session, data: string): (r: Outcome)
    ensures r.Crashed? <==> data == ""
    ensures r.Done? ==> r.session == st && r.sent == []
    ensures r.Done? ==> r.events == if data[0] in "TF" then [GpsLock(data[0] == 'T')] else [Diag(BadPayload, "GLC", data)]
  {
    if |data| < 1 then Crashed(IndexError)
    else if data[0] == 'F' then Show(st, GpsLock(false))
    else if data[0] == 'T' then Show(st, GpsLock(true))
    else Bad(st, "GLC", data)
  }

  /** Satellite info: kept, unchecked, until the next GPS time. */
  function HandleGSI(st: Session, data: string): (r: Outcome)
    ensures r.Done? && r.events == [] && r.sent == []
    ensures r.session.fq == st.fq && r.session.clock == st.clock
    ensures |r.session.sats| == |st.sats| + 1 && r.session.sats[..|st.sats|] == st.sats && r.session.sats[|st.sats|] == data
  {
    Done(st.(sats := st.sats + [data]), [], [])
  }

  /** Transmit frequency: digits are shown, anything else reported. */
  function HandleTFQ(st: Session, data: string): (r: Outcome)
    ensures r.Done? && r.session == st && r.sent == []
    ensures r.events == [TxFrequency(data)] <==> IsDigits(data)
    ensures !IsDigits(data) ==> r.events == [Diag(BadPayload, "TFQ", data)]
  {
    if IsDigits(data) then Show(st, TxFrequency(data)) else Bad(st, "TFQ", data)
  }

  /** Transmitter on: T or F; anything else is re-queried. */
  function HandleTON(st: Session, data: string): (r: Outcome)
    ensures r.Crashed? <==> data == ""
    ensures r.Done? ==> r.session == st && (r.sent == [] <==> data[0] in "TF")
    ensures r.Done? ==> r.events == if data[0] in "TF" then [Transmitting(data[0] == 'T')] else [Diag(BadPayload, "TON", data)]
  {
    if |data| < 1 then Crashed(IndexError)
    else if data[0] == 'T' then Show(st, Transmitting(true))
    else if data[0] == 'F' then Show(st, Transmitting(false))
    else BadQuery(st, "TON", data)
  }

  /** Pause progress: marks the pause row active, then shows the seconds. */
  function HandleMPS(st: Session, data: string): (r: Outcome)
    ensures r.Done? && r.session == st && r.sent == [] && |r.events| == 2
    ensures r.events[0] == Active(-1, false)
    ensures r.events[1].Progress? <==> IsDigits(data)
    ensures IsDigits(data) ==> r.events[1] == Progress(-1, ValueOf(data))
    ensures !IsDigits(data) ==> r.events[1] == Diag(BadPayload, "MPS", data)
  {
    if IsDigits(data) then Done(st, [Active(-1, false), Progress(-1, ValueOf(data))], [])
    else Done(st, [Active(-1, false), Diag(BadPayload, "MPS", data)], [])
  }

  /** Informational message: logged; it also shows the port as working. */
  function HandleMIN(st: Session, data: string): (r: Outcome)
    ensures r.Done? && r.session == st && r.sent == []
    ensures |r.events| == 2 && r.events[0] == Log(data) && r.events[|r.events| - 1] == PortOk
  {
    Done(st, [Log(data), PortOk], [])
  }

  /** Next transmitting band: a digit payload marks that band. */
  function HandleTBN(st: Session, data: string): (r: Outcome)
    ensures r.Done? && r.session == st && r.sent == []
    ensures |r.events| == 1 && (r.events[0].Active? <==> IsDigits(data))
    ensures IsDigits(data) ==> r.events[0] == Active(ValueOf(data), false)
  {
    if !IsDigits(data) then Bad(st, "TBN", data) else Show(st, Active(ValueOf(data), false))
  }

  /** Transmitting band status: `BB SSS`, band and seconds into the slot. */
  function HandleTWS(st: Session, data: string): (r: Outcome)
    ensures r.Done? && r.session == st && r.sent == []
    ensures |r.events| >= 1 && (r.events[0].Active? <==> IsDigits(Slice(data, 0, 2)))
    ensures IsDigits(Slice(data, 0, 2)) ==> |r.events| == 2 && r.events[0] == Active(ValueOf(Slice(data, 0, 2)), true)
    ensures IsDigits(Slice(data, 0, 2)) ==> (r.events[1].Progress? <==> IsDigits(Slice(data, 3, 6)))
    ensures IsDigits(Slice(data, 0, 2)) && IsDigits(Slice(data, 3, 6)) ==>
      r.events[1] == Progress(ValueOf(Slice(data, 0, 2)), ValueOf(Slice(data, 3, 6)))
    ensures IsDigits(Slice(data, 0, 2)) && !IsDigits(Slice(data, 3, 6)) ==> r.events[1] == Diag(BadPayload, "MPS", data)
    ensures !IsDigits(Slice(data, 0, 2)) ==> r.events == [Diag(BadPayload, "TWS", data)]
  {
    var b := Slice(data, 0, 2);
    if !IsDigits(b) then Bad(st, "TWS", data)
    else
      var v := ValueOf(b);
      var s := Slice(data, 3, 6);
      if IsDigits(s) then Done(st, [Active(v, true), Progress(v, ValueOf(s))], [])
      else Done(st, [Active(v, true), Diag(BadPayload, "MPS", data)], [])
  }

  function ShowOnly(st: Session, e: Event): (r: Outcome)
    ensures r.Done? && r.session == st && r.sent == []
  {
    Show(st, e)
  }

  function Ignore(st: Session): (r: Outcome)
    ensures r.Done? && r.session == st && r.events == [] && r.sent == []
  {
    Done(st, [], [])
  }

  // ---------------------------------------------------------------------------
  // Dispatch
  // ---------------------------------------------------------------------------

  /** The opcodes that have a handler. */
  datatype Opcode =
    | CCM | OTP | OSM | OBD | OLC | OPW
    | DCS | DL4 | DPD | DNM | DGF
    | FPN | FHV | FHR | FSV | FSR | FRF | FLP
    | GL4 | GTM | GLC | GSI | TFQ | TON | MPS
    | MIN | LPI | MVC | TBN | TWS | TCC

  /** The three letters of an opcode as they appear on the wire. */
  function Mnemonic(code: Opcode): (op: string)
    ensures |op| == 3
  {
    match code
    case CCM => "CCM"
    case OTP => "OTP"
    case OSM => "OSM"
    case OBD => "OBD"
    case OLC => "OLC"
    case OPW => "OPW"
    case DCS => "DCS"
    case DL4 => "DL4"
    case DPD => "DPD"
    case DNM => "DNM"
    case DGF => "DGF"
    case FPN => "FPN"
    case FHV => "FHV"
    case FHR => "FHR"
    case FSV => "FSV"
    case FSR => "FSR"
    case FRF => "FRF"
    case FLP => "FLP"
    case GL4 => "GL4"
    case GTM => "GTM"
    case GLC => "GLC"
    case GSI => "GSI"
    case TFQ => "TFQ"
    case TON => "TON"
    case MPS => "MPS"
    case MIN => "MIN"
    case LPI => "LPI"
    case MVC => "MVC"
    case TBN => "TBN"
    case TWS => "TWS"
    case TCC => "TCC"
  }

  /** The handler table: the opcode a three-letter mnemonic selects, if any. */
  function Lookup(op: string): Option<Opcode> {
    if |op| != 3 then None
    else
      match (op[0], op[1], op[2])
      case ('C', 'C', 'M') => Some(CCM)
      case ('O', 'T', 'P') => Some(OTP)
      case ('O', 'S', 'M') => Some(OSM)
      case ('O', 'B', 'D') => Some(OBD)
      case ('O', 'L', 'C') => Some(OLC)
      case ('O', 'P', 'W') => Some(OPW)
      case ('D', 'C', 'S') => Some(DCS)
      case ('D', 'L', '4') => Some(DL4)
      case ('D', 'P', 'D') => Some(DPD)
      case ('D', 'N', 'M') => Some(DNM)
      case ('D', 'G', 'F') => Some(DGF)
      case ('F', 'P', 'N') => Some(FPN)
      case ('F', 'H', 'V') => Some(FHV)
      case ('F', 'H', 'R') => Some(FHR)
      case ('F', 'S', 'V') => Some(FSV)
      case ('F', 'S', 'R') => Some(FSR)
      case ('F', 'R', 'F') => Some(FRF)
      case ('F', 'L', 'P') => Some(FLP)
      case ('G', 'L', '4') => Some(GL4)
      case ('G', 'T', 'M') => Some(GTM)
      case ('G', 'L', 'C') => Some(GLC)
      case ('G', 'S', 'I') => Some(GSI)
      case ('T', 'F', 'Q') => Some(TFQ)
      case ('T', 'O', 'N') => Some(TON)
      case ('M', 'P', 'S') => Some(MPS)
      case ('M', 'I', 'N') => Some(MIN)
      case ('L', 'P', 'I') => Some(LPI)
      case ('M', 'V', 'C') => Some(MVC)
      case ('T', 'B', 'N') => Some(TBN)
      case ('T', 'W', 'S') => Some(TWS)
      case ('T', 'C', 'C') => Some(TCC)
      case _ => None
  }

  /** The table selects every opcode by its own mnemonic and nothing else. */
  lemma HandlerTable(code: Opcode)
    ensures Lookup(Mnemonic(code)) == Some(code)
  {
  }

  lemma HandlerTableExact(op: string)
    requires Lookup(op).Some?
    ensures Mnemonic(Lookup(op).value) == op
  {
    var m := Mnemonic(Lookup(op).value);
    assert m[0] == op[0] && m[1] == op[1] && m[2] == op[2];
  }

  /** Runs the handler of one opcode. Only the generator frequency changes
      the register, only GPS time changes the clock, and only GPS time and
      satellite info change the pending satellite lines. */
  function Handle(st: Session, code: Opcode, data: string): (r: Outcome)
    ensures r.Done? && code != DGF ==> r.session.fq == st.fq
    ensures r.Done? && code != GTM ==> r.session.clock == st.clock
    ensures r.Done? && code != GTM && code != GSI ==> r.session.sats == st.sats
    ensures r.Done? && FrequencyRegister.Renderable(st.fq) ==> FrequencyRegister.Renderable(r.session.fq)
  {
    match code
    case CCM => HandleCCM(st, data)
    case OTP => HandleOTP(st, data)
    case OSM => HandleOSM(st, data)
    case OBD => HandleOBD(st, data)
    case OLC => HandleOLC(st, data)
    case OPW => HandleOPW(st, data)
    case DCS => HandleDCS(st, data)
    case DL4 => HandleDL4(st, data)
    case DPD => HandleDPD(st, data)
    case DNM => HandleDNM(st, data)
    case DGF => HandleDGF(st, data)
    case FPN => ShowOnly(st, Device(data))
    case FHV => ShowOnly(st, HardwareVersion(data))
    case FHR => ShowOnly(st, HardwareRevision(data))
    case FSV => ShowOnly(st, FirmwareVersion(data))
    case FSR => ShowOnly(st, FirmwareRevision(data))
    case FRF => Ignore(st)
    case FLP => HandleFLP(st, data)
    case GL4 => ShowOnly(st, Position(data))
    case GTM => HandleGTM(st, data)
    case GLC => HandleGLC(st, data)
    case GSI => HandleGSI(st, data)
    case TFQ => HandleTFQ(st, data)
    case TON => HandleTON(st, data)
    case MPS => HandleMPS(st, data)
    case MIN => HandleMIN(st, data)
    case LPI => Ignore(st)
    case MVC => Ignore(st)
    case TBN => HandleTBN(st, data)
    case TWS => HandleTWS(st, data)
    case TCC => ShowOnly(st, Progress(-1, 0))
  }

  /** `handleMessage`: short lines are reported, the port is shown as
      working when the line has `{` at 0 and `}` at 4, unknown opcodes are
      reported and otherwise ignored, and known ones go to their handler. */
  function HandleMessage(st: Session, msg: string): (r: Outcome)
    ensures |msg| < 5 ==> r == Done(st, [Diag(ShortMessage, "", msg)], [])
    ensures |msg| >= 5 && Lookup(msg[1..4]).None? ==> r.Done? && r.session == st && r.sent == []
    ensures r.Done? && FrequencyRegister.Renderable(st.fq) ==> FrequencyRegister.Renderable(r.session.fq)
  {
    match Decode(msg)
    case Short => Done(st, [Diag(ShortMessage, "", msg)], [])
    case Frame(tagged, op, payload) =>
      var status := if tagged then [PortOk] else [];
      match Lookup(op)
      case None => Done(st, status + [Diag(UnknownOpcode, op, msg)], [])
      case Some(code) =>
        match Handle(st, code, payload)
        case Crashed(e) => Crashed(e)
        case Done(st', events, sent) => Done(st', status + events, sent)
  }

  // ---------------------------------------------------------------------------
  // Properties
  // ---------------------------------------------------------------------------

  /** A well-formed device line reaches its opcode's handler with the payload
      intact, and shows the port as working before the handler's effects. */
  lemma DeviceLineDispatch(st: Session, code: Opcode, payload: string)
    ensures Handle(st, code, payload).Crashed? ==>
      HandleMessage(st, InboundLine(Mnemonic(code), payload)) == Handle(st, code, payload)
    ensures Handle(st, code, payload).Done? ==>
      var h := Handle(st, code, payload);
      HandleMessage(st, InboundLine(Mnemonic(code), payload)) == Done(h.session, [PortOk] + h.events, h.sent)
  {
    DecodeInbound(Mnemonic(code), payload);
    HandlerTable(code);
  }

  /** A bare `{OPC}` line reaches its handler with an empty payload. */
  lemma BareLineDispatch(st: Session, code: Opcode)
    ensures Handle(st, code, "").Crashed? ==>
      HandleMessage(st, "{" + Mnemonic(code) + "}") == Handle(st, code, "")
    ensures Handle(st, code, "").Done? ==>
      var h := Handle(st, code, "");
      HandleMessage(st, "{" + Mnemonic(code) + "}") == Done(h.session, [PortOk] + h.events, h.sent)
  {
    BareLine(Mnemonic(code));
    HandlerTable(code);
  }

  /** A GPS time the clock accepts is stored, the satellite lines are
      cleared and nothing is sent. */
  lemma TimeReply(st: Session, data: string)
    requires SetTime(st.clock, data).Stored?
    ensures var h := HandleMessage(st, InboundLine("GTM", data));
      h.Done? && h.session == st.(clock := SetTime(st.clock, data).clock, sats := []) && h.sent == []
  {
    TimeDispatch(st, data);
    DeviceLineDispatch(st, GTM, data);
  }

  lemma TimeDispatch(st: Session, data: string)
    requires SetTime(st.clock, data).Stored?
    ensures var h := Handle(st, GTM, data);
      h.Done? && h.session == st.(clock := SetTime(st.clock, data).clock, sats := []) && h.sent == []
  {
    assert Handle(st, GTM, data) == HandleGTM(st, data);
  }

  /** Whatever a handler sends as a query asks for its own opcode: a bad
      payload is corrected by re-reading the same setting and nothing else. */
  lemma QueriesOwnOpcode(st: Session, code: Opcode, data: string)
    ensures Handle(st, code, data).Done? ==>
      forall c :: c in Handle(st, code, data).sent && c.data == Get ==> c.op == Mnemonic(code)
  {
    match code
    case DCS =>
      var u := CallUpdate(data);
      assert forall i :: 0 <= i < |u.1| ==> u.1[i].data != Get;
    case _ =>
  }

  /** The handlers with a branch that raises. */
  predicate MayCrash(code: Opcode) {
    code in {CCM, OSM, OBD, OLC, OPW, FLP, GTM, GLC, TON}
  }

  /** Every other handler is total: no payload makes it raise. The pause
      field that MPS and TCC read when showing progress is not part of the
      session, so its own failure on non-numeric text is outside this. */
  lemma TotalHandlers(st: Session, code: Opcode, data: string)
    ensures !MayCrash(code) ==> Handle(st, code, data).Done?
  {
  }

  /** The single-letter handlers read `data[0]` unguarded, so an empty
      payload raises. */
  lemma EmptyPayloadCrashes(st: Session)
    ensures Handle(st, OSM, "") == Crashed(IndexError)
    ensures Handle(st, OLC, "") == Crashed(IndexError)
    ensures Handle(st, OPW, "") == Crashed(IndexError)
    ensures Handle(st, GLC, "") == Crashed(IndexError)
    ensures Handle(st, TON, "") == Crashed(IndexError)
  {
  }

  /** For the current mode the raise on an empty payload comes from the
      misspelt `sendport` in the guard meant to prevent it; for a band
      reply `int('')` raises first. */
  lemma EmptyModeOrBandCrashes(st: Session)
    ensures Handle(st, CCM, "") == Crashed(NameError)
    ensures Handle(st, OBD, "") == Crashed(ValueError)
  {
    assert Strip("") == "";
  }

  /** A bare `{CCM}` line from the device ends the program. */
  lemma BareModeLineCrashes(st: Session)
    ensures HandleMessage(st, "{CCM}") == Crashed(NameError)
  {
    EmptyModeOrBandCrashes(st);
    BareLineDispatch(st, CCM);
    assert "{" + Mnemonic(CCM) + "}" == "{CCM}";
  }

  /** The device echoing a band setting shows exactly the box the user set. */
  lemma BandEcho(st: Session, enabled: seq<bool>, band: nat)
    requires |enabled| == |Bands| && band < |Bands|
    ensures HandleOBD(st, BandCheck(enabled)[band].data[2..]) == Done(st, [BandEnabled(band, enabled[band])], [])
  {
    var c := BandCommand(band, enabled[band]);
    assert BandCheck(enabled)[band] == c;
    var d := c.data[2..];
    assert |d| == 4 && d[..2] == c.data[2..4] && d[3] == c.data[5];
    assert Slice(d, 0, 2) == ZeroPad(band, 2);
    BandDigits(band);
    BandReply(st, d, band, enabled[band]);
  }

  lemma BandDigits(band: nat)
    ensures ParseInt(ZeroPad(band, 2)) == Some(band)
  {
    ZeroPadValue(band, 2);
    ParseDigits(ZeroPad(band, 2));
  }

  /** A band reply naming a band by its two digits and E or D is shown as
      that band enabled or disabled. */
  lemma BandReply(st: Session, d: string, band: nat, on: bool)
    requires band < |Bands| && |d| == 4 && ParseInt(Slice(d, 0, 2)) == Some(band) && d[3] == (if on then 'E' else 'D')
    ensures HandleOBD(st, d) == Done(st, [BandEnabled(band, on)], [])
  {
  }

  /** A pause the field accepts survives the device's echo unchanged: the
      reply shows the same value and re-sends the same setting. */
  lemma PauseEcho(st: Session, t: nat)
    requires t <= MaxPause
    ensures HandleOTP(st, PauseUpdate(t).data[2..]) == Done(st, [PauseTime(t)], [PauseUpdate(t)])
  {
    PauseDigits(t);
    assert PauseUpdate(t).data[2..] == ZeroPad(t, 5);
  }

  /** A negative pause is written with its sign, which the device's echo
      fails `isdigit`, so the value is re-queried. */
  lemma NegativePauseRequeried(st: Session, t: int)
    requires t < 0
    ensures HandleOTP(st, PauseUpdate(t).data[2..]).sent == [Query("OTP")]
  {
    assert PauseUpdate(t).data[2..][0] == '-';
  }

  /** Every power level offered to the user is sent as two digits and, when
      the device echoes it, shown as the same level again. */
  lemma PowerEcho(st: Session, i: nat)
    requires i < |Powers|
    ensures RpwrUpdate(Powers[i]).Some?
    ensures HandleDPD(st, RpwrUpdate(Powers[i]).value.data[2..]) == Done(st, [ReportedPower(Powers[i])], [])
  {
    PowerLevels();
    PowerReply(st, Powers[i]);
  }

  /** A numeral of one or two digits without a leading zero. */
  predicate ShortNumeral(p: string) {
    IsDigits(p) && |p| <= 2 && (|p| == 1 || p[0] != '0')
  }

  lemma PowerLevels()
    ensures forall i :: 0 <= i < |Powers| ==> ShortNumeral(Powers[i]) && ValueOf(Powers[i]) <= MaxPower
  {
  }

  lemma PowerReply(st: Session, p: string)
    requires ShortNumeral(p) && ValueOf(p) <= MaxPower
    ensures RpwrUpdate(p).Some?
    ensures HandleDPD(st, RpwrUpdate(p).value.data[2..]) == Done(st, [ReportedPower(p)], [])
  {
    ParseDigits(p);
    var v := ValueOf(p);
    CanonicalDecimal(p);
    var d := RpwrUpdate(p).value.data[2..];
    assert d == FormatInt(v, 2);
    ZeroPadValue(v, 2);
    ParseDigits(d);
  }

  /** A numeral of at most two digits without a leading zero is `str()` of
      its value. */
  lemma CanonicalDecimal(p: string)
    requires ShortNumeral(p)
    ensures Decimal(ValueOf(p)) == p
  {
    if |p| == 1 {
      assert ValueOf(p) == DigitValue(p[0]);
      assert DigitChar(DigitValue(p[0])) == p[0];
    } else {
      var hi, lo := DigitValue(p[0]), DigitValue(p[1]);
      assert p[..1] == [p[0]];
      assert ValueOf(p[..1]) == hi;
      var v := hi * 10 + lo;
      assert ValueOf(p) == v;
      assert 1 <= hi && v >= 10 && v / 10 == hi && v % 10 == lo;
      assert Decimal(hi) == [p[0]];
      assert DigitChar(lo) == p[1];
      assert Decimal(v) == Decimal(hi) + [DigitChar(lo)];
      assert p == [p[0]] + [p[1]];
    }
  }

  /** The device echoing a tuned frequency stores the same value in the
      register and shows the same digits the button press showed. */
  lemma FrequencyEcho(st: Session, fq: nat, d: FrequencyRegister.Digit, up: bool)
    requires FrequencyRegister.Renderable(fq)
    ensures var t := FrequencyRegister.Tune(fq, d, up);
      HandleDGF(st, t.command.data[2..]) == Done(st.(fq := t.fq), [FrequencyDigits(t.digits)], [])
  {
    var t := FrequencyRegister.Tune(fq, d, up);
    assert t.command.data[2..] == FrequencyRegister.Render(t.fq);
  }

  /** A callsign the device reports is shown as is when it fits six
      characters; it stops the beacon and is sent back twice. */
  lemma CallsignEcho(st: Session, call: string)
    requires |call| <= 6
    ensures HandleDCS(st, call) ==
      Done(st, [Callsign(call)], [Command("CCM", "S N"), Command("DCS", "S " + call), Command("DCS", "S " + call)])
  {
  }

  /** A longer callsign is shown cut to six characters, yet the device is
      sent the whole callsign, once, and the beacon is not stopped. */
  lemma CallsignTruncated(st: Session, call: string)
    requires |call| > 6
    ensures HandleDCS(st, call) == Done(st, [Callsign(call[..6])], [Command("DCS", "S " + call)])
  {
  }

  /** The mode letter each mode button sends, and the mode it stands for. */
  predicate ModeButton(a: Action) {
    a == Stop || a == StartBeacon || a == StartGenerator
  }

  function ButtonMode(a: Action): Mode
    requires ModeButton(a)
  {
    if a == Stop then Idle else if a == StartBeacon then Beacon else Generator
  }

  /** The device echoing the mode a button set shows that mode and sends
      nothing. */
  lemma ModeEcho(st: Session, a: Action)
    requires ModeButton(a)
    ensures ActionCommands(a)[0].op == "CCM"
    ensures HandleCCM(st, ActionCommands(a)[0].data[2..]) == Done(st, [ShowMode(ButtonMode(a))], [])
  {
    assert ActionCommands(a)[0].data[2..][0] == ActionCommands(a)[0].data[2];
  }

  /** The same for the boot mode, the location source and the power
      reporting mode: the echoed letter is shown as the one that was set. */
  lemma BootEcho(st: Session, b: char)
    requires b in "NWS"
    ensures ActionCommands(Boot([b]))[0] == Command("OSM", "S " + [b])
    ensures HandleOSM(st, ActionCommands(Boot([b]))[0].data[2..]) == Done(st, [BootMode(b)], [])
  {
    assert ActionCommands(Boot([b]))[0].data[2..] == [b];
  }

  lemma LocationSourceEcho(st: Session, gps: bool)
    ensures var c := ActionCommands(if gps then LocationFromGps else LocationManual)[0];
      c.op == "OLC" && HandleOLC(st, c.data[2..]) == Done(st, [LocationSource(if gps then 'G' else 'M')], [])
  {
    var c := ActionCommands(if gps then LocationFromGps else LocationManual)[0];
    assert c.data[2..] == [if gps then 'G' else 'M'];
  }

  lemma PowerModeEcho(st: Session, altitude: bool)
    ensures var c := ActionCommands(if altitude then PowerAltitude else PowerNormal)[0];
      c.op == "OPW" && HandleOPW(st, c.data[2..]) == Done(st, [PowerReport(if altitude then 'A' else 'N')], [])
  {
    var c := ActionCommands(if altitude then PowerAltitude else PowerNormal)[0];
    assert c.data[2..] == [if altitude then 'A' else 'N'];
  }

  // ---------------------------------------------------------------------------
  // The filter-number bound
  // ---------------------------------------------------------------------------

  /** As written, the filter report accepts 16, one past the last filter,
      and raises IndexError indexing the indicator list. */
  lemma FilterSixteenAsWritten(st: Session, data: string)
    requires Slice(data, 2, |data|) == "16"
    ensures HandleFLPAsWritten(st, data) == Crashed(IndexError)
  {
    assert ValueOf("16") == 16;
  }

  /** With the bound corrected, the same report is only diagnosed. */
  lemma FilterSixteenCorrected(st: Session, data: string)
    requires Slice(data, 2, |data|) == "16"
    ensures HandleFLP(st, data) == Bad(st, "FLP", data)
  {
    assert ValueOf("16") == 16;
  }

  /** Both versions agree on every filter number except 16. */
  lemma FilterVersionsAgree(st: Session, data: string)
    requires !IsDigits(Slice(data, 2, |data|)) || ValueOf(Slice(data, 2, |data|)) != |Bands|
    ensures HandleFLPAsWritten(st, data) == HandleFLP(st, data)
  {
  }
}
