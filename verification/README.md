# WSPR-TX-Config controller core in Dafny

WSPR-TX-Config is a Tk desktop tool that configures a WSPR beacon over a
serial link. This project models the non-graphical core of its controller
(`src/WSPR_TX_Config.py`) and proves properties of that model:

- **Text** (`text.dfy`): the Python built-ins the controller relies on,
  restricted to ASCII. These are `str.isdigit`, `int()` on strings,
  zero-padded `format`, `str(n)`, `split(':')`, `split()`, `rstrip` and
  `strip`, and slicing.
- **MirrorClock** (`clock.dfy`): the `MC` mirror clock. Its one-second tick
  carries into minutes and hours. Its `time` setter cancels the pending tick,
  then either refuses the string (-1), raises on a field `int()` rejects, or
  stores the fields and re-arms. The Tk timer is reduced to an `armed` flag.
- **FrameCodec** (`framing.dfy`): `sendPort` framing (`[OPC] data` + CR LF,
  or raw text). `readPort` as a method with a loop over a modelled byte
  stream. The `{OPC} payload` split that `handleMessage` performs.
- **FrequencyRegister** (`frequency.dfy`): the generator register in
  centihertz. `addFQ` wraps past 10^11 and `subFQ` clamps a negative
  difference to 1. It covers the 22 `upX`/`downX` buttons, the 12-digit
  rendering and `setFQ`'s eleven display digits.
- **Satellites** (`satellites.dfy`): the part of `satdata` that is not
  drawing. It covers field validation, the top-4 SNR list (append, then sort
  descending and pop once there are more than four) and the colour bands.
- **Dispatcher** (`dispatcher.dfy`): the handler table and all 31
  `handleXXX` handlers, plus `handleMessage`. It also has the user-action
  encoders: `bandCheck`, `pauseUpdate`, `rpwrUpdate`, `callUpdate`/`setCall`,
  and the fixed-command buttons.
- **Resync** (`resync.dfy`): `updateStatus` as a method with nested loops,
  proved equal to a recursive reference definition. One step of `drive`.

A handler's Python exception (IndexError, ValueError, NameError) is a
`Crashed` outcome. Display updates are `Event` values. The commands a
handler causes are a `Command` sequence. That sequence includes the commands
fired synchronously by Tk variable traces: a handler writing the pause,
callsign, locator or name field runs that field's callback. A write made
from inside a field's own callback runs no callback, because Tk suspends a
variable's traces while one of them runs. So a callsign longer than six
characters is shown cut to six, and the device is sent the uncut callsign.

## Model

| member | source | states |
|---|---|---|
| Text.ParseInt | src/WSPR_TX_Config.py:1861 | `int()` on a string: optional surrounding whitespace and sign around digits, anything else fails. Its behaviour is stated by `Text.ParseDigits`, `Text.ParseRejects` and `Text.ParseFormatInt` |
| Text.ParseDigits | src/WSPR_TX_Config.py:1848-1849 | `int()` reads a string that passes `isdigit` as the number its digits denote |
| Text.ParseRejects | src/WSPR_TX_Config.py:1861 | `int()` fails (ValueError) on any string holding a character that is not a digit, a sign or whitespace |
| Text.ParseFormatInt | src/WSPR_TX_Config.py:1691 | `int()` reads back every integer written with a zero-padded format, negative ones included |
| Text.FormatInt | src/WSPR_TX_Config.py:1691 | `'{0:0wd}'.format(n)`: sign, then the digits zero-padded to the width; read back by `Text.ParseFormatInt`, value and width by `Text.ZeroPadValue` and `Text.ZeroPadWidth` |
| Text.ZeroPadValue | src/WSPR_TX_Config.py:1714 | zero padding keeps the value and fills exactly the width when the number fits; a wider number is not truncated |
| Text.ZeroPadDigits | src/WSPR_TX_Config.py:1714 | the zero-padded numeral denotes the number |
| Text.ZeroPadWidth | src/WSPR_TX_Config.py:1714 | the padded numeral is at least the width, and exactly the width when the number is below 10^width |
| Text.PaddedValue | src/WSPR_TX_Config.py:1714 | leading zeros added to a numeral keep its value |
| Text.DecimalValue | src/WSPR_TX_Config.py:1895 | `str(n)` denotes n |
| Text.DecimalLength | src/WSPR_TX_Config.py:1714 | `str(n)` has at most w digits exactly when n < 10^w |
| Text.ValueOfZerosPrefix | src/WSPR_TX_Config.py:1714 | leading zeros do not change a numeral's value |
| Text.ZerosValue | src/WSPR_TX_Config.py:1714 | a string of zeros denotes 0 |
| Text.ValueOfConcat | src/WSPR_TX_Config.py:1416-1427 | the value of two numerals side by side is the first scaled by 10^len(second) plus the second |
| Text.ValueOfBound | src/WSPR_TX_Config.py:1901-1903 | a k-digit numeral is below 10^k |
| Text.RStrip | src/WSPR_TX_Config.py:446 | `str.rstrip()`: drops trailing whitespace; what it keeps and drops is stated by `Text.RStripSpec` |
| Text.RStripSpec | src/WSPR_TX_Config.py:446 | `rstrip` keeps a prefix not ending in whitespace and drops only whitespace |
| Text.LStrip | src/WSPR_TX_Config.py:1861 | `str.lstrip()`: drops leading whitespace; what it keeps and drops is stated by `Text.LStripSpec` |
| Text.LStripSpec | src/WSPR_TX_Config.py:1861 | `lstrip` keeps a suffix not starting with whitespace and drops only whitespace |
| Text.Split | src/WSPR_TX_Config.py:312 | `split(sep)` always yields at least one piece |
| Text.SplitNoSep | src/WSPR_TX_Config.py:312 | a string without the separator splits into itself alone |
| Text.SplitFirst | src/WSPR_TX_Config.py:312 | splitting at the first separator gives the part before it followed by the split of the rest |
| Text.WordLength | src/WSPR_TX_Config.py:1543 | a word of `split()` is a maximal run of non-whitespace: none of its characters is whitespace and it ends at the end of the text or at a whitespace character; it is non-empty when the text starts with a non-space |
| Text.Words | src/WSPR_TX_Config.py:1543 | `split()` with no argument: the maximal runs of non-whitespace, in order; stated by `Text.WordsSpec` |
| Text.WordsSpec | src/WSPR_TX_Config.py:1543 | every word `split()` yields is non-empty and holds no whitespace |
| Text.Slice | src/WSPR_TX_Config.py:1922 | Python slicing is clipped to the string and never raises |
| MirrorClock.Tick | src/WSPR_TX_Config.py:288-301 | a tick re-arms the timer and keeps a valid time valid |
| MirrorClock.TickAdvancesOneSecond | src/WSPR_TX_Config.py:288-301 | on a valid time a tick adds one second of the day modulo 86400 |
| MirrorClock.MidnightRollover | src/WSPR_TX_Config.py:288-305 | 23:59:59 ticks to 00:00:00 |
| MirrorClock.SetTime | src/WSPR_TX_Config.py:307-316 | the pending tick is always cancelled. Exactly when the text does not split into three `:` parts is it refused with the fields unchanged. Exactly when it does but `int()` rejects one of the parts, the setter raises with the fields unchanged. Otherwise the hour, minute and second are the values `int()` reads from the three parts, and the timer is re-armed |
| MirrorClock.TimeString | src/WSPR_TX_Config.py:303-305 | the published text is the three fields, each at least two digits, joined by `:`; `MirrorClock.SplitTimeString` and `MirrorClock.SetTimeString` state that the setter reads it back |
| MirrorClock.SetTimeString | src/WSPR_TX_Config.py:303-316 | setting the clock from the text its getter publishes stores the same fields (no range check) |
| MirrorClock.SplitTimeString | src/WSPR_TX_Config.py:304-305 | the published time splits at `:` into its three two-digit fields |
| MirrorClock.FormatHasNoColon | src/WSPR_TX_Config.py:304-305 | a formatted field never contains `:` |
| MirrorClock.TwoDigits | src/WSPR_TX_Config.py:304-305 | a number below 100 is formatted as its tens and units digit |
| MirrorClock.BadTimeKeepsFields | src/WSPR_TX_Config.py:311-314 | a string without colons is refused, the fields are kept and the timer stays stopped |
| MirrorClock.CompactTimeRejected | src/WSPR_TX_Config.py:311-314 | a six-digit time without separators is refused too |
| FrameCodec.Encode | src/WSPR_TX_Config.py:448-457 | a tagged command is `[` opcode `] ` data CR LF; raw text goes out unchanged |
| FrameCodec.EncodeParse | src/WSPR_TX_Config.py:448-457 | every tagged command is read back to the same opcode and data by a bracket parser |
| FrameCodec.RawPassthrough | src/WSPR_TX_Config.py:449-452 | raw output is the data itself |
| FrameCodec.IndexOf | src/WSPR_TX_Config.py:448-457 | the first occurrence of a character, or the length when absent |
| FrameCodec.ParseTagged | src/WSPR_TX_Config.py:448-457 | a parsed command has a non-empty opcode without `]` |
| FrameCodec.Accept | src/WSPR_TX_Config.py:442-446 | an empty buffer or one not starting with `{` gives ""; a buffer starting with `{` gives exactly the buffer with trailing whitespace removed |
| FrameCodec.ReadPort | src/WSPR_TX_Config.py:426-446 | nothing is read without a port or waiting bytes. Otherwise between 1 and 1000000 reads; all before the last are not line ends; the line is what came before the line end, filtered. The result starts with `{`, has no line end and no trailing space |
| FrameCodec.Decode | src/WSPR_TX_Config.py:1812-1823 | shorter than 5 is short. Otherwise the opcode is characters 1-3; the port is shown as working exactly when `{` and `}` are at 0 and 4; the payload starts at 6, or at 5 when there is no space |
| FrameCodec.DecodeInbound | src/WSPR_TX_Config.py:1816-1823 | a device line `{OPC} payload` decodes to that opcode and exactly that payload |
| FrameCodec.DecodeWithoutSpace | src/WSPR_TX_Config.py:1821-1822 | a line missing the space after `}` still yields the payload when it does not start with a space |
| FrameCodec.UnbracedNotTagged | src/WSPR_TX_Config.py:1816 | a line not starting with `{` is dispatched without marking the port as working |
| FrameCodec.ReadThenDecode | src/WSPR_TX_Config.py:426-446 | a device line through `readPort` then `handleMessage` yields its opcode and its right-stripped payload |
| FrameCodec.BareLine | src/WSPR_TX_Config.py:446 | `{OPC} ` followed by whitespace is read as `{OPC}` and decodes with an empty payload |
| FrameCodec.RStripAppend | src/WSPR_TX_Config.py:446 | right-stripping a line only touches its payload unless the payload is all whitespace |
| FrequencyRegister.Increase | src/WSPR_TX_Config.py:1709-1713 | the result is congruent to the sum modulo 10^11. It equals the sum when that is at most 10^11 (exactly 10^11 is kept), and the sum less 10^11 when that is above 10^11. It stays in [1, 10^11] and 12 digits |
| FrequencyRegister.Decrease | src/WSPR_TX_Config.py:1716-1720 | a non-negative difference is kept (0 included); a negative one becomes 1 |
| FrequencyRegister.IncreaseThenDecrease | src/WSPR_TX_Config.py:1709-1720 | an increase that did not wrap is undone by the same decrease |
| FrequencyRegister.DecreaseThenIncrease | src/WSPR_TX_Config.py:1709-1720 | a decrease that did not clamp is undone by the same increase |
| FrequencyRegister.WrapBoundary | src/WSPR_TX_Config.py:1709-1720 | 99999999999 up by 100 wraps to 99, and down by 100 then clamps to 1 |
| FrequencyRegister.CapacityKept | src/WSPR_TX_Config.py:1711 | a sum of exactly 10^11 is not wrapped |
| FrequencyRegister.ZeroKept | src/WSPR_TX_Config.py:1718-1719 | reaching exactly 0 is kept; only a negative difference clamps |
| FrequencyRegister.PowersOfTen | src/WSPR_TX_Config.py:1711 | the wrap threshold is 10^11 and 12-digit values are those below 10^12 |
| FrequencyRegister.Exponent | src/WSPR_TX_Config.py:1723-1766 | every digit button's step is at most 10^10 |
| FrequencyRegister.Weight | src/WSPR_TX_Config.py:1723-1766 | every button step lies in [1, 10^11] |
| FrequencyRegister.Render | src/WSPR_TX_Config.py:1714-1715 | the rendered register is all digits, denotes the register and is 12 characters for a 12-digit value |
| FrequencyRegister.Display | src/WSPR_TX_Config.py:1416-1427 | the eleven display digits are characters 1 to 11 of the rendered value |
| FrequencyRegister.FromDigitsOfString | src/WSPR_TX_Config.py:1416-1427 | the digit values of a numeral read as a number give the numeral's value |
| FrequencyRegister.DisplayShowsValue | src/WSPR_TX_Config.py:1416-1427 | the display shows the register modulo 10^11 (the 1 GHz digit has no field) |
| FrequencyRegister.CapacityShowsZeros | src/WSPR_TX_Config.py:1416-1427 | a register of exactly 10^11 shows as all zeros |
| FrequencyRegister.Tune | src/WSPR_TX_Config.py:1709-1766 | one button press moves the register by the digit's weight (wrapping or clamping), sends `DGF S` with the 12-digit value and shows digits spelling it modulo 10^11 |
| FrequencyRegister.UpThenDown | src/WSPR_TX_Config.py:1723-1766 | pressing up then down on the same digit restores the register unless the increase wrapped |
| Satellites.ColourOf | src/WSPR_TX_Config.py:1566-1576 | exactly 0-2 dB is not drawn; exactly 3-16 dB is red, 17-24 dB yellow, 25-32 dB dark green and 33 dB and over green |
| Satellites.ColourMonotone | src/WSPR_TX_Config.py:1566-1576 | a stronger signal never gets a worse colour |
| Satellites.Insert | src/WSPR_TX_Config.py:1553 | insertion into a descending list keeps it descending and adds exactly the value |
| Satellites.SortDesc | src/WSPR_TX_Config.py:1553 | `sort(reverse=True)` yields a descending permutation |
| Satellites.Keep | src/WSPR_TX_Config.py:1551-1554 | the list grows by one up to four entries and then stays at four |
| Satellites.KeepAllIsBest | src/WSPR_TX_Config.py:1542-1554 | after any sequence of values the list holds min(4, n) of them and no dropped value beats a kept one |
| Satellites.KeepStep | src/WSPR_TX_Config.py:1551-1554 | one append-and-pop step preserves "the best of everything seen" |
| Satellites.KeepStepGrow | src/WSPR_TX_Config.py:1551 | while there are at most four values all are kept |
| Satellites.KeepStepPop | src/WSPR_TX_Config.py:1552-1554 | popping the smallest of five keeps the best four |
| Satellites.DroppedAfterPop | src/WSPR_TX_Config.py:1554 | the values dropped so far grow by exactly the popped one |
| Satellites.PopKeepsBest | src/WSPR_TX_Config.py:1554 | the popped value is no larger than any kept one |
| Satellites.MultisetSameSize | src/WSPR_TX_Config.py:1551 | nothing is dropped while the list equals all values seen |
| Satellites.Fields | src/WSPR_TX_Config.py:1542-1549 | a line is usable exactly when `split()` gives at least four words and the first four are digits; its fields are those four words |
| Satellites.SnrValues | src/WSPR_TX_Config.py:1542-1551 | only lines with four digit fields contribute, as non-negative values |
| Satellites.KeepAll | src/WSPR_TX_Config.py:1551-1554 | the retained list after appending each value in turn; `Satellites.KeepAllIsBest` states that it holds the best min(4, n) values |
| Satellites.AddLine | src/WSPR_TX_Config.py:1542-1580 | an unusable line changes nothing. A usable line's SNR is appended to the retained list; a dot is appended exactly when the SNR is 3 or more, in the colour it selects, and the earlier dots are kept |
| Satellites.Summarize | src/WSPR_TX_Config.py:1533-1580 | every drawn satellite has SNR 3 or more and the colour its SNR selects. The SNRs of the dots, in drawing order, are exactly the usable lines' SNRs of 3 or more, in line order. The retained list is the append-and-pop of every usable SNR, the undrawn ones included |
| Satellites.AppendValue | src/WSPR_TX_Config.py:1551-1580 | one more usable value adds itself to the drawable values exactly when it is 3 or more, and takes one more append-and-pop step of the retained list |
| Satellites.SummaryKeepsBest | src/WSPR_TX_Config.py:1533-1554 | the signal meter sees the best min(4, n) SNRs of the n usable lines |
| Dispatcher.BandCheck | src/WSPR_TX_Config.py:1664-1669 | one `OBD` command per band, in band order |
| Dispatcher.BandCommand | src/WSPR_TX_Config.py:1667-1669 | `S BB E` or `S BB D` with the band as two zero-padded digits |
| Dispatcher.PauseUpdate | src/WSPR_TX_Config.py:1686-1691 | a pause above 99999 is replaced by a query (exactly then); a pause in range is sent as five digits `int()` reads back |
| Dispatcher.PauseDigits | src/WSPR_TX_Config.py:1691 | a pause in range is written as exactly five digits denoting it |
| Dispatcher.RpwrUpdate | src/WSPR_TX_Config.py:1703-1706 | exactly when the selection is not an integer, `int()` raises; otherwise `DPD` carries a numeral of the same value |
| Dispatcher.CallUpdate | src/WSPR_TX_Config.py:1679-1685 | the field shows the callsign as typed when it has at most six characters, and otherwise its first six. A short callsign stops the beacon (`CCM S N`) and is then sent twice. A longer one is sent once, uncut, without stopping the beacon. No query is sent |
| Dispatcher.ActionCommands | src/WSPR_TX_Config.py:1659-1702 | every button sends exactly one setting command (`S`, never a query) with a three-letter opcode |
| Dispatcher.HandleCCM | src/WSPR_TX_Config.py:1831-1846 | only an empty payload raises (NameError). N shows idle, W the beacon and S the signal generator, and nothing is sent; any other letter is diagnosed and re-queried `CCM` |
| Dispatcher.HandleOTP | src/WSPR_TX_Config.py:1847-1853 | a digit payload becomes the pause; through the pause field's trace it is sent back as a setting when it is at most 99999, and re-queried above that. Anything else is re-queried |
| Dispatcher.HandleOSM | src/WSPR_TX_Config.py:1854-1859 | only an empty payload raises. N, W or S is shown as the boot mode and nothing is sent; anything else is diagnosed and re-queried |
| Dispatcher.BandIndex | src/WSPR_TX_Config.py:1863-1867 | list indexing accepts -16 to 15 and maps a negative index to the same band modulo 16 |
| Dispatcher.HandleOBD | src/WSPR_TX_Config.py:1860-1870 | a first field `int()` rejects raises ValueError; the session is never changed |
| Dispatcher.HandleOLC | src/WSPR_TX_Config.py:1871-1878 | only an empty payload raises. G or M is shown as the location source and nothing is sent; anything else is diagnosed and re-queried |
| Dispatcher.HandleOPW | src/WSPR_TX_Config.py:1879-1886 | only an empty payload raises. N or A is shown as the power mode and nothing is sent; anything else is diagnosed and re-queried |
| Dispatcher.HandleDCS | src/WSPR_TX_Config.py:1887-1888 | never raises and keeps the session. The field shows the callsign, cut to six characters when longer. The last command sends the callsign back uncut. The beacon is stopped first exactly when the callsign has six characters or fewer |
| Dispatcher.HandleDL4 | src/WSPR_TX_Config.py:1889-1890 | the locator is shown unchecked and sent back as the locator action sends it |
| Dispatcher.HandleDPD | src/WSPR_TX_Config.py:1891-1897 | nothing is sent exactly when the payload is digits; then the shown power reads as the value capped at 60; otherwise only a re-query |
| Dispatcher.HandleDNM | src/WSPR_TX_Config.py:1898-1899 | the name is shown unchecked and sent back as the name action sends it |
| Dispatcher.HandleDGF | src/WSPR_TX_Config.py:1900-1907 | exactly twelve digits are accepted: they become the register (a 12-digit value) and its display digits; anything else is diagnosed and re-queried |
| Dispatcher.HandleFLPAsWritten | src/WSPR_TX_Config.py:1921-1931 | the report never raises ValueError and never changes the session or sends anything |
| Dispatcher.HandleFLP | src/WSPR_TX_Config.py:1921-1931 | exactly a non-digit filter number raises (NameError); only filters 0-15 are marked installed |
| Dispatcher.HandleGTM | src/WSPR_TX_Config.py:1934-1939 | raises exactly when the clock setter's `int()` fails (float overflow in the satellite summary is not modelled, see Left out). Otherwise the time is shown and written to the mirror clock; pending satellite lines are plotted exactly when there are some, then cleared |
| Dispatcher.HandleGLC | src/WSPR_TX_Config.py:1940-1948 | only an empty payload raises and nothing is ever sent. T shows a GPS lock and F no lock; anything else is diagnosed |
| Dispatcher.HandleGSI | src/WSPR_TX_Config.py:1949-1950 | the line is appended to the pending satellite lines and nothing else happens |
| Dispatcher.HandleTFQ | src/WSPR_TX_Config.py:1951-1955 | never raises and sends nothing; the frequency is shown exactly when it is digits, and anything else is diagnosed (float overflow on a huge numeral is not modelled, see Left out) |
| Dispatcher.HandleTON | src/WSPR_TX_Config.py:1956-1963 | only an empty payload raises. T or F is shown as transmitting or not and nothing is sent; anything else is diagnosed and re-queried |
| Dispatcher.HandleMPS | src/WSPR_TX_Config.py:1964-1969 | the pause row is marked first. A digit payload is shown as pause progress of that many seconds; anything else is diagnosed. Nothing is sent |
| Dispatcher.HandleMIN | src/WSPR_TX_Config.py:1970-1973 | the message is logged and the port shown as working |
| Dispatcher.HandleTBN | src/WSPR_TX_Config.py:1978-1982 | the band is marked exactly when the payload is digits |
| Dispatcher.HandleTWS | src/WSPR_TX_Config.py:1983-1992 | exactly when characters 0-1 are digits, that band is marked transmitting; otherwise the line is only diagnosed. Then, exactly when characters 3-5 are digits, progress is shown for that band at that many seconds; otherwise it is diagnosed. Nothing is sent |
| Dispatcher.ShowOnly | src/WSPR_TX_Config.py:1909-1918 | display-only handlers change nothing and send nothing |
| Dispatcher.Ignore | src/WSPR_TX_Config.py:1974-1977 | ignored opcodes have no effect at all |
| Dispatcher.Mnemonic | src/WSPR_TX_Config.py:1633-1652 | every opcode has a three-letter mnemonic |
| Dispatcher.HandlerTable | src/WSPR_TX_Config.py:1633-1652 | the table maps each handler's mnemonic to that handler |
| Dispatcher.HandlerTableExact | src/WSPR_TX_Config.py:1633-1652 | the table maps nothing but those 31 mnemonics |
| Dispatcher.Handle | src/WSPR_TX_Config.py:1831-1994 | only `DGF` changes the register and keeps it 12 digits; only `GTM` changes the clock; only `GTM` and `GSI` change the pending satellite lines |
| Dispatcher.HandleMessage | src/WSPR_TX_Config.py:1812-1829 | a line under 5 characters is only reported; an unknown opcode changes nothing and sends nothing; the register stays 12 digits |
| Dispatcher.DeviceLineDispatch | src/WSPR_TX_Config.py:1812-1829 | a device line reaches its handler with its payload; the port is shown as working before the handler's effects, and a raise propagates |
| Dispatcher.BareLineDispatch | src/WSPR_TX_Config.py:1812-1829 | a bare `{OPC}` reaches its handler with an empty payload |
| Dispatcher.TimeDispatch | src/WSPR_TX_Config.py:1934-1939 | a time the clock stores sets the clock, clears the satellite lines and sends nothing |
| Dispatcher.TimeReply | src/WSPR_TX_Config.py:1812-1829 | the same, for the whole `{GTM} time` line |
| Dispatcher.QueriesOwnOpcode | src/WSPR_TX_Config.py:1831-1994 | every query a handler sends asks for the handler's own opcode |
| Dispatcher.TotalHandlers | src/WSPR_TX_Config.py:1831-1994 | handlers other than CCM, OSM, OBD, OLC, OPW, FLP, GTM, GLC and TON never raise, on numerals small enough for a float (see Left out) |
| Dispatcher.EmptyPayloadCrashes | src/WSPR_TX_Config.py:1854-1963 | OSM, OLC, OPW, GLC and TON raise IndexError on an empty payload |
| Dispatcher.EmptyModeOrBandCrashes | src/WSPR_TX_Config.py:1831-1861 | CCM raises NameError (the misspelt `sendport`) and OBD raises ValueError on an empty payload |
| Dispatcher.BareModeLineCrashes | src/WSPR_TX_Config.py:1812-1833 | a bare `{CCM}` line ends the program |
| Dispatcher.BandEcho | src/WSPR_TX_Config.py:1860-1867 | the device echoing a band command shows exactly the box that was set |
| Dispatcher.BandDigits | src/WSPR_TX_Config.py:1861 | `int()` reads a two-digit band number back |
| Dispatcher.BandReply | src/WSPR_TX_Config.py:1860-1867 | a reply with a band number and E or D shows that band enabled or disabled |
| Dispatcher.PauseEcho | src/WSPR_TX_Config.py:1847-1850 | a pause in range survives the echo: the same value is shown and the same setting re-sent |
| Dispatcher.NegativePauseRequeried | src/WSPR_TX_Config.py:1848-1853 | a negative pause is written with its sign, fails `isdigit` on echo, and is re-queried |
| Dispatcher.PowerEcho | src/WSPR_TX_Config.py:1891-1895 | every offered power level is shown as the same level after the echo |
| Dispatcher.PowerLevels | src/WSPR_TX_Config.py:464-467 | every offered power level is a short numeral without leading zero, at most 60 |
| Dispatcher.PowerReply | src/WSPR_TX_Config.py:1891-1895 | such a level is sent and shown back unchanged |
| Dispatcher.CanonicalDecimal | src/WSPR_TX_Config.py:1895 | `str(int(p))` is p for a one- or two-digit numeral without leading zero |
| Dispatcher.FrequencyEcho | src/WSPR_TX_Config.py:1900-1904 | the echo of a tuned frequency stores the same value and shows the same digits |
| Dispatcher.CallsignEcho | src/WSPR_TX_Config.py:1679-1688 | a callsign of six characters or fewer stops the beacon and is sent back twice |
| Dispatcher.CallsignTruncated | src/WSPR_TX_Config.py:1679-1685 | a longer callsign is shown cut to six; the uncut callsign is sent once and the beacon is not stopped |
| Dispatcher.ModeEcho | src/WSPR_TX_Config.py:1831-1846 | the device echoing the mode set by the start, stop or generator button shows that mode and sends nothing |
| Dispatcher.BootEcho | src/WSPR_TX_Config.py:1854-1859 | the device echoing a boot mode N, W or S shows that boot mode and sends nothing |
| Dispatcher.LocationSourceEcho | src/WSPR_TX_Config.py:1871-1878 | the device echoing the location source a button set shows that source and sends nothing |
| Dispatcher.PowerModeEcho | src/WSPR_TX_Config.py:1879-1886 | the device echoing the power mode a button set shows that mode and sends nothing |
| Dispatcher.FilterSixteenAsWritten | src/WSPR_TX_Config.py:1927-1930 | as written, filter 16 passes the bound check and raises IndexError |
| Dispatcher.FilterSixteenCorrected | src/WSPR_TX_Config.py:1927-1929 | with `>=` the same report is only diagnosed |
| Dispatcher.FilterVersionsAgree | src/WSPR_TX_Config.py:1921-1931 | the two versions differ only on filter 16 |
| Resync.Receive | src/WSPR_TX_Config.py:2007-2010 | every line read is counted in characters |
| Resync.Await | src/WSPR_TX_Config.py:2006-2015 | the wait for one reply as a recursive reference; `Resync.AwaitShape`, `Resync.AnsweredByFirstReply` and `Resync.GaveAfterCap` state what it does |
| Resync.AwaitFirst | src/WSPR_TX_Config.py:2006-2015 | one line of the wait: short lines are skipped uncounted; a raise ends everything; the answer ends the wait; other lines count |
| Resync.AwaitShape | src/WSPR_TX_Config.py:2006-2015 | a wait takes whole lines off the front, at least one when answered, and keeps the asked and unanswered opcodes |
| Resync.AwaitReply | src/WSPR_TX_Config.py:2005-2015 | the inner loop computes the recursive reference wait |
| Resync.AnsweredByFirstReply | src/WSPR_TX_Config.py:2011-2015 | the wait ends on the first answering line, before 100 other lines were dispatched |
| Resync.GaveAfterCap | src/WSPR_TX_Config.py:2006-2015 | giving up happens after exactly 100 dispatched lines, none answering |
| Resync.WaitCountsCharacters | src/WSPR_TX_Config.py:2008 | the character counter grows by the total length of the lines consumed |
| Resync.StarvedUnanswered | src/WSPR_TX_Config.py:2006-2015 | running out of lines means no line answered |
| Resync.Ask | src/WSPR_TX_Config.py:2004 | each opcode is queried with `G` before its wait |
| Resync.ResyncFrom | src/WSPR_TX_Config.py:2000-2015 | the whole resync as a recursive reference over the opcodes; `Resync.ResyncShape` states what it does |
| Resync.ResyncFirst | src/WSPR_TX_Config.py:2001-2015 | how the routine moves past its first opcode |
| Resync.ResyncShape | src/WSPR_TX_Config.py:2001-2015 | completing means every opcode was asked in order with whole lines consumed; stalling happens on one opcode after it and all before it were asked |
| Resync.ResyncNext | src/WSPR_TX_Config.py:2001-2015 | the shape of the remaining opcodes carries back to all of them |
| Resync.UpdateStatus | src/WSPR_TX_Config.py:2000-2015 | the nested loops compute the recursive reference; on completion all 18 opcodes were asked in order |
| Resync.ShortLinesIgnored | src/WSPR_TX_Config.py:2011 | lines of two characters or fewer are neither dispatched nor counted |
| Resync.ReplyEndsWait | src/WSPR_TX_Config.py:2013-2014 | a reply to the awaited opcode ends the wait at once unless its handler raised |
| Resync.InterleavedTimeThenCallsign | src/WSPR_TX_Config.py:2006-2015 | a GPS time arriving while waiting for the callsign sets the clock, and the callsign reply still ends the wait |
| Resync.OtherThenAnswer | src/WSPR_TX_Config.py:2006-2015 | an unrelated line that sends nothing, then the answer, ends the wait with the answer's effects |
| Resync.Answering | src/WSPR_TX_Config.py:2013 | a device line answers the wait for its own opcode |
| Resync.NotAnswering | src/WSPR_TX_Config.py:2013 | a device line does not answer the wait for another opcode |
| Resync.AwaitOther | src/WSPR_TX_Config.py:2012-2015 | a non-answering line is handled and counted, and the wait goes on |
| Resync.AwaitAnswer | src/WSPR_TX_Config.py:2012-2014 | the answering line is handled and ends the wait |
| Resync.TimeLine | src/WSPR_TX_Config.py:1934-1939 | a time line in the clock's own format sets the clock to it and sends nothing |
| Resync.CallsignLine | src/WSPR_TX_Config.py:1887-1888 | a callsign line stops the beacon and sends the callsign back |
| Resync.FourCharacterLineAnswers | src/WSPR_TX_Config.py:2011-2014 | a four-character line is rejected as short yet ends the wait for its opcode |
| Resync.NoiseLines | src/WSPR_TX_Config.py:1976-1977 | n copies of a keep-alive line |
| Resync.NoiseHandled | src/WSPR_TX_Config.py:1976-1977 | a bare `{MVC}` only shows the port as working |
| Resync.NoiseExhaustsWait | src/WSPR_TX_Config.py:2006-2015 | unrelated lines count towards the cap, and the wait gives up leaving the next line unread |
| Resync.LateReplyMissed | src/WSPR_TX_Config.py:2006-2015 | a reply after 100 unrelated lines is missed and left for the next opcode |
| Resync.DriveStep | src/WSPR_TX_Config.py:2028-2038 | an empty read does nothing. A line whose handler raises ends the program with that error. An announcement runs the resync, which asks every opcode in order. Any other line fails exactly when its handler raises, and otherwise leaves the following lines unread and asks nothing |
| Resync.OrdinaryLineHandled | src/WSPR_TX_Config.py:2031-2035 | a line other than the announcement whose handler returns is counted, its handler's session and commands are recorded, and the following lines are left for the next pass |
| Resync.AnnouncementStartsResync | src/WSPR_TX_Config.py:2036-2038 | a `{MIN}` line starts the resync on the lines that follow |
| Resync.AnnouncementHandled | src/WSPR_TX_Config.py:1970-1973 | the announcement is logged and changes no state |

## Left out

- Everything graphical is left out because it does not change the core's state. That covers Tk widgets, styles, tooltips, the debug pane, plot coordinates (floating point) and the signal-quality percentage and its colours (floating point).
- Port discovery, opening and closing, and `selectPort` are left out. A port is either absent or delivers a given byte stream.
- Timers are left out. The mirror clock's `after`/`after_cancel` are the `armed` flag, and `drive`'s Tk event pumping is not modelled.
- The Python 2 branches (`python == 2`) are not modelled; only the Python 3 path is.
- `int()` and `str.isdigit` are modelled on ASCII only. Non-ASCII digits and underscores between digits are not modelled, because the link decodes bytes as ASCII.
- `sendPressed` is left out. It calls `sendPortRaw`, which the program does not define, so every press raises. Raw framing itself is `FrameCodec.Encode` with an empty opcode.
- Diagnostic text is reduced to a kind, the opcode and the payload; the exact wording is not modelled.
- Resync.UpdateStatus: the program polls for ever when no line arrives, which the model reports as `Stalled` once the given lines run out.
- Dispatcher.HandleTFQ: does not raise OverflowError. The program divides `int(data)` by 100.0, which overflows for a numeral of 309 or more digits; the model's integers are unbounded and it shows the frequency.
- Dispatcher.TotalHandlers: states "never raises" without float overflow. The program raises OverflowError in TFQ on a numeral of 309 or more digits, and in MPS when the pause is at least 1 and the shown seconds make the percentage too large for a float. Python 3.11 and later also refuse `int()` on more than 4300 digits (OTP, DPD, TBN, MPS); that limit is not modelled either. MPS and TCC (`handleMPS` and `handleTCC`) also raise TclError whenever the user-editable pause field holds text that is not a number: `setProgress(-1, …)` reads that field through `IntVar.get`. The session has no pause field, so the model does not promise this.
- Dispatcher.HandleMPS: does not raise TclError, which the program raises when the pause field holds text that is not a number (for example while the user retypes it), because the field is not part of the session. Nor does it raise OverflowError. The program computes the pause percentage `100 * (pause - seconds) / pause` in floating point, which overflows when the shown seconds are vastly larger than the pause; the percentage itself is display only.
- Dispatcher.HandleGTM: its raise condition leaves out the OverflowError that the satellite summary's float arithmetic raises. That happens when an azimuth or elevation of a pending satellite line, or the sum of the four kept SNRs, is too large for a float; plot arithmetic is not modelled.
- Resync.DriveStep: models one pass of `drive` with a port selected and a read already done. The endless loop itself is not modelled.
- Satellites.Summarize: the dot fields are kept as received, and plot positions are not computed. It is stated about the lines a `SatellitePlot` event carries, not wired into the dispatcher.
- Dispatcher.HandleOBD: its contract covers only the ValueError case and the unchanged session. The shown band is stated by `Dispatcher.BandReply` and `Dispatcher.BandEcho`.
- Dispatcher.HandleFLPAsWritten: its contract is deliberately weak; its behaviour at 16 is stated by `Dispatcher.FilterSixteenAsWritten` and `Dispatcher.FilterVersionsAgree`.
- Dispatcher.Handle: sends a `FLP` report to the corrected handler `Dispatcher.HandleFLP`. So `{FLP} 0016` is diagnosed, whereas the program raises IndexError there. The program's own behaviour is `Dispatcher.HandleFLPAsWritten`; see Findings.
- FrameCodec.ReadPort: bytes arrive as characters. A byte that is not ASCII (a decode error in the program) is not modelled.

In a few places the program behaves in ways a reader might not expect. The model does the same:

- The inbound frame is `{OPC} payload`, with the `}` checked at position 4.
- `handleMessage` dispatches a known opcode even when the line does not start with `{`. The braces only decide whether the port is shown as working.
- `subFQ` keeps a result of exactly 0 and clamps only a negative one to 1.
- `addFQ` keeps exactly 10^11 and wraps only above it. A `DGF` reply can set any twelve-digit value.
- A four-character line ends a resync wait even though `handleMessage` rejects it as too short.
- A callsign longer than six characters is shown cut to six, yet the device is sent the uncut callsign and the beacon is not stopped.
- `handleDGF` shows `self.data`, which `handleMessage` has just set to the same payload, so the model uses the payload.

## Findings

| source | as written | input that shows it | evidently intended | confidence | as-written member | corrected member |
|---|---|---|---|---|---|---|
| src/WSPR_TX_Config.py:1927 | `if self.filter > len(self.model.bands())` lets filter 16 through to `installLP(16)`, which indexes the sixteen filter indicators and raises IndexError | `{FLP} 0016` (payload `0016`, so `data[2:]` is `16`) | `>=`, so 16 is diagnosed like every other unsupported filter | not executed | Dispatcher.HandleFLPAsWritten, Dispatcher.FilterSixteenAsWritten | Dispatcher.HandleFLP, Dispatcher.FilterSixteenCorrected |
