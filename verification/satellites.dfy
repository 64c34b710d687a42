/** The satellite summary drawn when GPS time arrives: each satellite line
    `number azimuth elevation snr` with four digit fields is kept; the four
    best signal-to-noise values are retained for the signal meter and each
    satellite above 2 dB is drawn in a colour chosen by its SNR. */
module Satellites {
  import opened Text

  datatype Colour = Red | Yellow | DarkGreen | Green

  /** A drawn satellite: its four fields as received and its colour. */
  datatype Dot = Dot(number: string, azimuth: string, elevation: string, snr: nat, colour: Colour)

  /** The colour for an SNR, or None for 0 to 2 dB, which is not drawn. */
  function ColourOf(snr: nat): (c: Option<Colour>)
    ensures c.None? <==> snr < 3
    ensures c == Some(Red) <==> 3 <= snr < 17
    ensures c == Some(Yellow) <==> 17 <= snr < 25
    ensures c == Some(DarkGreen) <==> 25 <= snr < 33
    ensures c == Some(Green) <==> snr >= 33
  {
    if snr < 3 then None
    else if snr < 17 then Some(Red)
    else if snr < 25 then Some(Yellow)
    else if snr < 33 then Some(DarkGreen)
    else Some(Green)
  }

  /** The colours in order of signal quality. */
  function Rank(c: Option<Colour>): nat {
    match c
    case None => 0
    case Some(Red) => 1
    case Some(Yellow) => 2
    case Some(DarkGreen) => 3
    case Some(Green) => 4
  }

  /** A stronger signal never gets a worse colour. */
  lemma ColourMonotone(a: nat, b: nat)
    requires a <= b
    ensures Rank(ColourOf(a)) <= Rank(ColourOf(b))
  {
  }

  // ---------------------------------------------------------------------------
  // Keeping the four best SNR values
  // ---------------------------------------------------------------------------

  predicate SortedDesc(s: seq<int>) {
    forall i, j :: 0 <= i < j < |s| ==> s[i] >= s[j]
  }

  function Insert(x: int, s: seq<int>): (r: seq<int>)
    requires SortedDesc(s)
    ensures SortedDesc(r)
    ensures multiset(r) == multiset(s) + multiset{x}
    ensures |r| == |s| + 1
    ensures r[0] == x || (|s| > 0 && r[0] == s[0])
  {
    if |s| == 0 then [x]
    else if x >= s[0] then [x] + s
    else
      var rest := Insert(x, s[1..]);
      assert s == [s[0]] + s[1..];
      [s[0]] + rest
  }

  /** `list.sort(reverse=True)`. */
  function SortDesc(s: seq<int>): (r: seq<int>)
    ensures SortedDesc(r)
    ensures multiset(r) == multiset(s)
    ensures |r| == |s|
  {
    if |s| == 0 then []
    else
      assert s == [s[0]] + s[1..];
      Insert(s[0], SortDesc(s[1..]))
  }

  /** Appending one value, then, once there are more than four, sorting in
      descending order and popping the last (smallest) one. */
  function Keep(acc: seq<int>, v: int): (r: seq<int>)
    ensures |r| == if |acc| + 1 > 4 then 4 else |acc| + 1
  {
    var l := acc + [v];
    if |l| > 4 then SortDesc(l)[..4] else l
  }

  predicate AllAtMost(low: multiset<int>, high: multiset<int>) {
    forall x, y :: x in low && y in high ==> x <= y
  }

  /** The retained values are the best ones: of all values seen, exactly
      min(4, count) are kept and none of the others beats a kept one. */
  predicate BestOf(acc: seq<int>, seen: seq<int>) {
    && |acc| == (if |seen| > 4 then 4 else |seen|)
    && multiset(acc) <= multiset(seen)
    && AllAtMost(multiset(seen) - multiset(acc), multiset(acc))
  }

  function KeepAll(vals: seq<int>): seq<int> {
    if |vals| == 0 then [] else Keep(KeepAll(vals[..|vals| - 1]), vals[|vals| - 1])
  }

  lemma {:induction false} KeepAllIsBest(vals: seq<int>)
    ensures BestOf(KeepAll(vals), vals)
  {
    if |vals| > 0 {
      var init := vals[..|vals| - 1];
      var v := vals[|vals| - 1];
      assert vals == init + [v];
      KeepAllIsBest(init);
      KeepStep(KeepAll(init), init, v);
    }
  }

  lemma KeepStep(acc: seq<int>, seen: seq<int>, v: int)
    requires BestOf(acc, seen)
    ensures BestOf(Keep(acc, v), seen + [v])
  {
    if |acc| + 1 <= 4 {
      KeepStepGrow(acc, seen, v);
    } else {
      KeepStepPop(acc, seen, v);
    }
  }

  lemma KeepStepGrow(acc: seq<int>, seen: seq<int>, v: int)
    requires BestOf(acc, seen) && |acc| < 4
    ensures BestOf(acc + [v], seen + [v])
  {
    assert |acc| == |seen|;
    MultisetSameSize(multiset(acc), multiset(seen));
    assert multiset(seen + [v]) == multiset(seen) + multiset{v};
    assert multiset(acc + [v]) == multiset(acc) + multiset{v};
    assert multiset(seen + [v]) == multiset(acc + [v]);
  }

  lemma KeepStepPop(acc: seq<int>, seen: seq<int>, v: int)
    requires BestOf(acc, seen) && |acc| >= 4
    ensures BestOf(Keep(acc, v), seen + [v])
  {
    var l := acc + [v];
    assert multiset(l) == multiset(acc) + multiset{v};
    var t := SortDesc(l);
    var kept := t[..4];
    var low := t[4];
    assert t == kept + [low];
    assert multiset(kept) + multiset{low} == multiset(acc) + multiset{v};
    forall y | y in multiset(kept)
      ensures low <= y
    {
      var j :| 0 <= j < 4 && kept[j] == y;
      assert t[j] == y;
    }
    DroppedAfterPop(seen, acc, v, kept, low);
    PopKeepsBest(multiset(seen) - multiset(acc), acc, v, kept, low);
    assert Keep(acc, v) == kept;
  }

  lemma DroppedAfterPop(seen: seq<int>, acc: seq<int>, v: int, kept: seq<int>, low: int)
    requires multiset(acc) <= multiset(seen)
    requires multiset(kept) + multiset{low} == multiset(acc) + multiset{v}
    ensures multiset(kept) <= multiset(seen + [v])
    ensures multiset(seen + [v]) - multiset(kept) == (multiset(seen) - multiset(acc)) + multiset{low}
  {
    assert multiset(seen + [v]) == multiset(seen) + multiset{v};
    forall z
      ensures multiset(kept)[z] <= multiset(seen + [v])[z]
      ensures (multiset(seen + [v]) - multiset(kept))[z] == ((multiset(seen) - multiset(acc)) + multiset{low})[z]
    {
      assert (multiset(kept) + multiset{low})[z] == (multiset(acc) + multiset{v})[z];
    }
  }

  lemma PopKeepsBest(dropped: multiset<int>, acc: seq<int>, v: int, kept: seq<int>, low: int)
    requires AllAtMost(dropped, multiset(acc))
    requires multiset(kept) + multiset{low} == multiset(acc) + multiset{v}
    requires forall y :: y in multiset(kept) ==> low <= y
    ensures AllAtMost(dropped + multiset{low}, multiset(kept))
  {
    if low == v {
      forall z
        ensures multiset(kept)[z] == multiset(acc)[z]
      {
        assert (multiset(kept) + multiset{low})[z] == (multiset(acc) + multiset{v})[z];
      }
      assert multiset(kept) == multiset(acc);
    }
    assert low in multiset(acc) + multiset{v};
    forall x, y | x in dropped + multiset{low} && y in multiset(kept)
      ensures x <= y
    {
      assert y in multiset(acc) + multiset{v};
    }
  }

  lemma MultisetSameSize(a: multiset<int>, b: multiset<int>)
    requires a <= b && |a| == |b|
    ensures b - a == multiset{}
  {
    assert |b - a| == |b| - |a|;
  }

  // ---------------------------------------------------------------------------
  // The whole summary
  // ---------------------------------------------------------------------------

  /** A satellite line's four fields, when it has at least four fields and
      the first four are all digits. */
  function Fields(line: string): (r: Option<seq<string>>)
    ensures r.Some? <==> |Words(line)| >= 4 && forall k :: 0 <= k < 4 ==> IsDigits(Words(line)[k])
    ensures r.Some? ==> r.value == Words(line)[..4]
  {
    var w := Words(line);
    if |w| < 4 then None
    else if IsDigits(w[0]) && IsDigits(w[1]) && IsDigits(w[2]) && IsDigits(w[3]) then Some(w[..4])
    else None
  }

  /** The SNR values of the usable lines, in order. */
  function SnrValues(lines: seq<string>): (vals: seq<int>)
    ensures forall i :: 0 <= i < |vals| ==> vals[i] >= 0
  {
    if |lines| == 0 then []
    else
      var prev := SnrValues(lines[..|lines| - 1]);
      match Fields(lines[|lines| - 1])
      case Some(f) => prev + [ValueOf(f[3]) as int]
      case None => prev
  }

  /** What `satdata` computes from the collected satellite lines: the dots to
      draw and the retained SNR values. */
  datatype Summary = Summary(dots: seq<Dot>, top: seq<int>)

  /** The SNR of each drawn dot, in drawing order. */
  function DotSnrs(dots: seq<Dot>): seq<int> {
    seq(|dots|, i requires 0 <= i < |dots| => dots[i].snr as int)
  }

  /** The values of `vals` strong enough to be drawn, in order. */
  function Drawable(vals: seq<int>): seq<int> {
    if |vals| == 0 then []
    else Drawable(vals[..|vals| - 1]) + (if vals[|vals| - 1] >= 3 then [vals[|vals| - 1]] else [])
  }

  /** One satellite line's contribution: a line without usable fields
      changes nothing; otherwise its SNR joins the retained list and, when
      it is 3 dB or more, a dot in its colour is appended. */
  function AddLine(prev: Summary, fields: Option<seq<string>>): (r: Summary)
    requires fields.Some? ==> |fields.value| == 4 && IsDigits(fields.value[3])
    ensures fields.None? ==> r == prev
    ensures fields.Some? ==> r.top == Keep(prev.top, ValueOf(fields.value[3]))
    ensures fields.Some? ==> DotSnrs(r.dots) == DotSnrs(prev.dots) + (if ValueOf(fields.value[3]) >= 3 then [ValueOf(fields.value[3]) as int] else [])
    ensures |r.dots| >= |prev.dots| && r.dots[..|prev.dots|] == prev.dots
    ensures forall i :: |prev.dots| <= i < |r.dots| ==> r.dots[i].snr >= 3 && ColourOf(r.dots[i].snr) == Some(r.dots[i].colour)
  {
    match fields
    case None => prev
    case Some(f) =>
      var snr := ValueOf(f[3]);
      var top := Keep(prev.top, snr);
      match ColourOf(snr)
      case None => Summary(prev.dots, top)
      case Some(c) =>
        var dot := Dot(f[0], f[1], f[2], snr, c);
        assert DotSnrs(prev.dots + [dot]) == DotSnrs(prev.dots) + [snr];
        Summary(prev.dots + [dot], top)
  }

  /** Every usable line with an SNR of 3 or more is drawn, in order, in the
      colour its SNR selects, and the retained list is built from every
      usable SNR, the undrawn ones included. */
  function Summarize(lines: seq<string>): (r: Summary)
    ensures forall i :: 0 <= i < |r.dots| ==> r.dots[i].snr >= 3
    ensures forall i :: 0 <= i < |r.dots| ==> ColourOf(r.dots[i].snr) == Some(r.dots[i].colour)
    ensures DotSnrs(r.dots) == Drawable(SnrValues(lines))
    ensures r.top == KeepAll(SnrValues(lines))
  {
    if |lines| == 0 then Summary([], [])
    else
      var prev := Summarize(lines[..|lines| - 1]);
      var f := Fields(lines[|lines| - 1]);
      if f.Some? then AppendValue(SnrValues(lines[..|lines| - 1]), ValueOf(f.value[3])); AddLine(prev, f)
      else AddLine(prev, f)
  }

  /** One more usable value extends both the drawable values and the
      retained list by one step. */
  lemma AppendValue(vals: seq<int>, v: int)
    ensures Drawable(vals + [v]) == Drawable(vals) + (if v >= 3 then [v] else [])
    ensures KeepAll(vals + [v]) == Keep(KeepAll(vals), v)
  {
    assert (vals + [v])[..|vals|] == vals;
  }

  lemma SummaryKeepsBest(lines: seq<string>)
    ensures BestOf(Summarize(lines).top, SnrValues(lines))
  {
    KeepAllIsBest(SnrValues(lines));
  }
}
