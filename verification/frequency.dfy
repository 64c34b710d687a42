/** The signal generator's frequency register: an integer number of
    centihertz, tuned one decimal digit at a time, shown and sent as twelve
    zero-padded digits. Increase wraps modulo 10^11 once the sum is strictly
    above 10^11; decrease clamps to 1 only when the difference is negative. */
module FrequencyRegister {
  import opened Text
  import opened FrameCodec

  /** 10^11 centihertz, that is 1 GHz. */
  const Capacity: nat := 100_000_000_000

  /** Width of the rendered value. */
  const Width: nat := 12

  /** The register's value when the program starts (1 MHz). */
  const Initial: nat := 100_000_000

  /** Values whose rendering is exactly `Width` digits. */
  predicate Renderable(fq: nat) {
    fq < 1_000_000_000_000
  }

  lemma PowersOfTen()
    ensures Pow10(11) == Capacity
    ensures Pow10(12) == 1_000_000_000_000
  {
    assert Pow10(4) == 10_000;
    assert Pow10(8) == 100_000_000;
  }

  /** Adding `amount` centihertz. The result is congruent to the sum modulo
      the capacity, equals the sum whenever the sum fits, and keeps a value in
      [1, Capacity] inside that range. */
  function Increase(fq: nat, amount: nat): (r: nat)
    ensures (fq + amount - r) % Capacity == 0
    ensures fq + amount <= Capacity ==> r == fq + amount
    ensures fq + amount > Capacity ==> r == fq + amount - Capacity
    ensures 1 <= fq <= Capacity && amount <= Capacity ==> 1 <= r <= Capacity
    ensures Renderable(fq) && amount <= Capacity ==> Renderable(r)
  {
    var t := fq + amount;
    if t > Capacity then t - Capacity else t
  }

  /** Subtracting `amount` centihertz. A non-negative difference is kept as
      is (zero included); a negative one is replaced by 1. */
  function Decrease(fq: nat, amount: nat): (r: nat)
    ensures amount <= fq ==> r + amount == fq
    ensures amount > fq ==> r == 1
    ensures r <= fq || r == 1
    ensures Renderable(fq) ==> Renderable(r)
  {
    if fq - amount < 0 then 1 else fq - amount
  }

  /** An increase that did not wrap is undone by the same decrease. */
  lemma IncreaseThenDecrease(fq: nat, amount: nat)
    requires fq + amount <= Capacity
    ensures Decrease(Increase(fq, amount), amount) == fq
  {
  }

  /** A decrease that did not clamp is undone by the same increase, as long
      as the value started within capacity. */
  lemma DecreaseThenIncrease(fq: nat, amount: nat)
    requires amount <= fq <= Capacity
    ensures Increase(Decrease(fq, amount), amount) == fq
  {
  }

  /** At the wrap boundary the round trip fails: 99999999999 + 100 wraps to
      99, and taking 100 away again clamps to 1. */
  lemma WrapBoundary()
    ensures Increase(99_999_999_999, 100) == 99
    ensures Decrease(Increase(99_999_999_999, 100), 100) == 1
  {
  }

  /** Exactly the capacity is kept rather than wrapped to 0. */
  lemma CapacityKept(fq: nat, amount: nat)
    requires fq + amount == Capacity
    ensures Increase(fq, amount) == Capacity
  {
  }

  /** Reaching exactly zero is kept; only a negative difference clamps. */
  lemma ZeroKept()
    ensures Decrease(1, 1) == 0
    ensures Decrease(1, 2) == 1
  {
  }

  // ---------------------------------------------------------------------------
  // Per-digit tuning and rendering
  // ---------------------------------------------------------------------------

  /** The eleven tunable digit positions, from 100 MHz down to 1 cHz. */
  datatype Digit = D100M | D10M | D1M | D100k | D10k | D1k | D100Hz | D10Hz | D1Hz | D10c | D1c

  /** The power of ten a digit position stands for, in centihertz. */
  function Exponent(d: Digit): (e: nat)
    ensures e <= 10
  {
    match d
    case D100M => 10
    case D10M => 9
    case D1M => 8
    case D100k => 7
    case D10k => 6
    case D1k => 5
    case D100Hz => 4
    case D10Hz => 3
    case D1Hz => 2
    case D10c => 1
    case D1c => 0
  }

  function Weight(d: Digit): (w: nat)
    ensures 1 <= w <= Capacity
  {
    PowBound(Exponent(d));
    Pow10(Exponent(d))
  }

  lemma {:induction false} PowBound(e: nat)
    requires e <= 10
    ensures Pow10(e) <= Pow10(10)
    decreases 10 - e
  {
    if e < 10 {
      PowBound(e + 1);
    }
  }

  /** The 12-character form sent to the device and shown on screen. */
  function Render(fq: nat): (s: string)
    ensures |s| >= Width && AllDigits(s)
    ensures ValueOf(s) == fq
    ensures Renderable(fq) ==> |s| == Width
  {
    ZeroPadValue(fq, Width);
    PowersOfTen();
    ZeroPad(fq, Width)
  }

  /** The eleven digit fields of the display: characters 1 to 11 of the
      rendered value (character 0, the 1 GHz digit, has no field). */
  function Display(data: string): (ds: seq<nat>)
    requires |data| >= Width
    requires forall i :: 1 <= i < Width ==> IsDigitChar(data[i])
    ensures |ds| == 11
    ensures forall i :: 0 <= i < 11 ==> ds[i] < 10 && ds[i] == DigitValue(data[i + 1])
  {
    seq(11, i requires 0 <= i < 11 => DigitValue(data[i + 1]))
  }

  /** The number a list of decimal digit values stands for. */
  function FromDigits(ds: seq<nat>): nat {
    if |ds| == 0 then 0 else FromDigits(ds[..|ds| - 1]) * 10 + ds[|ds| - 1]
  }

  lemma {:induction false} FromDigitsOfString(t: string)
    requires AllDigits(t)
    ensures FromDigits(seq(|t|, i requires 0 <= i < |t| => DigitValue(t[i]))) == ValueOf(t)
  {
    var ds := seq(|t|, i requires 0 <= i < |t| => DigitValue(t[i]));
    if |t| > 0 {
      var init := t[..|t| - 1];
      FromDigitsOfString(init);
      assert ds[..|ds| - 1] == seq(|init|, i requires 0 <= i < |init| => DigitValue(init[i]));
    }
  }

  /** The display fields spell the register modulo 10^11: the 1 GHz digit
      is not shown, so a value of exactly 10^11 shows as all zeros. */
  lemma DisplayShowsValue(fq: nat)
    ensures Renderable(fq) ==> FromDigits(Display(Render(fq))) == fq % Capacity
  {
    if !Renderable(fq) {
      return;
    }
    var s := Render(fq);
    var tail := s[1..];
    assert Display(s) == seq(|tail|, i requires 0 <= i < |tail| => DigitValue(tail[i]));
    FromDigitsOfString(tail);
    assert s == s[..1] + tail;
    ValueOfConcat(s[..1], tail);
    ValueOfBound(tail);
    PowersOfTen();
    DivMod(fq, ValueOf(s[..1]), ValueOf(tail));
  }

  lemma DivMod(fq: nat, q: nat, r: nat)
    requires fq == q * Capacity + r && r < Capacity
    ensures fq % Capacity == r
  {
  }

  lemma CapacityShowsZeros()
    ensures FromDigits(Display(Render(Capacity))) == 0
  {
    DisplayShowsValue(Capacity);
  }

  /** One press of a digit's up or down button (the `upX`/`downX`
      handlers): the new value, the set command sent to the device and the
      digits pushed to the display. */
  datatype Tuned = Tuned(fq: nat, command: Command, digits: seq<nat>)

  function Tune(fq: nat, d: Digit, up: bool): (r: Tuned)
    ensures r.fq == if up then Increase(fq, Weight(d)) else Decrease(fq, Weight(d))
    ensures r.command == Command("DGF", "S " + Render(r.fq))
    ensures |r.digits| == 11
    ensures Renderable(fq) ==> Renderable(r.fq) && |r.command.data| == 2 + Width
    ensures Renderable(fq) ==> FromDigits(r.digits) == r.fq % Capacity
  {
    var t := if up then Increase(fq, Weight(d)) else Decrease(fq, Weight(d));
    var text := Render(t);
    DisplayShowsValue(t);
    Tuned(t, Command("DGF", "S " + text), Display(text))
  }

  /** Pressing up then down on the same digit restores the value unless the
      increase wrapped. */
  lemma UpThenDown(fq: nat, d: Digit)
    requires fq + Weight(d) <= Capacity
    ensures Tune(Tune(fq, d, true).fq, d, false).fq == fq
  {
  }
}
