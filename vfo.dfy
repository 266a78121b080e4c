/**
 * The front panel of the VFO: a quadrature rotary encoder with a push
 * switch, decoded in interrupt handlers, and the polling loop that turns the
 * accumulated ticks and presses into a tuned frequency and a selected digit.
 *
 * The globals of main.cpp (encoder_count, button_pressed, button_state, the
 * function-static saved_enc) and the two locals of main() that the loop
 * updates (value, currentDigit) are the fields of class FrontPanel. The
 * interrupt handlers and one iteration of the loop are its methods. Pure
 * helpers (the pin code, the Gray-code tables, truncating division, powers
 * of ten, the clamp) are functions beside it, with lemmas about them.
 */
module Vfo {

  // GPIO numbers of the encoder lines
  const SwitchPin: int := 2
  const DtPin: int := 3
  const ClkPin: int := 4

  // The tuning band and the start-up state of the loop
  const MinValue: int := 7000000
  const MaxValue: int := 7200000
  const InitialValue: int := 7000000
  const MaxDigit: int := 6

  /** A 2-bit quadrature code: DT in bit 0, CLK in bit 1. */
  type Code = c: int | 0 <= c < 4

  function Bit(b: bool): int {
    if b then 1 else 0
  }

  function Abs(x: int): int {
    if x < 0 then -x else x
  }

  // ---------------------------------------------------------------------
  // Quadrature decoding
  // ---------------------------------------------------------------------

  /** The code read from the two encoder lines (gpio_get yields 0 or 1). */
  function EncState(dtHigh: bool, clkHigh: bool): (code: Code)
    ensures (code % 2 == 1) == dtHigh
    ensures (code / 2 == 1) == clkHigh
  {
    Bit(dtHigh) + 2 * Bit(clkHigh)
  }

  /** Every code is read from exactly one pair of line levels. */
  lemma EncStateDecodes(code: Code)
    ensures EncState(code % 2 == 1, code / 2 == 1) == code
  {
  }

  /** Exactly one of the two encoder lines differs between the codes. */
  predicate OneLineChanged(a: Code, b: Code) {
    (a % 2 != b % 2) != (a / 2 != b / 2)
  }

  /** The forward table of the decoder: 2->3, 3->1, 1->0, 0->2. */
  predicate IsForward(prev: Code, now: Code): (b: bool)
    ensures b ==> OneLineChanged(prev, now)
  {
    (prev == 2 && now == 3) || (prev == 3 && now == 1) ||
    (prev == 1 && now == 0) || (prev == 0 && now == 2)
  }

  /** The reverse table of the decoder: 3->2, 2->0, 0->1, 1->3. */
  predicate IsReverse(prev: Code, now: Code): (b: bool)
    ensures b ==> OneLineChanged(prev, now)
  {
    (prev == 3 && now == 2) || (prev == 2 && now == 0) ||
    (prev == 0 && now == 1) || (prev == 1 && now == 3)
  }

  /**
   * The change of the tick counter for one transition. The decoder tests the
   * two tables one after the other, so a pair found in both would cancel;
   * the ensures clauses show that no pair is.
   */
  function Delta(prev: Code, now: Code): (d: int)
    ensures -1 <= d <= 1
    ensures d == 1 <==> IsForward(prev, now)
    ensures d == -1 <==> IsReverse(prev, now)
    ensures d == 0 <==> prev == now || prev + now == 3
  {
    (if IsForward(prev, now) then 1 else 0) - (if IsReverse(prev, now) then 1 else 0)
  }

  /**
   * Position of a code along the forward walk 0 -> 2 -> 3 -> 1 -> 0: the
   * phase of the quadrature signal in quarter cycles.
   */
  function Phase(c: Code): (p: int)
    ensures 0 <= p < 4
  {
    if c == 0 then 0 else if c == 2 then 1 else if c == 3 then 2 else 3
  }

  /**
   * The two tables against an independent reference: a forward edge advances
   * the phase by one quarter, a reverse edge moves it back by one, and the
   * reverse table is the forward table with every pair swapped.
   */
  lemma TablesAreGraySteps(prev: Code, now: Code)
    ensures IsForward(prev, now) <==> Phase(now) == (Phase(prev) + 1) % 4
    ensures IsReverse(prev, now) <==> Phase(now) == (Phase(prev) + 3) % 4
    ensures IsReverse(prev, now) <==> IsForward(now, prev)
  {
  }

  /** Turning back across the same edge undoes the tick. */
  lemma DeltaAntisymmetric(a: Code, b: Code)
    ensures Delta(b, a) == -Delta(a, b)
  {
  }

  /** Net ticks counted along a walk of codes, one edge per consecutive pair. */
  function TicksAlong(path: seq<Code>): int
    decreases |path|
  {
    if |path| < 2 then 0 else Delta(path[0], path[1]) + TicksAlong(path[1..])
  }

  function Reverse(s: seq<Code>): (r: seq<Code>)
    ensures |r| == |s|
    ensures forall i :: 0 <= i < |s| ==> r[i] == s[|s| - 1 - i]
  {
    if s == [] then [] else Reverse(s[1..]) + [s[0]]
  }

  /** Extending a walk by one code adds the ticks of its last edge. */
  lemma {:induction false} TicksAlongSnoc(path: seq<Code>, c: Code)
    requires |path| >= 1
    ensures TicksAlong(path + [c]) == TicksAlong(path) + Delta(path[|path| - 1], c)
    decreases |path|
  {
    if |path| == 1 {
      assert path + [c] == [path[0], c];
    } else {
      assert (path + [c])[1..] == path[1..] + [c];
      TicksAlongSnoc(path[1..], c);
    }
  }

  /** Retracing any walk in the opposite direction restores the counter. */
  lemma {:induction false} TicksAlongReverse(path: seq<Code>)
    ensures TicksAlong(Reverse(path)) == -TicksAlong(path)
    decreases |path|
  {
    if |path| >= 2 {
      var rest := path[1..];
      TicksAlongReverse(rest);
      assert Reverse(path) == Reverse(rest) + [path[0]];
      assert Reverse(rest)[|rest| - 1] == path[1];
      TicksAlongSnoc(Reverse(rest), path[0]);
      DeltaAntisymmetric(path[0], path[1]);
    }
  }

  /** A walk of n edges moves the counter by at most n. */
  lemma {:induction false} TicksAlongBounded(path: seq<Code>)
    ensures Abs(TicksAlong(path)) <= if |path| == 0 then 0 else |path| - 1
    decreases |path|
  {
    if |path| >= 2 {
      TicksAlongBounded(path[1..]);
    }
  }

  /** One full forward quadrature cycle counts four ticks. */
  lemma FullCycleCountsFour()
    ensures TicksAlong([0, 2, 3, 1, 0]) == 4
    ensures TicksAlong([0, 1, 3, 2, 0]) == -4
  {
    assert [0, 2, 3, 1, 0][1..] == [2, 3, 1, 0];
    assert [2, 3, 1, 0][1..] == [3, 1, 0];
    assert [3, 1, 0][1..] == [1, 0];
    assert [0, 1, 3, 2, 0][1..] == [1, 3, 2, 0];
    assert [1, 3, 2, 0][1..] == [3, 2, 0];
    assert [3, 2, 0][1..] == [2, 0];
  }

  // ---------------------------------------------------------------------
  // Switch latch
  // ---------------------------------------------------------------------

  /** The two flags of the switch: button_state and button_pressed. */
  datatype Latch = Latch(state: bool, pressed: bool)

  /** One confirmation of the switch with the live pin level. */
  function LatchStep(l: Latch, pinHigh: bool): (r: Latch)
    ensures r.state == pinHigh
    ensures r.pressed == (l.pressed || (pinHigh && !l.state))
  {
    if pinHigh && !l.state then Latch(true, true)
    else if !pinHigh && l.state then Latch(false, l.pressed)
    else l
  }

  /** Confirming twice with the same level is the same as confirming once. */
  lemma LatchIdempotent(l: Latch, pinHigh: bool)
    ensures LatchStep(LatchStep(l, pinHigh), pinHigh) == LatchStep(l, pinHigh)
  {
  }

  /** The latch run over a sequence of confirmations. */
  function LatchRun(l: Latch, levels: seq<bool>): Latch
    decreases |levels|
  {
    if levels == [] then l else LatchRun(LatchStep(l, levels[0]), levels[1..])
  }

  /** The level the latch held before confirmation i of a run. */
  function LevelBefore(l: Latch, levels: seq<bool>, i: int): bool
    requires 0 <= i < |levels|
  {
    if i == 0 then l.state else levels[i - 1]
  }

  /** Some confirmation of the run sees the pin high after a released level. */
  predicate PressedDuring(l: Latch, levels: seq<bool>) {
    exists i :: 0 <= i < |levels| && levels[i] && !LevelBefore(l, levels, i)
  }

  /** PressedDuring, split at the first confirmation of the run. */
  lemma PressedDuringCons(l: Latch, levels: seq<bool>)
    requires levels != []
    ensures PressedDuring(l, levels) <==>
      (levels[0] && !l.state) || PressedDuring(LatchStep(l, levels[0]), levels[1..])
  {
    var l', rest := LatchStep(l, levels[0]), levels[1..];
    if i :| 0 <= i < |levels| && levels[i] && !LevelBefore(l, levels, i) {
      if i > 0 {
        assert rest[i - 1] && !LevelBefore(l', rest, i - 1);
      }
    }
    if j :| 0 <= j < |rest| && rest[j] && !LevelBefore(l', rest, j) {
      assert levels[j + 1] && !LevelBefore(l, levels, j + 1);
    }
  }

  /**
   * After a run of confirmations the state is the last level read, and the
   * press flag is up exactly when it was up before or some confirmation saw
   * a released-to-pressed change.
   */
  lemma {:induction false} LatchRunState(l: Latch, levels: seq<bool>)
    ensures LatchRun(l, levels).state == if levels == [] then l.state else levels[|levels| - 1]
    ensures LatchRun(l, levels).pressed == (l.pressed || PressedDuring(l, levels))
    decreases |levels|
  {
    if levels != [] {
      LatchRunState(LatchStep(l, levels[0]), levels[1..]);
      PressedDuringCons(l, levels);
    }
  }

  // ---------------------------------------------------------------------
  // Arithmetic of the polling loop
  // ---------------------------------------------------------------------

  /** C++ integer division, which truncates toward zero. */
  function TruncDiv(a: int, b: int): (q: int)
    requires b != 0
    ensures a >= 0 ==> 0 <= a - q * b < Abs(b)
    ensures a < 0 ==> -Abs(b) < a - q * b <= 0
  {
    if a >= 0 then a / b else -((-a) / b)
  }

  /** Truncation is symmetric about zero. */
  lemma TruncDivNegate(a: int, b: int)
    requires b != 0
    ensures TruncDiv(-a, b) == -TruncDiv(a, b)
  {
  }

  /** Truncating and Euclidean division differ on negative dividends. */
  lemma TruncDivIsNotEuclidean()
    ensures TruncDiv(-3, 2) == -1
    ensures -3 / 2 == -2
  {
  }

  /** Integer powers of ten (the loop calls pow(10, n) only for 0 <= n <= 5). */
  function Pow10(n: nat): (r: nat)
    ensures r >= 1
    ensures n >= 1 ==> r % 10 == 0
  {
    if n == 0 then 1 else 10 * Pow10(n - 1)
  }

  /** The step sizes selectable with the digit cursor, from digit 1 to 6. */
  lemma DigitSteps()
    ensures Pow10(MaxDigit - 1) == 100000
    ensures Pow10(MaxDigit - 2) == 10000
    ensures Pow10(MaxDigit - 3) == 1000
    ensures Pow10(MaxDigit - 4) == 100
    ensures Pow10(MaxDigit - 5) == 10
    ensures Pow10(MaxDigit - 6) == 1
  {
    assert Pow10(1) == 10;
    assert Pow10(2) == 100;
    assert Pow10(3) == 1000;
    assert Pow10(4) == 10000;
  }

  /** std::clamp. */
  function Clamp(x: int, lo: int, hi: int): (r: int)
    requires lo <= hi
    ensures lo <= r <= hi
    ensures lo <= x <= hi ==> r == x
  {
    if x < lo then lo else if x > hi then hi else x
  }

  /** The clamp picks the point of the band nearest to x. */
  lemma ClampIsNearest(x: int, lo: int, hi: int, v: int)
    requires lo <= hi
    requires lo <= v <= hi
    ensures Abs(Clamp(x, lo, hi) - x) <= Abs(v - x)
  {
  }

  /**
   * The new frequency after the loop drains count ticks with the cursor on
   * digit: half the ticks, truncated, each worth one unit of that digit,
   * clamped to the band.
   */
  function Tune(value: int, digit: int, count: int): (r: int)
    requires 1 <= digit <= MaxDigit
    ensures MinValue <= r <= MaxValue
  {
    Clamp(value + TruncDiv(count, 2) * Pow10(MaxDigit - digit), MinValue, MaxValue)
  }

  /**
   * Tuning moves the frequency in the direction of the ticks, by exactly
   * half of them (truncated) units of the digit while the band allows it.
   */
  lemma TuneDirection(value: int, digit: int, count: int)
    requires MinValue <= value <= MaxValue
    requires 1 <= digit <= MaxDigit
    ensures count >= 0 ==> Tune(value, digit, count) >= value
    ensures count <= 0 ==> Tune(value, digit, count) <= value
    ensures -1 <= count <= 1 ==> Tune(value, digit, count) == value
    ensures MinValue <= value + TruncDiv(count, 2) * Pow10(MaxDigit - digit) <= MaxValue ==>
      Tune(value, digit, count) == value + TruncDiv(count, 2) * Pow10(MaxDigit - digit)
  {
    var q := TruncDiv(count, 2);
    assert count >= 0 ==> q >= 0;
    assert count <= 0 ==> q <= 0;
    assert -1 <= count <= 1 ==> q == 0;
  }

  /** An odd tick left over after halving is dropped, in either direction. */
  lemma {:induction false} TuneDropsOddTick(value: int, digit: int, k: int)
    requires 1 <= digit <= MaxDigit
    ensures Tune(value, digit, 2 * k + (if k >= 0 then 1 else -1)) == Tune(value, digit, 2 * k)
  {
    assert TruncDiv(2 * k, 2) == k;
    assert TruncDiv(2 * k + (if k >= 0 then 1 else -1), 2) == k;
  }

  /** The digit after one press: 1..5 advance, 6 wraps to 1. */
  function NextDigit(d: int): (r: int)
    requires 1 <= d <= MaxDigit
    ensures 1 <= r <= MaxDigit
    ensures r == if d == MaxDigit then 1 else d + 1
  {
    d % MaxDigit + 1
  }

  /** The digit after n presses. */
  function Presses(d: int, n: nat): (r: int)
    requires 1 <= d <= MaxDigit
    ensures 1 <= r <= MaxDigit
    decreases n
  {
    if n == 0 then d else Presses(NextDigit(d), n - 1)
  }

  /** The cursor cycles through the six digits: n presses move it n places. */
  lemma {:induction false} PressesCycle(d: int, n: nat)
    requires 1 <= d <= MaxDigit
    ensures Presses(d, n) == (d - 1 + n) % MaxDigit + 1
    decreases n
  {
    if n > 0 {
      PressesCycle(NextDigit(d), n - 1);
      assert (NextDigit(d) - 1 + (n - 1)) % MaxDigit == (d - 1 + n) % MaxDigit;
    }
  }

  // ---------------------------------------------------------------------
  // The state of main.cpp
  // ---------------------------------------------------------------------

  class FrontPanel {
    var savedEnc: Code       // static saved_enc of encoder_callback
    var encoderCount: int    // std::atomic<int> encoder_count
    var buttonPressed: bool  // std::atomic<bool> button_pressed
    var buttonState: bool    // std::atomic<bool> button_state
    var value: int           // uint64_t value, the tuned frequency in Hz
    var currentDigit: int    // uint32_t currentDigit, the cursor position

    /** The loop keeps the frequency in the band and the cursor on a digit. */
    ghost predicate Valid()
      reads this
    {
      MinValue <= value <= MaxValue && 1 <= currentDigit <= MaxDigit
    }

    /**
     * The static initial values of the globals and of saved_enc
     * (main.cpp:31-33, 67) with the locals value and currentDigit of
     * main.cpp:157-158.
     */
    constructor ()
      ensures Valid()
      ensures savedEnc == 0 && encoderCount == 0
      ensures !buttonPressed && !buttonState
      ensures value == InitialValue && currentDigit == MaxDigit
    {
      savedEnc := 0;
      encoderCount := 0;
      buttonPressed := false;
      buttonState := false;
      value := InitialValue;
      currentDigit := MaxDigit;
    }

    /**
     * The pin-change interrupt. An edge on the switch only schedules the
     * delayed confirmation (HandleSwitch); an edge on CLK or DT runs the
     * decoder with the line levels read at that moment.
     */
    method EncoderCallback(gpio: int, dtHigh: bool, clkHigh: bool)
      modifies this`savedEnc, this`encoderCount
      ensures gpio == ClkPin || gpio == DtPin ==>
        savedEnc == EncState(dtHigh, clkHigh) &&
        encoderCount == old(encoderCount) + Delta(old(savedEnc), savedEnc)
      ensures gpio == SwitchPin || !(gpio == ClkPin || gpio == DtPin) ==>
        savedEnc == old(savedEnc) && encoderCount == old(encoderCount)
    {
      if gpio == SwitchPin {
        // the 50 ms alarm that runs HandleSwitch is not part of this model
      } else if gpio == ClkPin || gpio == DtPin {
        var encNow := EncState(dtHigh, clkHigh);
        if encNow == savedEnc {
          return;
        }
        var encPrev := savedEnc;
        savedEnc := encNow;
        if IsForward(encPrev, encNow) {
          encoderCount := encoderCount + 1;
        }
        if IsReverse(encPrev, encNow) {
          encoderCount := encoderCount - 1;
        }
      }
    }

    /** The delayed switch confirmation, given the live pin level. */
    method HandleSwitch(pinHigh: bool)
      modifies this`buttonState, this`buttonPressed
      ensures Latch(buttonState, buttonPressed) == LatchStep(old(Latch(buttonState, buttonPressed)), pinHigh)
    {
      if pinHigh && buttonState == false {
        buttonPressed := true;
        buttonState := true;
      } else if !pinHigh && buttonState == true {
        buttonState := false;
      }
    }

    /**
     * One iteration of the polling loop, on a single reading of the tick
     * counter. The frequency is retuned with the digit selected BEFORE this
     * iteration's press is applied. Returns whether the display is redrawn.
     */
    method LoopStep() returns (update: bool)
      requires Valid()
      modifies this`value, this`encoderCount, this`currentDigit, this`buttonPressed
      ensures Valid()
      ensures Abs(old(encoderCount)) > 1 ==>
        value == Tune(old(value), old(currentDigit), old(encoderCount)) && encoderCount == 0
      ensures Abs(old(encoderCount)) <= 1 ==>
        value == old(value) && encoderCount == old(encoderCount)
      ensures old(buttonPressed) ==> currentDigit == NextDigit(old(currentDigit)) && !buttonPressed
      ensures !old(buttonPressed) ==> currentDigit == old(currentDigit) && !buttonPressed
      ensures update == (Abs(old(encoderCount)) > 1 || old(buttonPressed))
    {
      update := false;
      var count := encoderCount;
      if Abs(count) > 1 {
        value := Tune(value, currentDigit, count);
        encoderCount := 0;
        update := true;
      }
      if buttonPressed {
        currentDigit := currentDigit + 1;
        if currentDigit > MaxDigit {
          currentDigit := 1;
        }
        buttonPressed := false;
        update := true;
      }
    }

    /**
     * A run of decoder interrupts, one per code of path after the first,
     * starting from the saved code path[0]: the counter moves by the net
     * ticks of the walk and the saved code ends at its last code.
     */
    method ReplayEdges(path: seq<Code>)
      requires |path| >= 1 && savedEnc == path[0]
      modifies this`savedEnc, this`encoderCount
      ensures savedEnc == path[|path| - 1]
      ensures encoderCount == old(encoderCount) + TicksAlong(path)
    {
      var i := 1;
      while i < |path|
        invariant 1 <= i <= |path|
        invariant savedEnc == path[i - 1]
        invariant encoderCount == old(encoderCount) + TicksAlong(path[..i])
      {
        var c := path[i];
        EncoderCallback(DtPin, c % 2 == 1, c / 2 == 1);
        EncStateDecodes(c);
        assert path[..i + 1] == path[..i] + [c];
        TicksAlongSnoc(path[..i], c);
        i := i + 1;
      }
      assert path[..|path|] == path;
    }
  }
}
