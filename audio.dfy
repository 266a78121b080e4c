/**
 * The audio side tone: a phase accumulator that walks a 2048-entry wave
 * table, and the routine that fills one audio buffer with successive frames.
 *
 * The globals of the vfo_audio namespace become the fields of class
 * ToneGenerator (the phase pos and the table) and module constants (step and
 * pos_max, which nothing writes after start-up). The phase is a uint32_t, so
 * its arithmetic is written modulo 2^32.
 */
module Audio {

  const TableLen: int := 2048
  const Step: int := 0x200000
  const PosMax: int := 0x10000 * TableLen
  const Uint32Span: int := 0x1_0000_0000

  type Uint32 = x: int | 0 <= x < Uint32Span

  /**
   * One advance of the phase: pos += step, then pos -= pos_max once the
   * phase reaches pos_max, both in uint32_t arithmetic.
   */
  function NextPos(pos: Uint32, step: Uint32, posMax: Uint32): (r: Uint32)
    ensures r <= (pos + step) % Uint32Span
    ensures (pos + step) % Uint32Span < 2 * posMax ==> r < posMax
  {
    var p := (pos + step) % Uint32Span;
    if p >= posMax then p - posMax else p
  }

  /** a * m >= m for a positive factor a. */
  lemma {:induction false} MulAtLeast(a: int, m: int)
    requires a >= 1 && m > 0
    ensures a * m >= m
    decreases a
  {
    if a > 1 {
      MulAtLeast(a - 1, m);
      assert a * m == (a - 1) * m + m;
    }
  }

  /** Euclidean remainder is determined by any quotient-remainder split. */
  lemma ModUnique(x: int, m: int, q: int, r: int)
    requires m > 0 && x == q * m + r && 0 <= r < m
    ensures x % m == r
  {
    var q', r' := x / m, x % m;
    assert x == q' * m + r';
    if q' > q {
      MulAtLeast(q' - q, m);
    } else if q' < q {
      MulAtLeast(q - q', m);
    }
  }

  /**
   * While the phase and the step stay below pos_max and pos_max leaves one
   * bit of headroom, the advance is addition modulo pos_max: the sum never
   * wraps the 32-bit register and one subtraction brings it back in range.
   */
  lemma NextPosIsModular(pos: Uint32, step: Uint32, posMax: Uint32)
    requires pos < posMax && step < posMax && posMax <= 0x8000_0000
    ensures pos + step < Uint32Span
    ensures NextPos(pos, step, posMax) == (pos + step) % posMax
    ensures NextPos(pos, step, posMax) < posMax
  {
    var s := pos + step;
    ModUnique(s, Uint32Span, 0, s);
    if s >= posMax {
      ModUnique(s, posMax, 1, s - posMax);
    } else {
      ModUnique(s, posMax, 0, s);
    }
  }

  /** Without that headroom the sum can wrap and the phase lands elsewhere. */
  lemma NextPosNeedsHeadroom()
    ensures NextPos(0xFFFF_FFFE, 0xFFFF_FFFE, 0xFFFF_FFFF) == 0xFFFF_FFFC
    ensures (0xFFFF_FFFE + 0xFFFF_FFFE) % 0xFFFF_FFFF == 0xFFFF_FFFD
  {
  }

  /** The table index pos >> 16 of a phase. */
  function TableIndex(pos: Uint32): (i: nat)
    ensures i * 0x10000 <= pos < (i + 1) * 0x10000
    ensures pos < PosMax ==> i < TableLen
  {
    pos / 0x10000
  }

  /** The phase after n frames with the configured step and pos_max. */
  function PosAfter(pos: Uint32, n: nat): (r: Uint32)
    requires pos < PosMax
    ensures r < PosMax
    decreases n
  {
    if n == 0 then pos
    else
      StepFits(pos);
      PosAfter(NextPos(pos, Step, PosMax), n - 1)
  }

  /** The configured constants fit the headroom NextPosIsModular needs. */
  lemma StepFits(pos: Uint32)
    requires pos < PosMax
    ensures pos + Step < Uint32Span
    ensures NextPos(pos, Step, PosMax) == (pos + Step) % PosMax < PosMax
  {
    NextPosIsModular(pos, Step, PosMax);
  }

  /** After n frames the phase is the start plus n steps, modulo pos_max. */
  lemma {:induction false} PosAfterClosedForm(pos: Uint32, n: nat)
    requires pos < PosMax
    ensures PosAfter(pos, n) == (pos + n * Step) % PosMax
    decreases n
  {
    if n > 0 {
      var next := NextPos(pos, Step, PosMax);
      StepFits(pos);
      PosAfterClosedForm(next, n - 1);
      ModAddStep(pos, n);
    }
  }

  /** ((pos + step) % m + (n - 1) * step) % m == (pos + n * step) % m */
  lemma ModAddStep(pos: int, n: nat)
    requires 0 <= pos < PosMax && n > 0
    ensures ((pos + Step) % PosMax + (n - 1) * Step) % PosMax == (pos + n * Step) % PosMax
  {
    var a := pos + Step;
    if a >= PosMax {
      assert a % PosMax == a - PosMax;
      assert (a - PosMax + (n - 1) * Step) == (pos + n * Step) - PosMax;
      ModShift(pos + n * Step);
    } else {
      assert a % PosMax == a;
    }
  }

  lemma ModShift(x: int)
    requires x >= PosMax
    ensures (x - PosMax) % PosMax == x % PosMax
  {
  }

  /** The step divides pos_max 64 times, so the tone repeats every 64 frames. */
  lemma PeriodIs64(pos: Uint32)
    requires pos < PosMax
    ensures PosMax == 64 * Step
    ensures PosAfter(pos, 64) == pos
  {
    var n: nat := 64;
    PosAfterClosedForm(pos, n);
    ModUnique(pos + n * Step, PosMax, 1, pos);
  }

  /** ... and no earlier. */
  lemma NoShorterPeriod(pos: Uint32, n: nat)
    requires pos < PosMax
    requires 0 < n < 64
    ensures PosAfter(pos, n) != pos
  {
    PosAfterClosedForm(pos, n);
    var x := pos + n * Step;
    if x < PosMax {
      ModUnique(x, PosMax, 0, x);
    } else {
      ModUnique(x, PosMax, 1, x - PosMax);
    }
  }

  /** A phase that is a whole number of steps stays one. */
  lemma NextPosKeepsGrid(pos: Uint32)
    requires pos < PosMax && pos % Step == 0
    ensures NextPos(pos, Step, PosMax) % Step == 0
  {
    StepFits(pos);
  }

  /** One step more is one more frame. */
  lemma {:induction false} PosAfterSucc(pos: Uint32, n: nat)
    requires pos < PosMax
    ensures PosAfter(pos, n + 1) == NextPos(PosAfter(pos, n), Step, PosMax)
    decreases n
  {
    if n > 0 {
      StepFits(pos);
      PosAfterSucc(NextPos(pos, Step, PosMax), n - 1);
    }
  }

  /** The tone state: the phase accumulator and the wave table it reads. */
  class ToneGenerator {
    var pos: Uint32
    const table: array<int>

    ghost predicate Valid()
      reads this
    {
      table.Length == TableLen && pos < PosMax
    }

    /** The state at start-up: phase 0 and a table built elsewhere. */
    constructor (table: array<int>)
      requires table.Length == TableLen
      ensures Valid() && this.table == table && pos == 0
    {
      this.table := table;
      pos := 0;
    }

    /**
     * get_audio_frame: read the table entry at the current phase, then
     * advance the phase by one step.
     */
    method GetAudioFrame() returns (entry: int)
      requires Valid()
      modifies this`pos
      ensures Valid()
      ensures entry == table[TableIndex(old(pos))]
      ensures pos == NextPos(old(pos), Step, PosMax)
    {
      entry := table[pos / 0x10000];
      pos := (pos + Step) % Uint32Span;
      if pos >= PosMax {
        pos := pos - PosMax;
      }
      StepFits(old(pos));
    }
  }

  /** An audio buffer taken from the pool: its sample storage and counts. */
  class AudioBuffer {
    const samples: array<int>
    var maxSampleCount: nat
    var sampleCount: nat

    ghost predicate Valid()
      reads this
    {
      maxSampleCount <= samples.Length
    }

    constructor (samples: array<int>, maxSampleCount: nat)
      requires maxSampleCount <= samples.Length
      ensures Valid() && this.samples == samples
      ensures this.maxSampleCount == maxSampleCount && sampleCount == 0
    {
      this.samples := samples;
      this.maxSampleCount := maxSampleCount;
      sampleCount := 0;
    }
  }

  /**
   * update_buffer with the tone generator as its frame callback. buffer is
   * what the non-blocking take from the pool returned: null when no buffer
   * was free.
   */
  method UpdateBuffer(buffer: AudioBuffer?, gen: ToneGenerator)
    requires gen.Valid()
    requires buffer != null ==> buffer.Valid() && buffer.samples != gen.table
    modifies gen`pos
    modifies if buffer == null then {} else {buffer, buffer.samples}
    ensures gen.Valid()
    ensures buffer == null ==> gen.pos == old(gen.pos)
    ensures buffer != null ==>
      buffer.maxSampleCount == old(buffer.maxSampleCount) &&
      buffer.sampleCount == buffer.maxSampleCount &&
      gen.pos == PosAfter(old(gen.pos), buffer.maxSampleCount) &&
      (forall i :: 0 <= i < buffer.maxSampleCount ==>
         buffer.samples[i] == gen.table[TableIndex(PosAfter(old(gen.pos), i))]) &&
      (forall i :: buffer.maxSampleCount <= i < buffer.samples.Length ==>
         buffer.samples[i] == old(buffer.samples[i]))
  {
    if buffer == null {
      return;
    }
    var samples := buffer.samples;
    var i := 0;
    while i < buffer.maxSampleCount
      invariant 0 <= i <= buffer.maxSampleCount
      invariant buffer.maxSampleCount == old(buffer.maxSampleCount) <= samples.Length
      invariant gen.Valid()
      invariant gen.pos == PosAfter(old(gen.pos), i)
      invariant forall k :: 0 <= k < i ==> samples[k] == gen.table[TableIndex(PosAfter(old(gen.pos), k))]
      invariant forall k :: i <= k < samples.Length ==> samples[k] == old(samples[k])
    {
      var frame := gen.GetAudioFrame();
      samples[i] := frame;
      PosAfterSucc(old(gen.pos), i);
      i := i + 1;
    }
    buffer.sampleCount := buffer.maxSampleCount;
  }
}
