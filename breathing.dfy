/** The breathing exercise shown under the advice for breathing problems:
    three cycles of inhale, hold and exhale, each phase counted down one
    second per line. */
module Breathing {

  datatype Phase = Inhale | Hold | Exhale

  function PhaseName(phase: Phase): string {
    match phase
    case Inhale => "Inhale"
    case Hold => "Hold"
    case Exhale => "Exhale"
  }

  /** The phases of one cycle, in order, with their length in seconds. */
  const Steps: seq<(Phase, nat)> := [(Inhale, 4), (Hold, 7), (Exhale, 8)]

  /** The number of cycles. */
  const Cycles: nat := 3

  /** A line the exercise writes: a fixed instruction, the header of a cycle,
      the header of a phase, or one second of a countdown (written before the
      one-second pause). */
  datatype Line = Intro(text: string) | CycleHeader(cycle: nat) | PhaseHeader(phase: Phase, seconds: nat) | Tick(remaining: nat)

  /** The instructions written before the timer starts. */
  const Instructions: seq<string> := [
    "### Breathing Exercise",
    "Follow the steps below with the timer:",
    "- Inhale for 4 seconds",
    "- Hold breath for 7 seconds",
    "- Exhale for 8 seconds",
    "Repeat 3 cycles."
  ]

  function IntroLines(): seq<Line> {
    seq(|Instructions|, i requires 0 <= i < |Instructions| => Intro(Instructions[i]))
  }

  /** `range(hi, lo, -1)` as countdown lines: hi, hi - 1, ..., lo + 1. */
  function Ticks(hi: nat, lo: nat): (lines: seq<Line>)
    ensures |lines| == if hi <= lo then 0 else hi - lo
  {
    var n := if hi <= lo then 0 else hi - lo;
    seq(n, j requires 0 <= j < n => Tick(hi - j))
  }

  /** One phase: its header, then its countdown from its length to 1. */
  function PhaseLines(step: (Phase, nat)): seq<Line> {
    [PhaseHeader(step.0, step.1)] + Ticks(step.1, 0)
  }

  /** The lines of the first `k` phases of a cycle. */
  function StepsLines(k: nat): seq<Line>
    requires k <= |Steps|
  {
    if k == 0 then [] else StepsLines(k - 1) + PhaseLines(Steps[k - 1])
  }

  /** Cycle number `cycle`: its header, then the three phases. */
  function CycleLines(cycle: nat): seq<Line> {
    [CycleHeader(cycle)] + StepsLines(|Steps|)
  }

  /** The lines of cycles 1 to `n`. */
  function CyclesLines(n: nat): seq<Line> {
    if n == 0 then [] else CyclesLines(n - 1) + CycleLines(n)
  }

  /** Everything `breathing_exercise()` writes. */
  function Exercise(): seq<Line> {
    IntroLines() + CyclesLines(Cycles)
  }

  /** The innermost loop of `breathing_exercise()`: a phase's header, then
      `for i in range(sec, 0, -1)` writing each remaining second. */
  method WritePhase(lines: seq<Line>, phase: Phase, sec: nat) returns (out: seq<Line>)
    ensures out == lines + PhaseLines((phase, sec))
  {
    out := lines + [PhaseHeader(phase, sec)];
    var i := sec;
    while i > 0
      invariant 0 <= i <= sec
      invariant out == lines + [PhaseHeader(phase, sec)] + Ticks(sec, i)
    {
      out := out + [Tick(i)];
      TicksStep(lines + [PhaseHeader(phase, sec)], sec, i);
      i := i - 1;
    }
  }

  /** The middle loop: a cycle's header, then each of the three phases. */
  method WriteCycle(lines: seq<Line>, cycle: nat) returns (out: seq<Line>)
    ensures out == lines + CycleLines(cycle)
  {
    out := lines + [CycleHeader(cycle)];
    var k := 0;
    while k < |Steps|
      invariant 0 <= k <= |Steps|
      invariant out == lines + [CycleHeader(cycle)] + StepsLines(k)
    {
      out := WritePhase(out, Steps[k].0, Steps[k].1);
      StepsStep(lines + [CycleHeader(cycle)], k);
      k := k + 1;
    }
  }

  /** `breathing_exercise()`: the instructions, then `for cycle in range(1, 4)`. */
  method RunExercise() returns (lines: seq<Line>)
    ensures lines == Exercise()
  {
    lines := IntroLines();
    var cycle := 1;
    while cycle <= Cycles
      invariant 1 <= cycle <= Cycles + 1
      invariant lines == IntroLines() + CyclesLines(cycle - 1)
    {
      lines := WriteCycle(lines, cycle);
      CyclesStep(IntroLines(), cycle);
      cycle := cycle + 1;
    }
  }

  /** One more second of a countdown appends one line. */
  lemma TicksStep(prefix: seq<Line>, hi: nat, i: nat)
    requires 0 < i <= hi
    ensures prefix + Ticks(hi, i - 1) == prefix + Ticks(hi, i) + [Tick(i)]
  {
    TicksExtend(hi, i);
  }

  lemma TicksExtend(hi: nat, i: nat)
    requires 0 < i <= hi
    ensures Ticks(hi, i - 1) == Ticks(hi, i) + [Tick(i)]
  {
    var longer, shorter := Ticks(hi, i - 1), Ticks(hi, i);
    assert forall j :: 0 <= j < |shorter| ==> longer[j] == shorter[j];
  }

  /** One more phase appends that phase's lines. */
  lemma StepsStep(prefix: seq<Line>, k: nat)
    requires k < |Steps|
    ensures prefix + StepsLines(k) + PhaseLines((Steps[k].0, Steps[k].1)) == prefix + StepsLines(k + 1)
  {
  }

  /** One more cycle appends that cycle's lines. */
  lemma CyclesStep(prefix: seq<Line>, cycle: nat)
    requires 0 < cycle
    ensures prefix + CyclesLines(cycle - 1) + CycleLines(cycle) == prefix + CyclesLines(cycle)
  {
  }

  /** The number of countdown lines, each followed by a one-second pause. */
  function Seconds(lines: seq<Line>): nat {
    if lines == [] then 0
    else Seconds(lines[..|lines| - 1]) + (if lines[|lines| - 1].Tick? then 1 else 0)
  }

  lemma {:induction false} SecondsAppend(a: seq<Line>, b: seq<Line>)
    ensures Seconds(a + b) == Seconds(a) + Seconds(b)
    decreases |b|
  {
    if b == [] {
      assert a + b == a;
    } else {
      var n := |b| - 1;
      assert (a + b)[..|a + b| - 1] == a + b[..n];
      SecondsAppend(a, b[..n]);
    }
  }

  /** Lines without a countdown take no time. */
  lemma {:induction false} NoTicksNoSeconds(lines: seq<Line>)
    requires forall i :: 0 <= i < |lines| ==> !lines[i].Tick?
    ensures Seconds(lines) == 0
  {
    if lines != [] {
      NoTicksNoSeconds(lines[..|lines| - 1]);
    }
  }

  /** A countdown pauses once per line. */
  lemma {:induction false} TicksSeconds(hi: nat, lo: nat)
    ensures Seconds(Ticks(hi, lo)) == if hi <= lo then 0 else hi - lo
    decreases hi - lo
  {
    if hi > lo {
      TicksSeconds(hi, lo + 1);
      TicksExtend(hi, lo + 1);
      SecondsAppend(Ticks(hi, lo + 1), [Tick(lo + 1)]);
      assert Seconds([Tick(lo + 1)]) == 1 by { assert [Tick(lo + 1)][..0] == []; }
    }
  }

  /** A phase lasts as many seconds as its length. */
  lemma PhaseSeconds(step: (Phase, nat))
    ensures Seconds(PhaseLines(step)) == step.1
  {
    SecondsAppend([PhaseHeader(step.0, step.1)], Ticks(step.1, 0));
    assert Seconds([PhaseHeader(step.0, step.1)]) == 0 by { assert [PhaseHeader(step.0, step.1)][..0] == []; }
    TicksSeconds(step.1, 0);
  }

  /** A cycle takes 4 + 7 + 8 = 19 seconds. */
  lemma CycleSeconds(cycle: nat)
    ensures Seconds(CycleLines(cycle)) == 19
  {
    PhaseSeconds(Steps[0]);
    PhaseSeconds(Steps[1]);
    PhaseSeconds(Steps[2]);
    SecondsAppend(StepsLines(0), PhaseLines(Steps[0]));
    SecondsAppend(StepsLines(1), PhaseLines(Steps[1]));
    SecondsAppend(StepsLines(2), PhaseLines(Steps[2]));
    SecondsAppend([CycleHeader(cycle)], StepsLines(3));
    assert Seconds([CycleHeader(cycle)]) == 0 by { assert [CycleHeader(cycle)][..0] == []; }
  }

  /** `n` cycles take 19 seconds each. */
  lemma {:induction false} CyclesSeconds(n: nat)
    ensures Seconds(CyclesLines(n)) == 19 * n
  {
    if n > 0 {
      CyclesSeconds(n - 1);
      SecondsAppend(CyclesLines(n - 1), CycleLines(n));
      CycleSeconds(n);
    }
  }

  /** The instructions take no time. */
  lemma SecondsAfterIntro(rest: seq<Line>)
    ensures Seconds(IntroLines() + rest) == Seconds(rest)
  {
    SecondsAppend(IntroLines(), rest);
    NoTicksNoSeconds(IntroLines());
  }

  /** The whole exercise pauses 57 times, one second each. */
  lemma ExerciseSeconds()
    ensures Seconds(Exercise()) == 57
  {
    SecondsAfterIntro(CyclesLines(Cycles));
    CyclesSeconds(Cycles);
  }

  /** A cycle is its header, then each phase's header followed by its countdown. */
  lemma CycleShape(cycle: nat)
    ensures CycleLines(cycle) ==
      [CycleHeader(cycle), PhaseHeader(Inhale, 4)] + Ticks(4, 0) +
      [PhaseHeader(Hold, 7)] + Ticks(7, 0) +
      [PhaseHeader(Exhale, 8)] + Ticks(8, 0)
  {
    var inhale, hold, exhale := PhaseLines(Steps[0]), PhaseLines(Steps[1]), PhaseLines(Steps[2]);
    assert StepsLines(1) == inhale by { assert StepsLines(0) == []; }
    assert StepsLines(3) == inhale + hold + exhale;
    assert inhale == [PhaseHeader(Inhale, 4)] + Ticks(4, 0);
    assert hold == [PhaseHeader(Hold, 7)] + Ticks(7, 0);
    assert exhale == [PhaseHeader(Exhale, 8)] + Ticks(8, 0);
  }

  /** A cycle writes its header, three phase headers and 4 + 7 + 8
      countdown lines. */
  lemma CycleLength(cycle: nat)
    ensures |CycleLines(cycle)| == 23
  {
    CycleShape(cycle);
  }

  /** The exercise writes 6 instruction lines, then 23 lines per cycle. */
  lemma {:induction false} CyclesLength(n: nat)
    ensures |CyclesLines(n)| == 23 * n
  {
    if n > 0 {
      CyclesLength(n - 1);
      CycleLength(n);
    }
  }

  lemma ExerciseLength()
    ensures |Exercise()| == 6 + 23 * Cycles == 75
  {
    CyclesLength(Cycles);
  }
}
