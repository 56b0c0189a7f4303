/** The amplifier chain of `get_max_thruster`: five machines, each on a fresh
    copy of one program, each fed a phase setting and the previous stage's
    signal; the first stage is seeded with 0. */
module Amplifiers {
  import opened Common
  import opened IntCodeDay7

  /** One stage: a fresh machine on the program with the input vector
      `[signal, phase]`, run to completion, and its last output (`expect` on
      an empty output panics). */
  function RunAmplifier(program: seq<int>, phase: int, signal: int, fuel: nat): Result<int, Fault>
  {
    var n :- Run(Machine(program, 0, false, [signal, phase], []), fuel);
    if n.output == [] then Failure(NoOutput) else Success(n.output[|n.output| - 1])
  }

  /** Stages `stage..5` of the chain, starting from `signal`. The phase of a
      stage is read from `c` (a panic when `c` is too short) just before that
      stage runs, and cast to `i32`. */
  function ChainFrom(program: seq<int>, c: seq<nat>, stage: nat, signal: int, fuel: nat): Result<int, Fault>
    decreases 5 - stage
  {
    if stage >= 5 then Success(signal)
    else if stage >= |c| then Failure(OutOfBounds)
    else
      var output :- RunAmplifier(program, UsizeAsI32(c[stage]), signal, fuel);
      ChainFrom(program, c, stage + 1, output, fuel)
  }

  /** What `get_max_thruster` returns: the signal out of the fifth stage. */
  function Thruster(c: seq<nat>, program: seq<int>, fuel: nat): Result<int, Fault>
  {
    ChainFrom(program, c, 0, 0, fuel)
  }

  /** One stage as the source writes it: build the machine, execute it, pop
      the last output. */
  method RunStage(program: seq<int>, phase: nat, signal: int, fuel: nat) returns (r: Result<int, Fault>)
    ensures r == RunAmplifier(program, UsizeAsI32(phase), signal, fuel)
  {
    var amp := new IntCode(program, [signal, UsizeAsI32(phase)]);
    var fault := amp.Execute(fuel);
    if fault.Some? {
      return Failure(fault.value);
    }
    if amp.output == [] {
      return Failure(NoOutput);
    }
    var output := amp.output[|amp.output| - 1];
    amp.output := amp.output[..|amp.output| - 1];
    r := Success(output);
  }

  /** `get_max_thruster`: five stages in a row, each fed the previous output. */
  method GetMaxThruster(c: seq<nat>, input: seq<int>, fuel: nat) returns (r: Result<int, Fault>)
    ensures r == Thruster(c, input, fuel)
  {
    if |c| < 1 { return Failure(OutOfBounds); }
    var output :- RunStage(input, c[0], 0, fuel);
    if |c| < 2 { return Failure(OutOfBounds); }
    output :- RunStage(input, c[1], output, fuel);
    if |c| < 3 { return Failure(OutOfBounds); }
    output :- RunStage(input, c[2], output, fuel);
    if |c| < 4 { return Failure(OutOfBounds); }
    output :- RunStage(input, c[3], output, fuel);
    if |c| < 5 { return Failure(OutOfBounds); }
    output :- RunStage(input, c[4], output, fuel);
    r := Success(output);
  }

  /** Only the first five phase settings are read; fewer than five is a panic
      (unless an earlier stage already failed). */
  lemma ThrusterPhases(c: seq<nat>, program: seq<int>, fuel: nat)
    ensures |c| >= 5 ==> Thruster(c, program, fuel) == Thruster(c[..5], program, fuel)
    ensures |c| < 5 ==> Thruster(c, program, fuel).Failure?
  {
    if |c| >= 5 {
      ChainPrefix(c, c[..5], program, 0, 0, fuel);
    } else {
      ChainShort(c, program, 0, 0, fuel);
    }
  }

  lemma {:induction false} ChainPrefix(c: seq<nat>, c': seq<nat>, program: seq<int>, stage: nat, signal: int, fuel: nat)
    requires |c| >= 5 && |c'| >= 5 && c[..5] == c'[..5]
    ensures ChainFrom(program, c, stage, signal, fuel) == ChainFrom(program, c', stage, signal, fuel)
    decreases 5 - stage
  {
    if stage < 5 {
      assert c[stage] == c[..5][stage] == c'[stage];
      var out := RunAmplifier(program, UsizeAsI32(c[stage]), signal, fuel);
      if out.Success? {
        ChainPrefix(c, c', program, stage + 1, out.value, fuel);
      }
    }
  }

  lemma {:induction false} ChainShort(c: seq<nat>, program: seq<int>, stage: nat, signal: int, fuel: nat)
    requires |c| < 5
    ensures ChainFrom(program, c, stage, signal, fuel).Failure? <==> stage < 5
    decreases 5 - stage
  {
    if stage < 5 && stage < |c| {
      var out := RunAmplifier(program, UsizeAsI32(c[stage]), signal, fuel);
      if out.Success? {
        ChainShort(c, program, stage + 1, out.value, fuel);
      }
    }
  }

  /** A stage whose run completes within some fuel gives the same signal with
      any larger fuel. */
  lemma AmplifierMoreFuel(program: seq<int>, phase: int, signal: int, fuel: nat, more: nat)
    requires Run(Machine(program, 0, false, [signal, phase], []), fuel).Success? && fuel <= more
    ensures RunAmplifier(program, phase, signal, more) == RunAmplifier(program, phase, signal, fuel)
  {
    RunMoreFuel(Machine(program, 0, false, [signal, phase], []), fuel, more);
  }

  // ---------------------------------------------------------------------
  // The three programs of `test_max_thruster`, run symbolically: for any
  // phase p and signal s, a stage outputs a fixed function of (s, p).

  const Program1: seq<int> := [3, 15, 3, 16, 1002, 16, 10, 16, 1, 16, 15, 15, 4, 15, 99, 0, 0]

  /** Memories that start with the code of program 1 (its data cells are free). */
  predicate IsProgram1(d: seq<int>)
  {
    |d| == 17 && d[0] == 3 && d[1] == 15 && d[2] == 3 && d[3] == 16 && d[4] == 1002 && d[5] == 16 && d[6] == 10 && d[7] == 16 && d[8] == 1 && d[9] == 16 && d[10] == 15 && d[11] == 15 && d[12] == 4 && d[13] == 15 && d[14] == 99
  }

  lemma P1Step1(e: seq<int>, s: int, p: int)
    requires |e| == 17 && e[0] == 3 && e[1] == 15
    ensures Step(Machine(e, 0, false, [s, p], [])) == Success(Machine(e[15 := p], 2, false, [s], []))
  {
    assert ParseInstruction(3) == (3, false, false);
    StepInputOutput(Machine(e, 0, false, [s, p], []), 3, false, false);
    assert [s, p][..1] == [s];
  }

  lemma P1Step2(e: seq<int>, s: int, p: int)
    requires |e| == 17 && e[2] == 3 && e[3] == 16
    ensures Step(Machine(e, 2, false, [s], [])) == Success(Machine(e[16 := s], 4, false, [], []))
  {
    assert ParseInstruction(3) == (3, false, false);
    StepInputOutput(Machine(e, 2, false, [s], []), 3, false, false);
  }

  lemma P1Step3(e: seq<int>, s: int, p: int)
    requires |e| == 17 && e[4] == 1002 && e[5] == 16 && e[6] == 10 && e[7] == 16 && e[16] == s
    ensures Step(Machine(e, 4, false, [], [])) == Success(Machine(e[16 := s * 10], 8, false, [], []))
  {
    assert ParseInstruction(1002) == (2, false, true);
    StepArithmetic(Machine(e, 4, false, [], []), 2, false, true);
  }

  lemma P1Step4(e: seq<int>, s: int, p: int)
    requires |e| == 17 && e[8] == 1 && e[9] == 16 && e[10] == 15 && e[11] == 15 && e[16] == s * 10 && e[15] == p
    ensures Step(Machine(e, 8, false, [], [])) == Success(Machine(e[15 := s * 10 + p], 12, false, [], []))
  {
    assert ParseInstruction(1) == (1, false, false);
    StepArithmetic(Machine(e, 8, false, [], []), 1, false, false);
  }

  lemma P1Step5(e: seq<int>, s: int, p: int)
    requires |e| == 17 && e[12] == 4 && e[13] == 15 && e[15] == s * 10 + p
    ensures Step(Machine(e, 12, false, [], [])) == Success(Machine(e, 14, false, [], [s * 10 + p]))
  {
    assert ParseInstruction(4) == (4, false, false);
    StepInputOutput(Machine(e, 12, false, [], []), 4, false, false);
    assert [] + [e[15]] == [s * 10 + p];
  }

  lemma P1Trace1(d: seq<int>, s: int, p: int)
    requires IsProgram1(d)
    ensures var e0 := d; var e1 := e0[15 := p]; var e2 := e1[16 := s]; var e3 := e2[16 := s * 10];
      Run(Machine(e0, 0, false, [s, p], []), 6) == Run(Machine(e3, 8, false, [], []), 3)
  {
    var e0 := d;
    var e1 := e0[15 := p];
    var e2 := e1[16 := s];
    var e3 := e2[16 := s * 10];
    P1Step1(e0, s, p);
    RunStep(Machine(e0, 0, false, [s, p], []), Machine(e1, 2, false, [s], []), 6);
    P1Step2(e1, s, p);
    RunStep(Machine(e1, 2, false, [s], []), Machine(e2, 4, false, [], []), 5);
    P1Step3(e2, s, p);
    RunStep(Machine(e2, 4, false, [], []), Machine(e3, 8, false, [], []), 4);
  }

  lemma P1Trace2(d: seq<int>, s: int, p: int)
    requires IsProgram1(d)
    ensures var e0 := d; var e1 := e0[15 := p]; var e2 := e1[16 := s]; var e3 := e2[16 := s * 10]; var e4 := e3[15 := s * 10 + p]; var e5 := e4;
      Run(Machine(e3, 8, false, [], []), 3) == Success(Machine(e5, 14, true, [], [s * 10 + p]))
  {
    var e0 := d;
    var e1 := e0[15 := p];
    var e2 := e1[16 := s];
    var e3 := e2[16 := s * 10];
    var e4 := e3[15 := s * 10 + p];
    var e5 := e4;
    P1Step4(e3, s, p);
    RunStep(Machine(e3, 8, false, [], []), Machine(e4, 12, false, [], []), 3);
    P1Step5(e4, s, p);
    RunStep(Machine(e4, 12, false, [], []), Machine(e5, 14, false, [], [s * 10 + p]), 2);
    DoneStops(Machine(e5, 14, false, [], [s * 10 + p]), 1);
  }

  lemma P1Run(d: seq<int>, s: int, p: int, fuel: nat)
    requires IsProgram1(d) && fuel >= 6
    ensures var r := Run(Machine(d, 0, false, [s, p], []), fuel);
      r.Success? && r.value.output == [s * 10 + p]
  {
    P1Trace1(d, s, p);
    P1Trace2(d, s, p);
    RunMoreFuel(Machine(d, 0, false, [s, p], []), 6, fuel);
  }

  /** Program 1 outputs 10 * signal + phase. */
  lemma Program1Output(d: seq<int>, s: int, p: int, fuel: nat)
    requires IsProgram1(d) && fuel >= 6
    ensures RunAmplifier(d, p, s, fuel) == Success(10 * s + p)
  {
    P1Run(d, s, p, fuel);
  }

  const Program2: seq<int> := [3, 23, 3, 24, 1002, 24, 10, 24, 1002, 23, -1, 23, 101, 5, 23, 23, 1, 24, 23, 23, 4, 23, 99, 0, 0]

  /** Memories that start with the code of program 2 (its data cells are free). */
  predicate IsProgram2(d: seq<int>)
  {
    |d| == 25 && d[0] == 3 && d[1] == 23 && d[2] == 3 && d[3] == 24 && d[4] == 1002 && d[5] == 24 && d[6] == 10 && d[7] == 24 && d[8] == 1002 && d[9] == 23 && d[10] == -1 && d[11] == 23 && d[12] == 101 && d[13] == 5 && d[14] == 23 && d[15] == 23 && d[16] == 1 && d[17] == 24 && d[18] == 23 && d[19] == 23 && d[20] == 4 && d[21] == 23 && d[22] == 99
  }

  lemma P2Step1(e: seq<int>, s: int, p: int)
    requires |e| == 25 && e[0] == 3 && e[1] == 23
    ensures Step(Machine(e, 0, false, [s, p], [])) == Success(Machine(e[23 := p], 2, false, [s], []))
  {
    assert ParseInstruction(3) == (3, false, false);
    StepInputOutput(Machine(e, 0, false, [s, p], []), 3, false, false);
    assert [s, p][..1] == [s];
  }

  lemma P2Step2(e: seq<int>, s: int, p: int)
    requires |e| == 25 && e[2] == 3 && e[3] == 24
    ensures Step(Machine(e, 2, false, [s], [])) == Success(Machine(e[24 := s], 4, false, [], []))
  {
    assert ParseInstruction(3) == (3, false, false);
    StepInputOutput(Machine(e, 2, false, [s], []), 3, false, false);
  }

  lemma P2Step3(e: seq<int>, s: int, p: int)
    requires |e| == 25 && e[4] == 1002 && e[5] == 24 && e[6] == 10 && e[7] == 24 && e[24] == s
    ensures Step(Machine(e, 4, false, [], [])) == Success(Machine(e[24 := s * 10], 8, false, [], []))
  {
    assert ParseInstruction(1002) == (2, false, true);
    StepArithmetic(Machine(e, 4, false, [], []), 2, false, true);
  }

  lemma P2Step4(e: seq<int>, s: int, p: int)
    requires |e| == 25 && e[8] == 1002 && e[9] == 23 && e[10] == -1 && e[11] == 23 && e[23] == p
    ensures Step(Machine(e, 8, false, [], [])) == Success(Machine(e[23 := p * -1], 12, false, [], []))
  {
    assert ParseInstruction(1002) == (2, false, true);
    StepArithmetic(Machine(e, 8, false, [], []), 2, false, true);
  }

  lemma P2Step5(e: seq<int>, s: int, p: int)
    requires |e| == 25 && e[12] == 101 && e[13] == 5 && e[14] == 23 && e[15] == 23 && e[23] == p * -1
    ensures Step(Machine(e, 12, false, [], [])) == Success(Machine(e[23 := 5 + p * -1], 16, false, [], []))
  {
    assert ParseInstruction(101) == (1, true, false);
    StepArithmetic(Machine(e, 12, false, [], []), 1, true, false);
  }

  lemma P2Step6(e: seq<int>, s: int, p: int)
    requires |e| == 25 && e[16] == 1 && e[17] == 24 && e[18] == 23 && e[19] == 23 && e[24] == s * 10 && e[23] == 5 + p * -1
    ensures Step(Machine(e, 16, false, [], [])) == Success(Machine(e[23 := s * 10 + (5 + p * -1)], 20, false, [], []))
  {
    assert ParseInstruction(1) == (1, false, false);
    StepArithmetic(Machine(e, 16, false, [], []), 1, false, false);
  }

  lemma P2Step7(e: seq<int>, s: int, p: int)
    requires |e| == 25 && e[20] == 4 && e[21] == 23 && e[23] == s * 10 + (5 + p * -1)
    ensures Step(Machine(e, 20, false, [], [])) == Success(Machine(e, 22, false, [], [s * 10 + (5 + p * -1)]))
  {
    assert ParseInstruction(4) == (4, false, false);
    StepInputOutput(Machine(e, 20, false, [], []), 4, false, false);
    assert [] + [e[23]] == [s * 10 + (5 + p * -1)];
  }

  lemma P2Trace1(d: seq<int>, s: int, p: int)
    requires IsProgram2(d)
    ensures var e0 := d; var e1 := e0[23 := p]; var e2 := e1[24 := s]; var e3 := e2[24 := s * 10];
      Run(Machine(e0, 0, false, [s, p], []), 8) == Run(Machine(e3, 8, false, [], []), 5)
  {
    var e0 := d;
    var e1 := e0[23 := p];
    var e2 := e1[24 := s];
    var e3 := e2[24 := s * 10];
    P2Step1(e0, s, p);
    RunStep(Machine(e0, 0, false, [s, p], []), Machine(e1, 2, false, [s], []), 8);
    P2Step2(e1, s, p);
    RunStep(Machine(e1, 2, false, [s], []), Machine(e2, 4, false, [], []), 7);
    P2Step3(e2, s, p);
    RunStep(Machine(e2, 4, false, [], []), Machine(e3, 8, false, [], []), 6);
  }

  lemma P2Trace2(d: seq<int>, s: int, p: int)
    requires IsProgram2(d)
    ensures var e0 := d; var e1 := e0[23 := p]; var e2 := e1[24 := s]; var e3 := e2[24 := s * 10]; var e4 := e3[23 := p * -1]; var e5 := e4[23 := 5 + p * -1]; var e6 := e5[23 := s * 10 + (5 + p * -1)];
      Run(Machine(e3, 8, false, [], []), 5) == Run(Machine(e6, 20, false, [], []), 2)
  {
    var e0 := d;
    var e1 := e0[23 := p];
    var e2 := e1[24 := s];
    var e3 := e2[24 := s * 10];
    var e4 := e3[23 := p * -1];
    var e5 := e4[23 := 5 + p * -1];
    var e6 := e5[23 := s * 10 + (5 + p * -1)];
    P2Step4(e3, s, p);
    RunStep(Machine(e3, 8, false, [], []), Machine(e4, 12, false, [], []), 5);
    P2Step5(e4, s, p);
    RunStep(Machine(e4, 12, false, [], []), Machine(e5, 16, false, [], []), 4);
    P2Step6(e5, s, p);
    RunStep(Machine(e5, 16, false, [], []), Machine(e6, 20, false, [], []), 3);
  }

  lemma P2Trace3(d: seq<int>, s: int, p: int)
    requires IsProgram2(d)
    ensures var e0 := d; var e1 := e0[23 := p]; var e2 := e1[24 := s]; var e3 := e2[24 := s * 10]; var e4 := e3[23 := p * -1]; var e5 := e4[23 := 5 + p * -1]; var e6 := e5[23 := s * 10 + (5 + p * -1)]; var e7 := e6;
      Run(Machine(e6, 20, false, [], []), 2) == Success(Machine(e7, 22, true, [], [s * 10 + (5 + p * -1)]))
  {
    var e0 := d;
    var e1 := e0[23 := p];
    var e2 := e1[24 := s];
    var e3 := e2[24 := s * 10];
    var e4 := e3[23 := p * -1];
    var e5 := e4[23 := 5 + p * -1];
    var e6 := e5[23 := s * 10 + (5 + p * -1)];
    var e7 := e6;
    P2Step7(e6, s, p);
    RunStep(Machine(e6, 20, false, [], []), Machine(e7, 22, false, [], [s * 10 + (5 + p * -1)]), 2);
    DoneStops(Machine(e7, 22, false, [], [s * 10 + (5 + p * -1)]), 1);
  }

  lemma P2Run(d: seq<int>, s: int, p: int, fuel: nat)
    requires IsProgram2(d) && fuel >= 8
    ensures var r := Run(Machine(d, 0, false, [s, p], []), fuel);
      r.Success? && r.value.output == [s * 10 + (5 + p * -1)]
  {
    P2Trace1(d, s, p);
    P2Trace2(d, s, p);
    P2Trace3(d, s, p);
    RunMoreFuel(Machine(d, 0, false, [s, p], []), 8, fuel);
  }

  /** Program 2 outputs 10 * signal + 5 - phase. */
  lemma Program2Output(d: seq<int>, s: int, p: int, fuel: nat)
    requires IsProgram2(d) && fuel >= 8
    ensures RunAmplifier(d, p, s, fuel) == Success(10 * s + 5 - p)
  {
    P2Run(d, s, p, fuel);
  }

  const Program3: seq<int> := [3, 31, 3, 32, 1002, 32, 10, 32, 1001, 31, -2, 31, 1007, 31, 0, 33, 1002, 33, 7, 33, 1, 33, 31, 31, 1, 32, 31, 31, 4, 31, 99, 0, 0, 0]

  /** Memories that start with the code of program 3 (its data cells are free). */
  predicate IsProgram3(d: seq<int>)
  {
    |d| == 34 && d[0] == 3 && d[1] == 31 && d[2] == 3 && d[3] == 32 && d[4] == 1002 && d[5] == 32 && d[6] == 10 && d[7] == 32 && d[8] == 1001 && d[9] == 31 && d[10] == -2 && d[11] == 31 && d[12] == 1007 && d[13] == 31 && d[14] == 0 && d[15] == 33 && d[16] == 1002 && d[17] == 33 && d[18] == 7 && d[19] == 33 && d[20] == 1 && d[21] == 33 && d[22] == 31 && d[23] == 31 && d[24] == 1 && d[25] == 32 && d[26] == 31 && d[27] == 31 && d[28] == 4 && d[29] == 31 && d[30] == 99
  }

  lemma P3Step1(e: seq<int>, s: int, p: int)
    requires |e| == 34 && e[0] == 3 && e[1] == 31
    ensures Step(Machine(e, 0, false, [s, p], [])) == Success(Machine(e[31 := p], 2, false, [s], []))
  {
    assert ParseInstruction(3) == (3, false, false);
    StepInputOutput(Machine(e, 0, false, [s, p], []), 3, false, false);
    assert [s, p][..1] == [s];
  }

  lemma P3Step2(e: seq<int>, s: int, p: int)
    requires |e| == 34 && e[2] == 3 && e[3] == 32
    ensures Step(Machine(e, 2, false, [s], [])) == Success(Machine(e[32 := s], 4, false, [], []))
  {
    assert ParseInstruction(3) == (3, false, false);
    StepInputOutput(Machine(e, 2, false, [s], []), 3, false, false);
  }

  lemma P3Step3(e: seq<int>, s: int, p: int)
    requires |e| == 34 && e[4] == 1002 && e[5] == 32 && e[6] == 10 && e[7] == 32 && e[32] == s
    ensures Step(Machine(e, 4, false, [], [])) == Success(Machine(e[32 := s * 10], 8, false, [], []))
  {
    assert ParseInstruction(1002) == (2, false, true);
    StepArithmetic(Machine(e, 4, false, [], []), 2, false, true);
  }

  lemma P3Step4(e: seq<int>, s: int, p: int)
    requires |e| == 34 && e[8] == 1001 && e[9] == 31 && e[10] == -2 && e[11] == 31 && e[31] == p
    ensures Step(Machine(e, 8, false, [], [])) == Success(Machine(e[31 := p + -2], 12, false, [], []))
  {
    assert ParseInstruction(1001) == (1, false, true);
    StepArithmetic(Machine(e, 8, false, [], []), 1, false, true);
  }

  lemma P3Step5(e: seq<int>, s: int, p: int)
    requires |e| == 34 && e[12] == 1007 && e[13] == 31 && e[14] == 0 && e[15] == 33 && e[31] == p + -2
    ensures Step(Machine(e, 12, false, [], [])) == Success(Machine(e[33 := (if p + -2 < 0 then 1 else 0)], 16, false, [], []))
  {
    assert ParseInstruction(1007) == (7, false, true);
    StepCompare(Machine(e, 12, false, [], []), 7, false, true);
  }

  lemma P3Step6(e: seq<int>, s: int, p: int)
    requires |e| == 34 && e[16] == 1002 && e[17] == 33 && e[18] == 7 && e[19] == 33 && e[33] == (if p + -2 < 0 then 1 else 0)
    ensures Step(Machine(e, 16, false, [], [])) == Success(Machine(e[33 := (if p + -2 < 0 then 1 else 0) * 7], 20, false, [], []))
  {
    assert ParseInstruction(1002) == (2, false, true);
    StepArithmetic(Machine(e, 16, false, [], []), 2, false, true);
  }

  lemma P3Step7(e: seq<int>, s: int, p: int)
    requires |e| == 34 && e[20] == 1 && e[21] == 33 && e[22] == 31 && e[23] == 31 && e[33] == (if p + -2 < 0 then 1 else 0) * 7 && e[31] == p + -2
    ensures Step(Machine(e, 20, false, [], [])) == Success(Machine(e[31 := (if p + -2 < 0 then 1 else 0) * 7 + (p + -2)], 24, false, [], []))
  {
    assert ParseInstruction(1) == (1, false, false);
    StepArithmetic(Machine(e, 20, false, [], []), 1, false, false);
  }

  lemma P3Step8(e: seq<int>, s: int, p: int)
    requires |e| == 34 && e[24] == 1 && e[25] == 32 && e[26] == 31 && e[27] == 31 && e[32] == s * 10 && e[31] == (if p + -2 < 0 then 1 else 0) * 7 + (p + -2)
    ensures Step(Machine(e, 24, false, [], [])) == Success(Machine(e[31 := s * 10 + ((if p + -2 < 0 then 1 else 0) * 7 + (p + -2))], 28, false, [], []))
  {
    assert ParseInstruction(1) == (1, false, false);
    StepArithmetic(Machine(e, 24, false, [], []), 1, false, false);
  }

  lemma P3Step9(e: seq<int>, s: int, p: int)
    requires |e| == 34 && e[28] == 4 && e[29] == 31 && e[31] == s * 10 + ((if p + -2 < 0 then 1 else 0) * 7 + (p + -2))
    ensures Step(Machine(e, 28, false, [], [])) == Success(Machine(e, 30, false, [], [s * 10 + ((if p + -2 < 0 then 1 else 0) * 7 + (p + -2))]))
  {
    assert ParseInstruction(4) == (4, false, false);
    StepInputOutput(Machine(e, 28, false, [], []), 4, false, false);
    assert [] + [e[31]] == [s * 10 + ((if p + -2 < 0 then 1 else 0) * 7 + (p + -2))];
  }

  lemma P3Trace1(d: seq<int>, s: int, p: int)
    requires IsProgram3(d)
    ensures var e0 := d; var e1 := e0[31 := p]; var e2 := e1[32 := s]; var e3 := e2[32 := s * 10];
      Run(Machine(e0, 0, false, [s, p], []), 10) == Run(Machine(e3, 8, false, [], []), 7)
  {
    var e0 := d;
    var e1 := e0[31 := p];
    var e2 := e1[32 := s];
    var e3 := e2[32 := s * 10];
    P3Step1(e0, s, p);
    RunStep(Machine(e0, 0, false, [s, p], []), Machine(e1, 2, false, [s], []), 10);
    P3Step2(e1, s, p);
    RunStep(Machine(e1, 2, false, [s], []), Machine(e2, 4, false, [], []), 9);
    P3Step3(e2, s, p);
    RunStep(Machine(e2, 4, false, [], []), Machine(e3, 8, false, [], []), 8);
  }

  lemma P3Trace2(d: seq<int>, s: int, p: int)
    requires IsProgram3(d)
    ensures var e0 := d; var e1 := e0[31 := p]; var e2 := e1[32 := s]; var e3 := e2[32 := s * 10]; var e4 := e3[31 := p + -2]; var e5 := e4[33 := (if p + -2 < 0 then 1 else 0)]; var e6 := e5[33 := (if p + -2 < 0 then 1 else 0) * 7];
      Run(Machine(e3, 8, false, [], []), 7) == Run(Machine(e6, 20, false, [], []), 4)
  {
    var e0 := d;
    var e1 := e0[31 := p];
    var e2 := e1[32 := s];
    var e3 := e2[32 := s * 10];
    var e4 := e3[31 := p + -2];
    var e5 := e4[33 := (if p + -2 < 0 then 1 else 0)];
    var e6 := e5[33 := (if p + -2 < 0 then 1 else 0) * 7];
    P3Step4(e3, s, p);
    RunStep(Machine(e3, 8, false, [], []), Machine(e4, 12, false, [], []), 7);
    P3Step5(e4, s, p);
    RunStep(Machine(e4, 12, false, [], []), Machine(e5, 16, false, [], []), 6);
    P3Step6(e5, s, p);
    RunStep(Machine(e5, 16, false, [], []), Machine(e6, 20, false, [], []), 5);
  }

  lemma P3Trace3(d: seq<int>, s: int, p: int)
    requires IsProgram3(d)
    ensures var e0 := d; var e1 := e0[31 := p]; var e2 := e1[32 := s]; var e3 := e2[32 := s * 10]; var e4 := e3[31 := p + -2]; var e5 := e4[33 := (if p + -2 < 0 then 1 else 0)]; var e6 := e5[33 := (if p + -2 < 0 then 1 else 0) * 7]; var e7 := e6[31 := (if p + -2 < 0 then 1 else 0) * 7 + (p + -2)]; var e8 := e7[31 := s * 10 + ((if p + -2 < 0 then 1 else 0) * 7 + (p + -2))]; var e9 := e8;
      Run(Machine(e6, 20, false, [], []), 4) == Success(Machine(e9, 30, true, [], [s * 10 + ((if p + -2 < 0 then 1 else 0) * 7 + (p + -2))]))
  {
    var e0 := d;
    var e1 := e0[31 := p];
    var e2 := e1[32 := s];
    var e3 := e2[32 := s * 10];
    var e4 := e3[31 := p + -2];
    var e5 := e4[33 := (if p + -2 < 0 then 1 else 0)];
    var e6 := e5[33 := (if p + -2 < 0 then 1 else 0) * 7];
    var e7 := e6[31 := (if p + -2 < 0 then 1 else 0) * 7 + (p + -2)];
    var e8 := e7[31 := s * 10 + ((if p + -2 < 0 then 1 else 0) * 7 + (p + -2))];
    var e9 := e8;
    P3Step7(e6, s, p);
    RunStep(Machine(e6, 20, false, [], []), Machine(e7, 24, false, [], []), 4);
    P3Step8(e7, s, p);
    RunStep(Machine(e7, 24, false, [], []), Machine(e8, 28, false, [], []), 3);
    P3Step9(e8, s, p);
    RunStep(Machine(e8, 28, false, [], []), Machine(e9, 30, false, [], [s * 10 + ((if p + -2 < 0 then 1 else 0) * 7 + (p + -2))]), 2);
    DoneStops(Machine(e9, 30, false, [], [s * 10 + ((if p + -2 < 0 then 1 else 0) * 7 + (p + -2))]), 1);
  }

  lemma P3Run(d: seq<int>, s: int, p: int, fuel: nat)
    requires IsProgram3(d) && fuel >= 10
    ensures var r := Run(Machine(d, 0, false, [s, p], []), fuel);
      r.Success? && r.value.output == [s * 10 + ((if p + -2 < 0 then 1 else 0) * 7 + (p + -2))]
  {
    P3Trace1(d, s, p);
    P3Trace2(d, s, p);
    P3Trace3(d, s, p);
    RunMoreFuel(Machine(d, 0, false, [s, p], []), 10, fuel);
  }

  /** Program 3 outputs 10 * signal + phase - 2, plus 7 when the phase is below 2. */
  lemma Program3Output(d: seq<int>, s: int, p: int, fuel: nat)
    requires IsProgram3(d) && fuel >= 10
    ensures RunAmplifier(d, p, s, fuel) == Success(10 * s + p - 2 + (if p < 2 then 7 else 0))
  {
    P3Run(d, s, p, fuel);
  }

  /** Running one stage of the chain, once its amplifier's signal is known. */
  lemma ChainStep(program: seq<int>, c: seq<nat>, stage: nat, signal: int, fuel: nat, out: int)
    requires stage < 5 && stage < |c|
    requires RunAmplifier(program, UsizeAsI32(c[stage]), signal, fuel) == Success(out)
    ensures ChainFrom(program, c, stage, signal, fuel) == ChainFrom(program, c, stage + 1, out, fuel)
  {
  }

  lemma Thruster1From4(d: seq<int>, fuel: nat)
    requires IsProgram1(d) && fuel >= 6
    ensures ChainFrom(d, [4, 3, 2, 1, 0], 4, 4321, fuel) == Success(43210)
  {
    var c: seq<nat> := [4, 3, 2, 1, 0];
    assert UsizeAsI32(c[4]) == 0;
    Program1Output(d, 4321, 0, fuel);
    ChainStep(d, c, 4, 4321, fuel, 43210);
  }

  lemma Thruster1From3(d: seq<int>, fuel: nat)
    requires IsProgram1(d) && fuel >= 6
    ensures ChainFrom(d, [4, 3, 2, 1, 0], 3, 432, fuel) == Success(43210)
  {
    var c: seq<nat> := [4, 3, 2, 1, 0];
    assert UsizeAsI32(c[3]) == 1;
    Program1Output(d, 432, 1, fuel);
    ChainStep(d, c, 3, 432, fuel, 4321);
    Thruster1From4(d, fuel);
  }

  lemma Thruster1From2(d: seq<int>, fuel: nat)
    requires IsProgram1(d) && fuel >= 6
    ensures ChainFrom(d, [4, 3, 2, 1, 0], 2, 43, fuel) == Success(43210)
  {
    var c: seq<nat> := [4, 3, 2, 1, 0];
    assert UsizeAsI32(c[2]) == 2;
    Program1Output(d, 43, 2, fuel);
    ChainStep(d, c, 2, 43, fuel, 432);
    Thruster1From3(d, fuel);
  }

  lemma Thruster1From1(d: seq<int>, fuel: nat)
    requires IsProgram1(d) && fuel >= 6
    ensures ChainFrom(d, [4, 3, 2, 1, 0], 1, 4, fuel) == Success(43210)
  {
    var c: seq<nat> := [4, 3, 2, 1, 0];
    assert UsizeAsI32(c[1]) == 3;
    Program1Output(d, 4, 3, fuel);
    ChainStep(d, c, 1, 4, fuel, 43);
    Thruster1From2(d, fuel);
  }

  lemma Thruster1From0(d: seq<int>, fuel: nat)
    requires IsProgram1(d) && fuel >= 6
    ensures ChainFrom(d, [4, 3, 2, 1, 0], 0, 0, fuel) == Success(43210)
  {
    var c: seq<nat> := [4, 3, 2, 1, 0];
    assert UsizeAsI32(c[0]) == 4;
    Program1Output(d, 0, 4, fuel);
    ChainStep(d, c, 0, 0, fuel, 4);
    Thruster1From1(d, fuel);
  }

  /** The case of `test_max_thruster` for program 1. */
  lemma Thruster1Example(fuel: nat)
    requires fuel >= 6
    ensures Thruster([4, 3, 2, 1, 0], Program1, fuel) == Success(43210)
  {
    assert IsProgram1(Program1);
    Thruster1From0(Program1, fuel);
  }

  lemma Thruster2From4(d: seq<int>, fuel: nat)
    requires IsProgram2(d) && fuel >= 8
    ensures ChainFrom(d, [0, 1, 2, 3, 4], 4, 5432, fuel) == Success(54321)
  {
    var c: seq<nat> := [0, 1, 2, 3, 4];
    assert UsizeAsI32(c[4]) == 4;
    Program2Output(d, 5432, 4, fuel);
    ChainStep(d, c, 4, 5432, fuel, 54321);
  }

  lemma Thruster2From3(d: seq<int>, fuel: nat)
    requires IsProgram2(d) && fuel >= 8
    ensures ChainFrom(d, [0, 1, 2, 3, 4], 3, 543, fuel) == Success(54321)
  {
    var c: seq<nat> := [0, 1, 2, 3, 4];
    assert UsizeAsI32(c[3]) == 3;
    Program2Output(d, 543, 3, fuel);
    ChainStep(d, c, 3, 543, fuel, 5432);
    Thruster2From4(d, fuel);
  }

  lemma Thruster2From2(d: seq<int>, fuel: nat)
    requires IsProgram2(d) && fuel >= 8
    ensures ChainFrom(d, [0, 1, 2, 3, 4], 2, 54, fuel) == Success(54321)
  {
    var c: seq<nat> := [0, 1, 2, 3, 4];
    assert UsizeAsI32(c[2]) == 2;
    Program2Output(d, 54, 2, fuel);
    ChainStep(d, c, 2, 54, fuel, 543);
    Thruster2From3(d, fuel);
  }

  lemma Thruster2From1(d: seq<int>, fuel: nat)
    requires IsProgram2(d) && fuel >= 8
    ensures ChainFrom(d, [0, 1, 2, 3, 4], 1, 5, fuel) == Success(54321)
  {
    var c: seq<nat> := [0, 1, 2, 3, 4];
    assert UsizeAsI32(c[1]) == 1;
    Program2Output(d, 5, 1, fuel);
    ChainStep(d, c, 1, 5, fuel, 54);
    Thruster2From2(d, fuel);
  }

  lemma Thruster2From0(d: seq<int>, fuel: nat)
    requires IsProgram2(d) && fuel >= 8
    ensures ChainFrom(d, [0, 1, 2, 3, 4], 0, 0, fuel) == Success(54321)
  {
    var c: seq<nat> := [0, 1, 2, 3, 4];
    assert UsizeAsI32(c[0]) == 0;
    Program2Output(d, 0, 0, fuel);
    ChainStep(d, c, 0, 0, fuel, 5);
    Thruster2From1(d, fuel);
  }

  /** The case of `test_max_thruster` for program 2. */
  lemma Thruster2Example(fuel: nat)
    requires fuel >= 8
    ensures Thruster([0, 1, 2, 3, 4], Program2, fuel) == Success(54321)
  {
    assert IsProgram2(Program2);
    Thruster2From0(Program2, fuel);
  }

  lemma Thruster3From4(d: seq<int>, fuel: nat)
    requires IsProgram3(d) && fuel >= 10
    ensures ChainFrom(d, [1, 0, 4, 3, 2], 4, 6521, fuel) == Success(65210)
  {
    var c: seq<nat> := [1, 0, 4, 3, 2];
    assert UsizeAsI32(c[4]) == 2;
    Program3Output(d, 6521, 2, fuel);
    ChainStep(d, c, 4, 6521, fuel, 65210);
  }

  lemma Thruster3From3(d: seq<int>, fuel: nat)
    requires IsProgram3(d) && fuel >= 10
    ensures ChainFrom(d, [1, 0, 4, 3, 2], 3, 652, fuel) == Success(65210)
  {
    var c: seq<nat> := [1, 0, 4, 3, 2];
    assert UsizeAsI32(c[3]) == 3;
    Program3Output(d, 652, 3, fuel);
    ChainStep(d, c, 3, 652, fuel, 6521);
    Thruster3From4(d, fuel);
  }

  lemma Thruster3From2(d: seq<int>, fuel: nat)
    requires IsProgram3(d) && fuel >= 10
    ensures ChainFrom(d, [1, 0, 4, 3, 2], 2, 65, fuel) == Success(65210)
  {
    var c: seq<nat> := [1, 0, 4, 3, 2];
    assert UsizeAsI32(c[2]) == 4;
    Program3Output(d, 65, 4, fuel);
    ChainStep(d, c, 2, 65, fuel, 652);
    Thruster3From3(d, fuel);
  }

  lemma Thruster3From1(d: seq<int>, fuel: nat)
    requires IsProgram3(d) && fuel >= 10
    ensures ChainFrom(d, [1, 0, 4, 3, 2], 1, 6, fuel) == Success(65210)
  {
    var c: seq<nat> := [1, 0, 4, 3, 2];
    assert UsizeAsI32(c[1]) == 0;
    Program3Output(d, 6, 0, fuel);
    ChainStep(d, c, 1, 6, fuel, 65);
    Thruster3From2(d, fuel);
  }

  lemma Thruster3From0(d: seq<int>, fuel: nat)
    requires IsProgram3(d) && fuel >= 10
    ensures ChainFrom(d, [1, 0, 4, 3, 2], 0, 0, fuel) == Success(65210)
  {
    var c: seq<nat> := [1, 0, 4, 3, 2];
    assert UsizeAsI32(c[0]) == 1;
    Program3Output(d, 0, 1, fuel);
    ChainStep(d, c, 0, 0, fuel, 6);
    Thruster3From1(d, fuel);
  }

  /** The case of `test_max_thruster` for program 3. */
  lemma Thruster3Example(fuel: nat)
    requires fuel >= 10
    ensures Thruster([1, 0, 4, 3, 2], Program3, fuel) == Success(65210)
  {
    assert IsProgram3(Program3);
    Thruster3From0(Program3, fuel);
  }
}
