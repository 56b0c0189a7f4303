/** The programs of the diagnostic machine's unit tests, run for every input
    at once: each lemma below says what a program leaves in the output
    register, as a function of the input. */
module DiagnosticExamples {
  import opened Common
  import opened IntCodeDay5

  const PositionEqualProgram: seq<int> := [3, 9, 8, 9, 10, 9, 4, 9, 99, -1, 8]

  /** Memories that hold the program of `test_position_equal`, cell by cell. */
  predicate IsPositionEqual(d: seq<int>)
  {
    |d| == 11 && d[0] == 3 && d[1] == 9 && d[2] == 8 && d[3] == 9 && d[4] == 10 && d[5] == 9 && d[6] == 4 && d[7] == 9 && d[8] == 99 && d[9] == -1 && d[10] == 8
  }

  lemma PositionEqualStep1(e: seq<int>, x: int)
    requires |e| == 11 && e[0] == 3 && e[1] == 9
    ensures Step(Machine(e, 0, false, x, 0)) == Success(Machine(e[9 := x], 2, false, x, 0))
  {
    assert ParseInstruction(3) == (3, false, false);
    StepInputOutput(Machine(e, 0, false, x, 0), 3, false, false);
  }

  lemma PositionEqualStep2(e: seq<int>, x: int)
    requires |e| == 11 && e[2] == 8 && e[3] == 9 && e[4] == 10 && e[5] == 9 && e[9] == x && e[10] == 8
    ensures Step(Machine(e, 2, false, x, 0)) == Success(Machine(e[9 := (if AsUsize(x) == 8 then 1 else 0)], 6, false, x, 0))
  {
    assert ParseInstruction(8) == (8, false, false);
    StepCompare(Machine(e, 2, false, x, 0), 8, false, false);
  }

  lemma PositionEqualStep3(e: seq<int>, x: int)
    requires |e| == 11 && e[6] == 4 && e[7] == 9 && e[9] == (if AsUsize(x) == 8 then 1 else 0)
    ensures Step(Machine(e, 6, false, x, 0)) == Success(Machine(e, 8, false, x, (if AsUsize(x) == 8 then 1 else 0)))
  {
    assert ParseInstruction(4) == (4, false, false);
    StepInputOutput(Machine(e, 6, false, x, 0), 4, false, false);
  }

  lemma PositionEqualTrace1(d: seq<int>, x: int)
    requires IsPositionEqual(d)
    ensures var e0 := d; var e1 := e0[9 := x];
      Run(Machine(e0, 0, false, x, 0), 4) == Run(Machine(e1, 2, false, x, 0), 3)
  {
    var e0 := d;
    var e1 := e0[9 := x];
    PositionEqualStep1(e0, x);
    RunStep(Machine(e0, 0, false, x, 0), Machine(e1, 2, false, x, 0), 4);
  }

  lemma PositionEqualTrace2(d: seq<int>, x: int)
    requires IsPositionEqual(d)
    ensures var e0 := d; var e1 := e0[9 := x]; var e2 := e1[9 := (if AsUsize(x) == 8 then 1 else 0)];
      Run(Machine(e1, 2, false, x, 0), 3) == Run(Machine(e2, 6, false, x, 0), 2)
  {
    var e0 := d;
    var e1 := e0[9 := x];
    var e2 := e1[9 := (if AsUsize(x) == 8 then 1 else 0)];
    PositionEqualStep2(e1, x);
    RunStep(Machine(e1, 2, false, x, 0), Machine(e2, 6, false, x, 0), 3);
  }

  lemma PositionEqualTrace3(d: seq<int>, x: int)
    requires IsPositionEqual(d)
    ensures var e0 := d; var e1 := e0[9 := x]; var e2 := e1[9 := (if AsUsize(x) == 8 then 1 else 0)]; var e3 := e2;
      Run(Machine(e2, 6, false, x, 0), 2) == Run(Machine(e3, 8, false, x, (if AsUsize(x) == 8 then 1 else 0)), 1)
  {
    var e0 := d;
    var e1 := e0[9 := x];
    var e2 := e1[9 := (if AsUsize(x) == 8 then 1 else 0)];
    var e3 := e2;
    PositionEqualStep3(e2, x);
    RunStep(Machine(e2, 6, false, x, 0), Machine(e3, 8, false, x, (if AsUsize(x) == 8 then 1 else 0)), 2);
  }

  lemma PositionEqualTrace4(d: seq<int>, x: int)
    requires IsPositionEqual(d)
    ensures var e0 := d; var e1 := e0[9 := x]; var e2 := e1[9 := (if AsUsize(x) == 8 then 1 else 0)]; var e3 := e2;
      Run(Machine(e3, 8, false, x, (if AsUsize(x) == 8 then 1 else 0)), 1) == Success(Machine(e3, 9, true, x, (if AsUsize(x) == 8 then 1 else 0)))
  {
    var e0 := d;
    var e1 := e0[9 := x];
    var e2 := e1[9 := (if AsUsize(x) == 8 then 1 else 0)];
    var e3 := e2;
    DoneStops(Machine(e3, 8, false, x, (if AsUsize(x) == 8 then 1 else 0)), 1);
  }

  lemma PositionEqualRun(d: seq<int>, x: int, fuel: nat)
    requires IsPositionEqual(d) && fuel >= 4
    ensures var r := Run(Machine(d, 0, false, x, 0), fuel);
      r.Success? && r.value.output == (if AsUsize(x) == 8 then 1 else 0)
  {
    PositionEqualTrace1(d, x);
    PositionEqualTrace2(d, x);
    PositionEqualTrace3(d, x);
    PositionEqualTrace4(d, x);
    RunMoreFuel(Machine(d, 0, false, x, 0), 4, fuel);
  }

  /** Compares the input with 8 in position mode: 1 exactly when the input is 8. */
  lemma PositionEqualOutput(d: seq<int>, x: int, fuel: nat)
    requires IsPositionEqual(d) && InI64(x) && fuel >= 4
    ensures var r := Run(Machine(d, 0, false, x, 0), fuel);
      r.Success? && r.value.output == (if x == 8 then 1 else 0)
  {
    PositionEqualRun(d, x, fuel);
    UnsignedEquality(x, 8);
  }

  /** The cases of `test_position_equal`. */
  lemma PositionEqualCases(fuel: nat)
    requires fuel >= 4
    ensures Run(Machine(PositionEqualProgram, 0, false, 8, 0), fuel).Success?
    ensures Run(Machine(PositionEqualProgram, 0, false, 8, 0), fuel).value.output == 1
    ensures Run(Machine(PositionEqualProgram, 0, false, 999, 0), fuel).Success?
    ensures Run(Machine(PositionEqualProgram, 0, false, 999, 0), fuel).value.output == 0
  {
    assert IsPositionEqual(PositionEqualProgram);
    PositionEqualOutput(PositionEqualProgram, 8, fuel);
    PositionEqualOutput(PositionEqualProgram, 999, fuel);
  }

  const ImmediateEqualProgram: seq<int> := [3, 3, 1108, -1, 8, 3, 4, 3, 99]

  /** Memories that hold the program of `test_immediate_equal`, cell by cell. */
  predicate IsImmediateEqual(d: seq<int>)
  {
    |d| == 9 && d[0] == 3 && d[1] == 3 && d[2] == 1108 && d[3] == -1 && d[4] == 8 && d[5] == 3 && d[6] == 4 && d[7] == 3 && d[8] == 99
  }

  lemma ImmediateEqualStep1(e: seq<int>, x: int)
    requires |e| == 9 && e[0] == 3 && e[1] == 3
    ensures Step(Machine(e, 0, false, x, 0)) == Success(Machine(e[3 := x], 2, false, x, 0))
  {
    assert ParseInstruction(3) == (3, false, false);
    StepInputOutput(Machine(e, 0, false, x, 0), 3, false, false);
  }

  lemma ImmediateEqualStep2(e: seq<int>, x: int)
    requires |e| == 9 && e[2] == 1108 && e[3] == x && e[4] == 8 && e[5] == 3
    ensures Step(Machine(e, 2, false, x, 0)) == Success(Machine(e[3 := (if AsUsize(x) == 8 then 1 else 0)], 6, false, x, 0))
  {
    assert ParseInstruction(1108) == (8, true, true);
    StepCompare(Machine(e, 2, false, x, 0), 8, true, true);
  }

  lemma ImmediateEqualStep3(e: seq<int>, x: int)
    requires |e| == 9 && e[6] == 4 && e[7] == 3 && e[3] == (if AsUsize(x) == 8 then 1 else 0)
    ensures Step(Machine(e, 6, false, x, 0)) == Success(Machine(e, 8, false, x, (if AsUsize(x) == 8 then 1 else 0)))
  {
    assert ParseInstruction(4) == (4, false, false);
    StepInputOutput(Machine(e, 6, false, x, 0), 4, false, false);
  }

  lemma ImmediateEqualTrace1(d: seq<int>, x: int)
    requires IsImmediateEqual(d)
    ensures var e0 := d; var e1 := e0[3 := x];
      Run(Machine(e0, 0, false, x, 0), 4) == Run(Machine(e1, 2, false, x, 0), 3)
  {
    var e0 := d;
    var e1 := e0[3 := x];
    ImmediateEqualStep1(e0, x);
    RunStep(Machine(e0, 0, false, x, 0), Machine(e1, 2, false, x, 0), 4);
  }

  lemma ImmediateEqualTrace2(d: seq<int>, x: int)
    requires IsImmediateEqual(d)
    ensures var e0 := d; var e1 := e0[3 := x]; var e2 := e1[3 := (if AsUsize(x) == 8 then 1 else 0)];
      Run(Machine(e1, 2, false, x, 0), 3) == Run(Machine(e2, 6, false, x, 0), 2)
  {
    var e0 := d;
    var e1 := e0[3 := x];
    var e2 := e1[3 := (if AsUsize(x) == 8 then 1 else 0)];
    ImmediateEqualStep2(e1, x);
    RunStep(Machine(e1, 2, false, x, 0), Machine(e2, 6, false, x, 0), 3);
  }

  lemma ImmediateEqualTrace3(d: seq<int>, x: int)
    requires IsImmediateEqual(d)
    ensures var e0 := d; var e1 := e0[3 := x]; var e2 := e1[3 := (if AsUsize(x) == 8 then 1 else 0)]; var e3 := e2;
      Run(Machine(e2, 6, false, x, 0), 2) == Run(Machine(e3, 8, false, x, (if AsUsize(x) == 8 then 1 else 0)), 1)
  {
    var e0 := d;
    var e1 := e0[3 := x];
    var e2 := e1[3 := (if AsUsize(x) == 8 then 1 else 0)];
    var e3 := e2;
    ImmediateEqualStep3(e2, x);
    RunStep(Machine(e2, 6, false, x, 0), Machine(e3, 8, false, x, (if AsUsize(x) == 8 then 1 else 0)), 2);
  }

  lemma ImmediateEqualTrace4(d: seq<int>, x: int)
    requires IsImmediateEqual(d)
    ensures var e0 := d; var e1 := e0[3 := x]; var e2 := e1[3 := (if AsUsize(x) == 8 then 1 else 0)]; var e3 := e2;
      Run(Machine(e3, 8, false, x, (if AsUsize(x) == 8 then 1 else 0)), 1) == Success(Machine(e3, 9, true, x, (if AsUsize(x) == 8 then 1 else 0)))
  {
    var e0 := d;
    var e1 := e0[3 := x];
    var e2 := e1[3 := (if AsUsize(x) == 8 then 1 else 0)];
    var e3 := e2;
    DoneStops(Machine(e3, 8, false, x, (if AsUsize(x) == 8 then 1 else 0)), 1);
  }

  lemma ImmediateEqualRun(d: seq<int>, x: int, fuel: nat)
    requires IsImmediateEqual(d) && fuel >= 4
    ensures var r := Run(Machine(d, 0, false, x, 0), fuel);
      r.Success? && r.value.output == (if AsUsize(x) == 8 then 1 else 0)
  {
    ImmediateEqualTrace1(d, x);
    ImmediateEqualTrace2(d, x);
    ImmediateEqualTrace3(d, x);
    ImmediateEqualTrace4(d, x);
    RunMoreFuel(Machine(d, 0, false, x, 0), 4, fuel);
  }

  /** Compares the input with 8 in immediate mode, after the Save has written the input over the instruction's own first operand. */
  lemma ImmediateEqualOutput(d: seq<int>, x: int, fuel: nat)
    requires IsImmediateEqual(d) && InI64(x) && fuel >= 4
    ensures var r := Run(Machine(d, 0, false, x, 0), fuel);
      r.Success? && r.value.output == (if x == 8 then 1 else 0)
  {
    ImmediateEqualRun(d, x, fuel);
    UnsignedEquality(x, 8);
  }

  /** The cases of `test_immediate_equal`. */
  lemma ImmediateEqualCases(fuel: nat)
    requires fuel >= 4
    ensures Run(Machine(ImmediateEqualProgram, 0, false, 8, 0), fuel).Success?
    ensures Run(Machine(ImmediateEqualProgram, 0, false, 8, 0), fuel).value.output == 1
    ensures Run(Machine(ImmediateEqualProgram, 0, false, 999, 0), fuel).Success?
    ensures Run(Machine(ImmediateEqualProgram, 0, false, 999, 0), fuel).value.output == 0
  {
    assert IsImmediateEqual(ImmediateEqualProgram);
    ImmediateEqualOutput(ImmediateEqualProgram, 8, fuel);
    ImmediateEqualOutput(ImmediateEqualProgram, 999, fuel);
  }

  const PositionLessThanProgram: seq<int> := [3, 9, 7, 9, 10, 9, 4, 9, 99, -1, 8]

  /** Memories that hold the program of `test_position_less_than`, cell by cell. */
  predicate IsPositionLessThan(d: seq<int>)
  {
    |d| == 11 && d[0] == 3 && d[1] == 9 && d[2] == 7 && d[3] == 9 && d[4] == 10 && d[5] == 9 && d[6] == 4 && d[7] == 9 && d[8] == 99 && d[9] == -1 && d[10] == 8
  }

  lemma PositionLessThanStep1(e: seq<int>, x: int)
    requires |e| == 11 && e[0] == 3 && e[1] == 9
    ensures Step(Machine(e, 0, false, x, 0)) == Success(Machine(e[9 := x], 2, false, x, 0))
  {
    assert ParseInstruction(3) == (3, false, false);
    StepInputOutput(Machine(e, 0, false, x, 0), 3, false, false);
  }

  lemma PositionLessThanStep2(e: seq<int>, x: int)
    requires |e| == 11 && e[2] == 7 && e[3] == 9 && e[4] == 10 && e[5] == 9 && e[9] == x && e[10] == 8
    ensures Step(Machine(e, 2, false, x, 0)) == Success(Machine(e[9 := (if AsUsize(x) < 8 then 1 else 0)], 6, false, x, 0))
  {
    assert ParseInstruction(7) == (7, false, false);
    StepCompare(Machine(e, 2, false, x, 0), 7, false, false);
  }

  lemma PositionLessThanStep3(e: seq<int>, x: int)
    requires |e| == 11 && e[6] == 4 && e[7] == 9 && e[9] == (if AsUsize(x) < 8 then 1 else 0)
    ensures Step(Machine(e, 6, false, x, 0)) == Success(Machine(e, 8, false, x, (if AsUsize(x) < 8 then 1 else 0)))
  {
    assert ParseInstruction(4) == (4, false, false);
    StepInputOutput(Machine(e, 6, false, x, 0), 4, false, false);
  }

  lemma PositionLessThanTrace1(d: seq<int>, x: int)
    requires IsPositionLessThan(d)
    ensures var e0 := d; var e1 := e0[9 := x];
      Run(Machine(e0, 0, false, x, 0), 4) == Run(Machine(e1, 2, false, x, 0), 3)
  {
    var e0 := d;
    var e1 := e0[9 := x];
    PositionLessThanStep1(e0, x);
    RunStep(Machine(e0, 0, false, x, 0), Machine(e1, 2, false, x, 0), 4);
  }

  lemma PositionLessThanTrace2(d: seq<int>, x: int)
    requires IsPositionLessThan(d)
    ensures var e0 := d; var e1 := e0[9 := x]; var e2 := e1[9 := (if AsUsize(x) < 8 then 1 else 0)];
      Run(Machine(e1, 2, false, x, 0), 3) == Run(Machine(e2, 6, false, x, 0), 2)
  {
    var e0 := d;
    var e1 := e0[9 := x];
    var e2 := e1[9 := (if AsUsize(x) < 8 then 1 else 0)];
    PositionLessThanStep2(e1, x);
    RunStep(Machine(e1, 2, false, x, 0), Machine(e2, 6, false, x, 0), 3);
  }

  lemma PositionLessThanTrace3(d: seq<int>, x: int)
    requires IsPositionLessThan(d)
    ensures var e0 := d; var e1 := e0[9 := x]; var e2 := e1[9 := (if AsUsize(x) < 8 then 1 else 0)]; var e3 := e2;
      Run(Machine(e2, 6, false, x, 0), 2) == Run(Machine(e3, 8, false, x, (if AsUsize(x) < 8 then 1 else 0)), 1)
  {
    var e0 := d;
    var e1 := e0[9 := x];
    var e2 := e1[9 := (if AsUsize(x) < 8 then 1 else 0)];
    var e3 := e2;
    PositionLessThanStep3(e2, x);
    RunStep(Machine(e2, 6, false, x, 0), Machine(e3, 8, false, x, (if AsUsize(x) < 8 then 1 else 0)), 2);
  }

  lemma PositionLessThanTrace4(d: seq<int>, x: int)
    requires IsPositionLessThan(d)
    ensures var e0 := d; var e1 := e0[9 := x]; var e2 := e1[9 := (if AsUsize(x) < 8 then 1 else 0)]; var e3 := e2;
      Run(Machine(e3, 8, false, x, (if AsUsize(x) < 8 then 1 else 0)), 1) == Success(Machine(e3, 9, true, x, (if AsUsize(x) < 8 then 1 else 0)))
  {
    var e0 := d;
    var e1 := e0[9 := x];
    var e2 := e1[9 := (if AsUsize(x) < 8 then 1 else 0)];
    var e3 := e2;
    DoneStops(Machine(e3, 8, false, x, (if AsUsize(x) < 8 then 1 else 0)), 1);
  }

  lemma PositionLessThanRun(d: seq<int>, x: int, fuel: nat)
    requires IsPositionLessThan(d) && fuel >= 4
    ensures var r := Run(Machine(d, 0, false, x, 0), fuel);
      r.Success? && r.value.output == (if AsUsize(x) < 8 then 1 else 0)
  {
    PositionLessThanTrace1(d, x);
    PositionLessThanTrace2(d, x);
    PositionLessThanTrace3(d, x);
    PositionLessThanTrace4(d, x);
    RunMoreFuel(Machine(d, 0, false, x, 0), 4, fuel);
  }

  /** Tests input < 8 in position mode; through the cast to `usize` a negative input counts as large. */
  lemma PositionLessThanOutput(d: seq<int>, x: int, fuel: nat)
    requires IsPositionLessThan(d) && InI64(x) && fuel >= 4
    ensures var r := Run(Machine(d, 0, false, x, 0), fuel);
      r.Success? && r.value.output == (if 0 <= x < 8 then 1 else 0)
  {
    PositionLessThanRun(d, x, fuel);
    UnsignedLessThan(x, 8);
  }

  /** The cases of `test_position_less_than`. */
  lemma PositionLessThanCases(fuel: nat)
    requires fuel >= 4
    ensures Run(Machine(PositionLessThanProgram, 0, false, 1, 0), fuel).Success?
    ensures Run(Machine(PositionLessThanProgram, 0, false, 1, 0), fuel).value.output == 1
    ensures Run(Machine(PositionLessThanProgram, 0, false, 999, 0), fuel).Success?
    ensures Run(Machine(PositionLessThanProgram, 0, false, 999, 0), fuel).value.output == 0
  {
    assert IsPositionLessThan(PositionLessThanProgram);
    PositionLessThanOutput(PositionLessThanProgram, 1, fuel);
    PositionLessThanOutput(PositionLessThanProgram, 999, fuel);
  }

  const ImmediateLessThanProgram: seq<int> := [3, 3, 1107, -1, 8, 3, 4, 3, 99]

  /** Memories that hold the program of `test_immediate_less_than`, cell by cell. */
  predicate IsImmediateLessThan(d: seq<int>)
  {
    |d| == 9 && d[0] == 3 && d[1] == 3 && d[2] == 1107 && d[3] == -1 && d[4] == 8 && d[5] == 3 && d[6] == 4 && d[7] == 3 && d[8] == 99
  }

  lemma ImmediateLessThanStep1(e: seq<int>, x: int)
    requires |e| == 9 && e[0] == 3 && e[1] == 3
    ensures Step(Machine(e, 0, false, x, 0)) == Success(Machine(e[3 := x], 2, false, x, 0))
  {
    assert ParseInstruction(3) == (3, false, false);
    StepInputOutput(Machine(e, 0, false, x, 0), 3, false, false);
  }

  lemma ImmediateLessThanStep2(e: seq<int>, x: int)
    requires |e| == 9 && e[2] == 1107 && e[3] == x && e[4] == 8 && e[5] == 3
    ensures Step(Machine(e, 2, false, x, 0)) == Success(Machine(e[3 := (if AsUsize(x) < 8 then 1 else 0)], 6, false, x, 0))
  {
    assert ParseInstruction(1107) == (7, true, true);
    StepCompare(Machine(e, 2, false, x, 0), 7, true, true);
  }

  lemma ImmediateLessThanStep3(e: seq<int>, x: int)
    requires |e| == 9 && e[6] == 4 && e[7] == 3 && e[3] == (if AsUsize(x) < 8 then 1 else 0)
    ensures Step(Machine(e, 6, false, x, 0)) == Success(Machine(e, 8, false, x, (if AsUsize(x) < 8 then 1 else 0)))
  {
    assert ParseInstruction(4) == (4, false, false);
    StepInputOutput(Machine(e, 6, false, x, 0), 4, false, false);
  }

  lemma ImmediateLessThanTrace1(d: seq<int>, x: int)
    requires IsImmediateLessThan(d)
    ensures var e0 := d; var e1 := e0[3 := x];
      Run(Machine(e0, 0, false, x, 0), 4) == Run(Machine(e1, 2, false, x, 0), 3)
  {
    var e0 := d;
    var e1 := e0[3 := x];
    ImmediateLessThanStep1(e0, x);
    RunStep(Machine(e0, 0, false, x, 0), Machine(e1, 2, false, x, 0), 4);
  }

  lemma ImmediateLessThanTrace2(d: seq<int>, x: int)
    requires IsImmediateLessThan(d)
    ensures var e0 := d; var e1 := e0[3 := x]; var e2 := e1[3 := (if AsUsize(x) < 8 then 1 else 0)];
      Run(Machine(e1, 2, false, x, 0), 3) == Run(Machine(e2, 6, false, x, 0), 2)
  {
    var e0 := d;
    var e1 := e0[3 := x];
    var e2 := e1[3 := (if AsUsize(x) < 8 then 1 else 0)];
    ImmediateLessThanStep2(e1, x);
    RunStep(Machine(e1, 2, false, x, 0), Machine(e2, 6, false, x, 0), 3);
  }

  lemma ImmediateLessThanTrace3(d: seq<int>, x: int)
    requires IsImmediateLessThan(d)
    ensures var e0 := d; var e1 := e0[3 := x]; var e2 := e1[3 := (if AsUsize(x) < 8 then 1 else 0)]; var e3 := e2;
      Run(Machine(e2, 6, false, x, 0), 2) == Run(Machine(e3, 8, false, x, (if AsUsize(x) < 8 then 1 else 0)), 1)
  {
    var e0 := d;
    var e1 := e0[3 := x];
    var e2 := e1[3 := (if AsUsize(x) < 8 then 1 else 0)];
    var e3 := e2;
    ImmediateLessThanStep3(e2, x);
    RunStep(Machine(e2, 6, false, x, 0), Machine(e3, 8, false, x, (if AsUsize(x) < 8 then 1 else 0)), 2);
  }

  lemma ImmediateLessThanTrace4(d: seq<int>, x: int)
    requires IsImmediateLessThan(d)
    ensures var e0 := d; var e1 := e0[3 := x]; var e2 := e1[3 := (if AsUsize(x) < 8 then 1 else 0)]; var e3 := e2;
      Run(Machine(e3, 8, false, x, (if AsUsize(x) < 8 then 1 else 0)), 1) == Success(Machine(e3, 9, true, x, (if AsUsize(x) < 8 then 1 else 0)))
  {
    var e0 := d;
    var e1 := e0[3 := x];
    var e2 := e1[3 := (if AsUsize(x) < 8 then 1 else 0)];
    var e3 := e2;
    DoneStops(Machine(e3, 8, false, x, (if AsUsize(x) < 8 then 1 else 0)), 1);
  }

  lemma ImmediateLessThanRun(d: seq<int>, x: int, fuel: nat)
    requires IsImmediateLessThan(d) && fuel >= 4
    ensures var r := Run(Machine(d, 0, false, x, 0), fuel);
      r.Success? && r.value.output == (if AsUsize(x) < 8 then 1 else 0)
  {
    ImmediateLessThanTrace1(d, x);
    ImmediateLessThanTrace2(d, x);
    ImmediateLessThanTrace3(d, x);
    ImmediateLessThanTrace4(d, x);
    RunMoreFuel(Machine(d, 0, false, x, 0), 4, fuel);
  }

  /** Tests input < 8 in immediate mode; a negative input again counts as large. */
  lemma ImmediateLessThanOutput(d: seq<int>, x: int, fuel: nat)
    requires IsImmediateLessThan(d) && InI64(x) && fuel >= 4
    ensures var r := Run(Machine(d, 0, false, x, 0), fuel);
      r.Success? && r.value.output == (if 0 <= x < 8 then 1 else 0)
  {
    ImmediateLessThanRun(d, x, fuel);
    UnsignedLessThan(x, 8);
  }

  /** The cases of `test_immediate_less_than`. */
  lemma ImmediateLessThanCases(fuel: nat)
    requires fuel >= 4
    ensures Run(Machine(ImmediateLessThanProgram, 0, false, 1, 0), fuel).Success?
    ensures Run(Machine(ImmediateLessThanProgram, 0, false, 1, 0), fuel).value.output == 1
    ensures Run(Machine(ImmediateLessThanProgram, 0, false, 999, 0), fuel).Success?
    ensures Run(Machine(ImmediateLessThanProgram, 0, false, 999, 0), fuel).value.output == 0
  {
    assert IsImmediateLessThan(ImmediateLessThanProgram);
    ImmediateLessThanOutput(ImmediateLessThanProgram, 1, fuel);
    ImmediateLessThanOutput(ImmediateLessThanProgram, 999, fuel);
  }

  const PositionJumpProgram: seq<int> := [3, 12, 6, 12, 15, 1, 13, 14, 13, 4, 13, 99, -1, 0, 1, 9]

  /** Memories that hold the program of `test_position_jump`, cell by cell. */
  predicate IsPositionJump(d: seq<int>)
  {
    |d| == 16 && d[0] == 3 && d[1] == 12 && d[2] == 6 && d[3] == 12 && d[4] == 15 && d[5] == 1 && d[6] == 13 && d[7] == 14 && d[8] == 13 && d[9] == 4 && d[10] == 13 && d[11] == 99 && d[12] == -1 && d[13] == 0 && d[14] == 1 && d[15] == 9
  }

  lemma PositionJumpZeroStep1(e: seq<int>, x: int)
    requires |e| == 16 && e[0] == 3 && e[1] == 12
    ensures Step(Machine(e, 0, false, x, 0)) == Success(Machine(e[12 := x], 2, false, x, 0))
  {
    assert ParseInstruction(3) == (3, false, false);
    StepInputOutput(Machine(e, 0, false, x, 0), 3, false, false);
  }

  lemma PositionJumpZeroStep2(e: seq<int>, x: int)
    requires |e| == 16 && e[2] == 6 && e[3] == 12 && e[4] == 15 && e[12] == x && x == 0
    ensures Step(Machine(e, 2, false, x, 0)) == Success(Machine(e, 15, false, x, 0))
  {
    assert ParseInstruction(6) == (6, false, false);
    StepJump(Machine(e, 2, false, x, 0), 6, false, false);
  }

  lemma PositionJumpZeroTrace1(d: seq<int>, x: int)
    requires IsPositionJump(d) && x == 0
    ensures var e0 := d; var e1 := e0[12 := x];
      Run(Machine(e0, 0, false, x, 0), 3) == Run(Machine(e1, 2, false, x, 0), 2)
  {
    var e0 := d;
    var e1 := e0[12 := x];
    PositionJumpZeroStep1(e0, x);
    RunStep(Machine(e0, 0, false, x, 0), Machine(e1, 2, false, x, 0), 3);
  }

  lemma PositionJumpZeroTrace2(d: seq<int>, x: int)
    requires IsPositionJump(d) && x == 0
    ensures var e0 := d; var e1 := e0[12 := x]; var e2 := e1;
      Run(Machine(e1, 2, false, x, 0), 2) == Run(Machine(e2, 15, false, x, 0), 1)
  {
    var e0 := d;
    var e1 := e0[12 := x];
    var e2 := e1;
    PositionJumpZeroStep2(e1, x);
    RunStep(Machine(e1, 2, false, x, 0), Machine(e2, 15, false, x, 0), 2);
  }

  lemma PositionJumpZeroTrace3(d: seq<int>, x: int)
    requires IsPositionJump(d) && x == 0
    ensures var e0 := d; var e1 := e0[12 := x]; var e2 := e1;
      Run(Machine(e2, 15, false, x, 0), 1) == Success(Machine(e2, 16, true, x, 0))
  {
    var e0 := d;
    var e1 := e0[12 := x];
    var e2 := e1;
    DoneStops(Machine(e2, 15, false, x, 0), 1);
  }

  lemma PositionJumpZeroRun(d: seq<int>, x: int, fuel: nat)
    requires IsPositionJump(d) && x == 0 && fuel >= 3
    ensures var r := Run(Machine(d, 0, false, x, 0), fuel);
      r.Success? && r.value.output == 0
  {
    PositionJumpZeroTrace1(d, x);
    PositionJumpZeroTrace2(d, x);
    PositionJumpZeroTrace3(d, x);
    RunMoreFuel(Machine(d, 0, false, x, 0), 3, fuel);
  }

  lemma PositionJumpNonZeroStep1(e: seq<int>, x: int)
    requires |e| == 16 && e[0] == 3 && e[1] == 12
    ensures Step(Machine(e, 0, false, x, 0)) == Success(Machine(e[12 := x], 2, false, x, 0))
  {
    assert ParseInstruction(3) == (3, false, false);
    StepInputOutput(Machine(e, 0, false, x, 0), 3, false, false);
  }

  lemma PositionJumpNonZeroStep2(e: seq<int>, x: int)
    requires |e| == 16 && e[2] == 6 && e[3] == 12 && e[4] == 15 && e[12] == x && x != 0
    ensures Step(Machine(e, 2, false, x, 0)) == Success(Machine(e, 5, false, x, 0))
  {
    assert ParseInstruction(6) == (6, false, false);
    StepJump(Machine(e, 2, false, x, 0), 6, false, false);
  }

  lemma PositionJumpNonZeroStep3(e: seq<int>, x: int)
    requires |e| == 16 && e[5] == 1 && e[6] == 13 && e[7] == 14 && e[8] == 13 && e[13] == 0 && e[14] == 1
    ensures Step(Machine(e, 5, false, x, 0)) == Success(Machine(e[13 := 1], 9, false, x, 0))
  {
    assert ParseInstruction(1) == (1, false, false);
    StepArithmetic(Machine(e, 5, false, x, 0), 1, false, false);
  }

  lemma PositionJumpNonZeroStep4(e: seq<int>, x: int)
    requires |e| == 16 && e[9] == 4 && e[10] == 13 && e[13] == 1
    ensures Step(Machine(e, 9, false, x, 0)) == Success(Machine(e, 11, false, x, 1))
  {
    assert ParseInstruction(4) == (4, false, false);
    StepInputOutput(Machine(e, 9, false, x, 0), 4, false, false);
  }

  lemma PositionJumpNonZeroTrace1(d: seq<int>, x: int)
    requires IsPositionJump(d) && x != 0
    ensures var e0 := d; var e1 := e0[12 := x];
      Run(Machine(e0, 0, false, x, 0), 5) == Run(Machine(e1, 2, false, x, 0), 4)
  {
    var e0 := d;
    var e1 := e0[12 := x];
    PositionJumpNonZeroStep1(e0, x);
    RunStep(Machine(e0, 0, false, x, 0), Machine(e1, 2, false, x, 0), 5);
  }

  lemma PositionJumpNonZeroTrace2(d: seq<int>, x: int)
    requires IsPositionJump(d) && x != 0
    ensures var e0 := d; var e1 := e0[12 := x]; var e2 := e1;
      Run(Machine(e1, 2, false, x, 0), 4) == Run(Machine(e2, 5, false, x, 0), 3)
  {
    var e0 := d;
    var e1 := e0[12 := x];
    var e2 := e1;
    PositionJumpNonZeroStep2(e1, x);
    RunStep(Machine(e1, 2, false, x, 0), Machine(e2, 5, false, x, 0), 4);
  }

  lemma PositionJumpNonZeroTrace3(d: seq<int>, x: int)
    requires IsPositionJump(d) && x != 0
    ensures var e0 := d; var e1 := e0[12 := x]; var e2 := e1; var e3 := e2[13 := 1];
      Run(Machine(e2, 5, false, x, 0), 3) == Run(Machine(e3, 9, false, x, 0), 2)
  {
    var e0 := d;
    var e1 := e0[12 := x];
    var e2 := e1;
    var e3 := e2[13 := 1];
    PositionJumpNonZeroStep3(e2, x);
    RunStep(Machine(e2, 5, false, x, 0), Machine(e3, 9, false, x, 0), 3);
  }

  lemma PositionJumpNonZeroTrace4(d: seq<int>, x: int)
    requires IsPositionJump(d) && x != 0
    ensures var e0 := d; var e1 := e0[12 := x]; var e2 := e1; var e3 := e2[13 := 1]; var e4 := e3;
      Run(Machine(e3, 9, false, x, 0), 2) == Run(Machine(e4, 11, false, x, 1), 1)
  {
    var e0 := d;
    var e1 := e0[12 := x];
    var e2 := e1;
    var e3 := e2[13 := 1];
    var e4 := e3;
    PositionJumpNonZeroStep4(e3, x);
    RunStep(Machine(e3, 9, false, x, 0), Machine(e4, 11, false, x, 1), 2);
  }

  lemma PositionJumpNonZeroTrace5(d: seq<int>, x: int)
    requires IsPositionJump(d) && x != 0
    ensures var e0 := d; var e1 := e0[12 := x]; var e2 := e1; var e3 := e2[13 := 1]; var e4 := e3;
      Run(Machine(e4, 11, false, x, 1), 1) == Success(Machine(e4, 12, true, x, 1))
  {
    var e0 := d;
    var e1 := e0[12 := x];
    var e2 := e1;
    var e3 := e2[13 := 1];
    var e4 := e3;
    DoneStops(Machine(e4, 11, false, x, 1), 1);
  }

  lemma PositionJumpNonZeroRun(d: seq<int>, x: int, fuel: nat)
    requires IsPositionJump(d) && x != 0 && fuel >= 5
    ensures var r := Run(Machine(d, 0, false, x, 0), fuel);
      r.Success? && r.value.output == 1
  {
    PositionJumpNonZeroTrace1(d, x);
    PositionJumpNonZeroTrace2(d, x);
    PositionJumpNonZeroTrace3(d, x);
    PositionJumpNonZeroTrace4(d, x);
    PositionJumpNonZeroTrace5(d, x);
    RunMoreFuel(Machine(d, 0, false, x, 0), 5, fuel);
  }

  /** Outputs 0 for input 0 and 1 otherwise. For input 0 the jump lands on cell 15, the literal target, whose 9 halts the machine before anything is loaded. */
  lemma PositionJumpOutput(d: seq<int>, x: int, fuel: nat)
    requires IsPositionJump(d) && fuel >= 5
    ensures var r := Run(Machine(d, 0, false, x, 0), fuel);
      r.Success? && r.value.output == (if x == 0 then 0 else 1)
  {
    if x == 0 {
      PositionJumpZeroRun(d, x, fuel);
    } else if x != 0 {
      PositionJumpNonZeroRun(d, x, fuel);
    }
  }

  /** The cases of `test_position_jump`. */
  lemma PositionJumpCases(fuel: nat)
    requires fuel >= 5
    ensures Run(Machine(PositionJumpProgram, 0, false, 1, 0), fuel).Success?
    ensures Run(Machine(PositionJumpProgram, 0, false, 1, 0), fuel).value.output == 1
    ensures Run(Machine(PositionJumpProgram, 0, false, 0, 0), fuel).Success?
    ensures Run(Machine(PositionJumpProgram, 0, false, 0, 0), fuel).value.output == 0
  {
    assert IsPositionJump(PositionJumpProgram);
    PositionJumpOutput(PositionJumpProgram, 1, fuel);
    PositionJumpOutput(PositionJumpProgram, 0, fuel);
  }

  const ImmediateJumpProgram: seq<int> := [3, 3, 1105, -1, 9, 1101, 0, 0, 12, 4, 12, 99, 1]

  /** Memories that hold the program of `test_immediate_jump`, cell by cell. */
  predicate IsImmediateJump(d: seq<int>)
  {
    |d| == 13 && d[0] == 3 && d[1] == 3 && d[2] == 1105 && d[3] == -1 && d[4] == 9 && d[5] == 1101 && d[6] == 0 && d[7] == 0 && d[8] == 12 && d[9] == 4 && d[10] == 12 && d[11] == 99 && d[12] == 1
  }

  lemma ImmediateJumpZeroStep1(e: seq<int>, x: int)
    requires |e| == 13 && e[0] == 3 && e[1] == 3
    ensures Step(Machine(e, 0, false, x, 0)) == Success(Machine(e[3 := x], 2, false, x, 0))
  {
    assert ParseInstruction(3) == (3, false, false);
    StepInputOutput(Machine(e, 0, false, x, 0), 3, false, false);
  }

  lemma ImmediateJumpZeroStep2(e: seq<int>, x: int)
    requires |e| == 13 && e[2] == 1105 && e[3] == x && e[4] == 9 && x == 0
    ensures Step(Machine(e, 2, false, x, 0)) == Success(Machine(e, 5, false, x, 0))
  {
    assert ParseInstruction(1105) == (5, true, true);
    StepJump(Machine(e, 2, false, x, 0), 5, true, true);
  }

  lemma ImmediateJumpZeroStep3(e: seq<int>, x: int)
    requires |e| == 13 && e[5] == 1101 && e[6] == 0 && e[7] == 0 && e[8] == 12
    ensures Step(Machine(e, 5, false, x, 0)) == Success(Machine(e[12 := 0], 9, false, x, 0))
  {
    assert ParseInstruction(1101) == (1, true, true);
    StepArithmetic(Machine(e, 5, false, x, 0), 1, true, true);
  }

  lemma ImmediateJumpZeroStep4(e: seq<int>, x: int)
    requires |e| == 13 && e[9] == 4 && e[10] == 12 && e[12] == 0
    ensures Step(Machine(e, 9, false, x, 0)) == Success(Machine(e, 11, false, x, 0))
  {
    assert ParseInstruction(4) == (4, false, false);
    StepInputOutput(Machine(e, 9, false, x, 0), 4, false, false);
  }

  lemma ImmediateJumpZeroTrace1(d: seq<int>, x: int)
    requires IsImmediateJump(d) && x == 0
    ensures var e0 := d; var e1 := e0[3 := x];
      Run(Machine(e0, 0, false, x, 0), 5) == Run(Machine(e1, 2, false, x, 0), 4)
  {
    var e0 := d;
    var e1 := e0[3 := x];
    ImmediateJumpZeroStep1(e0, x);
    RunStep(Machine(e0, 0, false, x, 0), Machine(e1, 2, false, x, 0), 5);
  }

  lemma ImmediateJumpZeroTrace2(d: seq<int>, x: int)
    requires IsImmediateJump(d) && x == 0
    ensures var e0 := d; var e1 := e0[3 := x]; var e2 := e1;
      Run(Machine(e1, 2, false, x, 0), 4) == Run(Machine(e2, 5, false, x, 0), 3)
  {
    var e0 := d;
    var e1 := e0[3 := x];
    var e2 := e1;
    ImmediateJumpZeroStep2(e1, x);
    RunStep(Machine(e1, 2, false, x, 0), Machine(e2, 5, false, x, 0), 4);
  }

  lemma ImmediateJumpZeroTrace3(d: seq<int>, x: int)
    requires IsImmediateJump(d) && x == 0
    ensures var e0 := d; var e1 := e0[3 := x]; var e2 := e1; var e3 := e2[12 := 0];
      Run(Machine(e2, 5, false, x, 0), 3) == Run(Machine(e3, 9, false, x, 0), 2)
  {
    var e0 := d;
    var e1 := e0[3 := x];
    var e2 := e1;
    var e3 := e2[12 := 0];
    ImmediateJumpZeroStep3(e2, x);
    RunStep(Machine(e2, 5, false, x, 0), Machine(e3, 9, false, x, 0), 3);
  }

  lemma ImmediateJumpZeroTrace4(d: seq<int>, x: int)
    requires IsImmediateJump(d) && x == 0
    ensures var e0 := d; var e1 := e0[3 := x]; var e2 := e1; var e3 := e2[12 := 0]; var e4 := e3;
      Run(Machine(e3, 9, false, x, 0), 2) == Run(Machine(e4, 11, false, x, 0), 1)
  {
    var e0 := d;
    var e1 := e0[3 := x];
    var e2 := e1;
    var e3 := e2[12 := 0];
    var e4 := e3;
    ImmediateJumpZeroStep4(e3, x);
    RunStep(Machine(e3, 9, false, x, 0), Machine(e4, 11, false, x, 0), 2);
  }

  lemma ImmediateJumpZeroTrace5(d: seq<int>, x: int)
    requires IsImmediateJump(d) && x == 0
    ensures var e0 := d; var e1 := e0[3 := x]; var e2 := e1; var e3 := e2[12 := 0]; var e4 := e3;
      Run(Machine(e4, 11, false, x, 0), 1) == Success(Machine(e4, 12, true, x, 0))
  {
    var e0 := d;
    var e1 := e0[3 := x];
    var e2 := e1;
    var e3 := e2[12 := 0];
    var e4 := e3;
    DoneStops(Machine(e4, 11, false, x, 0), 1);
  }

  lemma ImmediateJumpZeroRun(d: seq<int>, x: int, fuel: nat)
    requires IsImmediateJump(d) && x == 0 && fuel >= 5
    ensures var r := Run(Machine(d, 0, false, x, 0), fuel);
      r.Success? && r.value.output == 0
  {
    ImmediateJumpZeroTrace1(d, x);
    ImmediateJumpZeroTrace2(d, x);
    ImmediateJumpZeroTrace3(d, x);
    ImmediateJumpZeroTrace4(d, x);
    ImmediateJumpZeroTrace5(d, x);
    RunMoreFuel(Machine(d, 0, false, x, 0), 5, fuel);
  }

  lemma ImmediateJumpNonZeroStep1(e: seq<int>, x: int)
    requires |e| == 13 && e[0] == 3 && e[1] == 3
    ensures Step(Machine(e, 0, false, x, 0)) == Success(Machine(e[3 := x], 2, false, x, 0))
  {
    assert ParseInstruction(3) == (3, false, false);
    StepInputOutput(Machine(e, 0, false, x, 0), 3, false, false);
  }

  lemma ImmediateJumpNonZeroStep2(e: seq<int>, x: int)
    requires |e| == 13 && e[2] == 1105 && e[3] == x && e[4] == 9 && InI64(x) && x != 0
    ensures Step(Machine(e, 2, false, x, 0)) == Success(Machine(e, 9, false, x, 0))
  {
    assert ParseInstruction(1105) == (5, true, true);
    StepJump(Machine(e, 2, false, x, 0), 5, true, true);
  }

  lemma ImmediateJumpNonZeroStep3(e: seq<int>, x: int)
    requires |e| == 13 && e[9] == 4 && e[10] == 12 && e[12] == 1
    ensures Step(Machine(e, 9, false, x, 0)) == Success(Machine(e, 11, false, x, 1))
  {
    assert ParseInstruction(4) == (4, false, false);
    StepInputOutput(Machine(e, 9, false, x, 0), 4, false, false);
  }

  lemma ImmediateJumpNonZeroTrace1(d: seq<int>, x: int)
    requires IsImmediateJump(d) && InI64(x) && x != 0
    ensures var e0 := d; var e1 := e0[3 := x];
      Run(Machine(e0, 0, false, x, 0), 4) == Run(Machine(e1, 2, false, x, 0), 3)
  {
    var e0 := d;
    var e1 := e0[3 := x];
    ImmediateJumpNonZeroStep1(e0, x);
    RunStep(Machine(e0, 0, false, x, 0), Machine(e1, 2, false, x, 0), 4);
  }

  lemma ImmediateJumpNonZeroTrace2(d: seq<int>, x: int)
    requires IsImmediateJump(d) && InI64(x) && x != 0
    ensures var e0 := d; var e1 := e0[3 := x]; var e2 := e1;
      Run(Machine(e1, 2, false, x, 0), 3) == Run(Machine(e2, 9, false, x, 0), 2)
  {
    var e0 := d;
    var e1 := e0[3 := x];
    var e2 := e1;
    ImmediateJumpNonZeroStep2(e1, x);
    RunStep(Machine(e1, 2, false, x, 0), Machine(e2, 9, false, x, 0), 3);
  }

  lemma ImmediateJumpNonZeroTrace3(d: seq<int>, x: int)
    requires IsImmediateJump(d) && InI64(x) && x != 0
    ensures var e0 := d; var e1 := e0[3 := x]; var e2 := e1; var e3 := e2;
      Run(Machine(e2, 9, false, x, 0), 2) == Run(Machine(e3, 11, false, x, 1), 1)
  {
    var e0 := d;
    var e1 := e0[3 := x];
    var e2 := e1;
    var e3 := e2;
    ImmediateJumpNonZeroStep3(e2, x);
    RunStep(Machine(e2, 9, false, x, 0), Machine(e3, 11, false, x, 1), 2);
  }

  lemma ImmediateJumpNonZeroTrace4(d: seq<int>, x: int)
    requires IsImmediateJump(d) && InI64(x) && x != 0
    ensures var e0 := d; var e1 := e0[3 := x]; var e2 := e1; var e3 := e2;
      Run(Machine(e3, 11, false, x, 1), 1) == Success(Machine(e3, 12, true, x, 1))
  {
    var e0 := d;
    var e1 := e0[3 := x];
    var e2 := e1;
    var e3 := e2;
    DoneStops(Machine(e3, 11, false, x, 1), 1);
  }

  lemma ImmediateJumpNonZeroRun(d: seq<int>, x: int, fuel: nat)
    requires IsImmediateJump(d) && InI64(x) && x != 0 && fuel >= 4
    ensures var r := Run(Machine(d, 0, false, x, 0), fuel);
      r.Success? && r.value.output == 1
  {
    ImmediateJumpNonZeroTrace1(d, x);
    ImmediateJumpNonZeroTrace2(d, x);
    ImmediateJumpNonZeroTrace3(d, x);
    ImmediateJumpNonZeroTrace4(d, x);
    RunMoreFuel(Machine(d, 0, false, x, 0), 4, fuel);
  }

  /** Outputs 0 for input 0 and 1 otherwise, with the condition in immediate mode. */
  lemma ImmediateJumpOutput(d: seq<int>, x: int, fuel: nat)
    requires IsImmediateJump(d) && InI64(x) && fuel >= 5
    ensures var r := Run(Machine(d, 0, false, x, 0), fuel);
      r.Success? && r.value.output == (if x == 0 then 0 else 1)
  {
    if x == 0 {
      ImmediateJumpZeroRun(d, x, fuel);
    } else if InI64(x) && x != 0 {
      ImmediateJumpNonZeroRun(d, x, fuel);
    }
  }

  /** The cases of `test_immediate_jump`. */
  lemma ImmediateJumpCases(fuel: nat)
    requires fuel >= 5
    ensures Run(Machine(ImmediateJumpProgram, 0, false, 1, 0), fuel).Success?
    ensures Run(Machine(ImmediateJumpProgram, 0, false, 1, 0), fuel).value.output == 1
    ensures Run(Machine(ImmediateJumpProgram, 0, false, 0, 0), fuel).Success?
    ensures Run(Machine(ImmediateJumpProgram, 0, false, 0, 0), fuel).value.output == 0
  {
    assert IsImmediateJump(ImmediateJumpProgram);
    ImmediateJumpOutput(ImmediateJumpProgram, 1, fuel);
    ImmediateJumpOutput(ImmediateJumpProgram, 0, fuel);
  }

  const LargeProgram: seq<int> :=
    [3, 21, 1008, 21, 8, 20, 1005, 20, 22, 107, 8, 21, 20, 1006, 20, 31, 1106, 0, 36]
    + [98, 0, 0, 1002, 21, 125, 20, 4, 20, 1105, 1, 46, 104, 999, 1105, 1, 46, 1101, 1000]
    + [1, 20, 4, 20, 1105, 1, 46, 98, 99]

  /** Memories that hold the program of `test_large_example`, cell by cell. */
  predicate IsLarge(d: seq<int>)
  {
    |d| == 47 && d[0] == 3 && d[1] == 21 && d[2] == 1008 && d[3] == 21 && d[4] == 8 && d[5] == 20 && d[6] == 1005 && d[7] == 20 && d[8] == 22 && d[9] == 107 && d[10] == 8 && d[11] == 21 && d[12] == 20 && d[13] == 1006 && d[14] == 20 && d[15] == 31 && d[16] == 1106 && d[17] == 0 && d[18] == 36 && d[19] == 98 && d[20] == 0 && d[21] == 0 && d[22] == 1002 && d[23] == 21 && d[24] == 125 && d[25] == 20 && d[26] == 4 && d[27] == 20 && d[28] == 1105 && d[29] == 1 && d[30] == 46 && d[31] == 104 && d[32] == 999 && d[33] == 1105 && d[34] == 1 && d[35] == 46 && d[36] == 1101 && d[37] == 1000 && d[38] == 1 && d[39] == 20 && d[40] == 4 && d[41] == 20 && d[42] == 1105 && d[43] == 1 && d[44] == 46 && d[45] == 98 && d[46] == 99
  }

  lemma LargeBelowStep1(e: seq<int>, x: int)
    requires |e| == 47 && e[0] == 3 && e[1] == 21
    ensures Step(Machine(e, 0, false, x, 0)) == Success(Machine(e[21 := x], 2, false, x, 0))
  {
    assert ParseInstruction(3) == (3, false, false);
    StepInputOutput(Machine(e, 0, false, x, 0), 3, false, false);
  }

  lemma LargeBelowStep2(e: seq<int>, x: int)
    requires |e| == 47 && e[2] == 1008 && e[3] == 21 && e[4] == 8 && e[5] == 20 && e[21] == x && 0 <= x < 8
    ensures Step(Machine(e, 2, false, x, 0)) == Success(Machine(e[20 := 0], 6, false, x, 0))
  {
    assert ParseInstruction(1008) == (8, false, true);
    StepCompare(Machine(e, 2, false, x, 0), 8, false, true);
  }

  lemma LargeBelowStep3(e: seq<int>, x: int)
    requires |e| == 47 && e[6] == 1005 && e[7] == 20 && e[8] == 22 && e[20] == 0
    ensures Step(Machine(e, 6, false, x, 0)) == Success(Machine(e, 9, false, x, 0))
  {
    assert ParseInstruction(1005) == (5, false, true);
    StepJump(Machine(e, 6, false, x, 0), 5, false, true);
  }

  lemma LargeBelowStep4(e: seq<int>, x: int)
    requires |e| == 47 && e[9] == 107 && e[10] == 8 && e[11] == 21 && e[12] == 20 && e[21] == x && 0 <= x < 8
    ensures Step(Machine(e, 9, false, x, 0)) == Success(Machine(e[20 := 0], 13, false, x, 0))
  {
    assert ParseInstruction(107) == (7, true, false);
    StepCompare(Machine(e, 9, false, x, 0), 7, true, false);
  }

  lemma LargeBelowStep5(e: seq<int>, x: int)
    requires |e| == 47 && e[13] == 1006 && e[14] == 20 && e[15] == 31 && e[20] == 0
    ensures Step(Machine(e, 13, false, x, 0)) == Success(Machine(e, 31, false, x, 0))
  {
    assert ParseInstruction(1006) == (6, false, true);
    StepJump(Machine(e, 13, false, x, 0), 6, false, true);
  }

  lemma LargeBelowStep6(e: seq<int>, x: int)
    requires |e| == 47 && e[31] == 104 && e[32] == 999
    ensures Step(Machine(e, 31, false, x, 0)) == Success(Machine(e, 33, false, x, 999))
  {
    assert ParseInstruction(104) == (4, true, false);
    StepInputOutput(Machine(e, 31, false, x, 0), 4, true, false);
    assert UsizeAsI64(999) == 999;
  }

  lemma LargeBelowStep7(e: seq<int>, x: int)
    requires |e| == 47 && e[33] == 1105 && e[34] == 1 && e[35] == 46
    ensures Step(Machine(e, 33, false, x, 999)) == Success(Machine(e, 46, false, x, 999))
  {
    assert ParseInstruction(1105) == (5, true, true);
    StepJump(Machine(e, 33, false, x, 999), 5, true, true);
  }

  lemma LargeBelowTrace1(d: seq<int>, x: int)
    requires IsLarge(d) && 0 <= x < 8
    ensures var e0 := d; var e1 := e0[21 := x];
      Run(Machine(e0, 0, false, x, 0), 8) == Run(Machine(e1, 2, false, x, 0), 7)
  {
    var e0 := d;
    var e1 := e0[21 := x];
    LargeBelowStep1(e0, x);
    RunStep(Machine(e0, 0, false, x, 0), Machine(e1, 2, false, x, 0), 8);
  }

  lemma LargeBelowTrace2(d: seq<int>, x: int)
    requires IsLarge(d) && 0 <= x < 8
    ensures var e0 := d; var e1 := e0[21 := x]; var e2 := e1[20 := 0];
      Run(Machine(e1, 2, false, x, 0), 7) == Run(Machine(e2, 6, false, x, 0), 6)
  {
    var e0 := d;
    var e1 := e0[21 := x];
    var e2 := e1[20 := 0];
    LargeBelowStep2(e1, x);
    RunStep(Machine(e1, 2, false, x, 0), Machine(e2, 6, false, x, 0), 7);
  }

  lemma LargeBelowTrace3(d: seq<int>, x: int)
    requires IsLarge(d) && 0 <= x < 8
    ensures var e0 := d; var e1 := e0[21 := x]; var e2 := e1[20 := 0]; var e3 := e2;
      Run(Machine(e2, 6, false, x, 0), 6) == Run(Machine(e3, 9, false, x, 0), 5)
  {
    var e0 := d;
    var e1 := e0[21 := x];
    var e2 := e1[20 := 0];
    var e3 := e2;
    LargeBelowStep3(e2, x);
    RunStep(Machine(e2, 6, false, x, 0), Machine(e3, 9, false, x, 0), 6);
  }

  lemma LargeBelowTrace4(d: seq<int>, x: int)
    requires IsLarge(d) && 0 <= x < 8
    ensures var e0 := d; var e1 := e0[21 := x]; var e2 := e1[20 := 0]; var e3 := e2; var e4 := e3[20 := 0];
      Run(Machine(e3, 9, false, x, 0), 5) == Run(Machine(e4, 13, false, x, 0), 4)
  {
    var e0 := d;
    var e1 := e0[21 := x];
    var e2 := e1[20 := 0];
    var e3 := e2;
    var e4 := e3[20 := 0];
    LargeBelowStep4(e3, x);
    RunStep(Machine(e3, 9, false, x, 0), Machine(e4, 13, false, x, 0), 5);
  }

  lemma LargeBelowTrace5(d: seq<int>, x: int)
    requires IsLarge(d) && 0 <= x < 8
    ensures var e0 := d; var e1 := e0[21 := x]; var e2 := e1[20 := 0]; var e3 := e2; var e4 := e3[20 := 0]; var e5 := e4;
      Run(Machine(e4, 13, false, x, 0), 4) == Run(Machine(e5, 31, false, x, 0), 3)
  {
    var e0 := d;
    var e1 := e0[21 := x];
    var e2 := e1[20 := 0];
    var e3 := e2;
    var e4 := e3[20 := 0];
    var e5 := e4;
    LargeBelowStep5(e4, x);
    RunStep(Machine(e4, 13, false, x, 0), Machine(e5, 31, false, x, 0), 4);
  }

  lemma LargeBelowTrace6(d: seq<int>, x: int)
    requires IsLarge(d) && 0 <= x < 8
    ensures var e0 := d; var e1 := e0[21 := x]; var e2 := e1[20 := 0]; var e3 := e2; var e4 := e3[20 := 0]; var e5 := e4; var e6 := e5;
      Run(Machine(e5, 31, false, x, 0), 3) == Run(Machine(e6, 33, false, x, 999), 2)
  {
    var e0 := d;
    var e1 := e0[21 := x];
    var e2 := e1[20 := 0];
    var e3 := e2;
    var e4 := e3[20 := 0];
    var e5 := e4;
    var e6 := e5;
    LargeBelowStep6(e5, x);
    RunStep(Machine(e5, 31, false, x, 0), Machine(e6, 33, false, x, 999), 3);
  }

  lemma LargeBelowTrace7(d: seq<int>, x: int)
    requires IsLarge(d) && 0 <= x < 8
    ensures var e0 := d; var e1 := e0[21 := x]; var e2 := e1[20 := 0]; var e3 := e2; var e4 := e3[20 := 0]; var e5 := e4; var e6 := e5; var e7 := e6;
      Run(Machine(e6, 33, false, x, 999), 2) == Run(Machine(e7, 46, false, x, 999), 1)
  {
    var e0 := d;
    var e1 := e0[21 := x];
    var e2 := e1[20 := 0];
    var e3 := e2;
    var e4 := e3[20 := 0];
    var e5 := e4;
    var e6 := e5;
    var e7 := e6;
    LargeBelowStep7(e6, x);
    RunStep(Machine(e6, 33, false, x, 999), Machine(e7, 46, false, x, 999), 2);
  }

  lemma LargeBelowTrace8(d: seq<int>, x: int)
    requires IsLarge(d) && 0 <= x < 8
    ensures var e0 := d; var e1 := e0[21 := x]; var e2 := e1[20 := 0]; var e3 := e2; var e4 := e3[20 := 0]; var e5 := e4; var e6 := e5; var e7 := e6;
      Run(Machine(e7, 46, false, x, 999), 1) == Success(Machine(e7, 47, true, x, 999))
  {
    var e0 := d;
    var e1 := e0[21 := x];
    var e2 := e1[20 := 0];
    var e3 := e2;
    var e4 := e3[20 := 0];
    var e5 := e4;
    var e6 := e5;
    var e7 := e6;
    DoneStops(Machine(e7, 46, false, x, 999), 1);
  }

  lemma LargeBelowRun(d: seq<int>, x: int, fuel: nat)
    requires IsLarge(d) && 0 <= x < 8 && fuel >= 8
    ensures var r := Run(Machine(d, 0, false, x, 0), fuel);
      r.Success? && r.value.output == 999
  {
    LargeBelowTrace1(d, x);
    LargeBelowTrace2(d, x);
    LargeBelowTrace3(d, x);
    LargeBelowTrace4(d, x);
    LargeBelowTrace5(d, x);
    LargeBelowTrace6(d, x);
    LargeBelowTrace7(d, x);
    LargeBelowTrace8(d, x);
    RunMoreFuel(Machine(d, 0, false, x, 0), 8, fuel);
  }

  lemma LargeEqualStep1(e: seq<int>, x: int)
    requires |e| == 47 && e[0] == 3 && e[1] == 21
    ensures Step(Machine(e, 0, false, x, 0)) == Success(Machine(e[21 := x], 2, false, x, 0))
  {
    assert ParseInstruction(3) == (3, false, false);
    StepInputOutput(Machine(e, 0, false, x, 0), 3, false, false);
  }

  lemma LargeEqualStep2(e: seq<int>, x: int)
    requires |e| == 47 && e[2] == 1008 && e[3] == 21 && e[4] == 8 && e[5] == 20 && e[21] == x && x == 8
    ensures Step(Machine(e, 2, false, x, 0)) == Success(Machine(e[20 := 1], 6, false, x, 0))
  {
    assert ParseInstruction(1008) == (8, false, true);
    StepCompare(Machine(e, 2, false, x, 0), 8, false, true);
  }

  lemma LargeEqualStep3(e: seq<int>, x: int)
    requires |e| == 47 && e[6] == 1005 && e[7] == 20 && e[8] == 22 && e[20] == 1
    ensures Step(Machine(e, 6, false, x, 0)) == Success(Machine(e, 22, false, x, 0))
  {
    assert ParseInstruction(1005) == (5, false, true);
    StepJump(Machine(e, 6, false, x, 0), 5, false, true);
  }

  lemma LargeEqualStep4(e: seq<int>, x: int)
    requires |e| == 47 && e[22] == 1002 && e[23] == 21 && e[24] == 125 && e[25] == 20 && e[21] == x && x == 8
    ensures Step(Machine(e, 22, false, x, 0)) == Success(Machine(e[20 := x * 125], 26, false, x, 0))
  {
    assert ParseInstruction(1002) == (2, false, true);
    StepArithmetic(Machine(e, 22, false, x, 0), 2, false, true);
  }

  lemma LargeEqualStep5(e: seq<int>, x: int)
    requires |e| == 47 && e[26] == 4 && e[27] == 20 && e[20] == x * 125
    ensures Step(Machine(e, 26, false, x, 0)) == Success(Machine(e, 28, false, x, x * 125))
  {
    assert ParseInstruction(4) == (4, false, false);
    StepInputOutput(Machine(e, 26, false, x, 0), 4, false, false);
  }

  lemma LargeEqualStep6(e: seq<int>, x: int)
    requires |e| == 47 && e[28] == 1105 && e[29] == 1 && e[30] == 46
    ensures Step(Machine(e, 28, false, x, x * 125)) == Success(Machine(e, 46, false, x, x * 125))
  {
    assert ParseInstruction(1105) == (5, true, true);
    StepJump(Machine(e, 28, false, x, x * 125), 5, true, true);
  }

  lemma LargeEqualTrace1(d: seq<int>, x: int)
    requires IsLarge(d) && x == 8
    ensures var e0 := d; var e1 := e0[21 := x];
      Run(Machine(e0, 0, false, x, 0), 7) == Run(Machine(e1, 2, false, x, 0), 6)
  {
    var e0 := d;
    var e1 := e0[21 := x];
    LargeEqualStep1(e0, x);
    RunStep(Machine(e0, 0, false, x, 0), Machine(e1, 2, false, x, 0), 7);
  }

  lemma LargeEqualTrace2(d: seq<int>, x: int)
    requires IsLarge(d) && x == 8
    ensures var e0 := d; var e1 := e0[21 := x]; var e2 := e1[20 := 1];
      Run(Machine(e1, 2, false, x, 0), 6) == Run(Machine(e2, 6, false, x, 0), 5)
  {
    var e0 := d;
    var e1 := e0[21 := x];
    var e2 := e1[20 := 1];
    LargeEqualStep2(e1, x);
    RunStep(Machine(e1, 2, false, x, 0), Machine(e2, 6, false, x, 0), 6);
  }

  lemma LargeEqualTrace3(d: seq<int>, x: int)
    requires IsLarge(d) && x == 8
    ensures var e0 := d; var e1 := e0[21 := x]; var e2 := e1[20 := 1]; var e3 := e2;
      Run(Machine(e2, 6, false, x, 0), 5) == Run(Machine(e3, 22, false, x, 0), 4)
  {
    var e0 := d;
    var e1 := e0[21 := x];
    var e2 := e1[20 := 1];
    var e3 := e2;
    LargeEqualStep3(e2, x);
    RunStep(Machine(e2, 6, false, x, 0), Machine(e3, 22, false, x, 0), 5);
  }

  lemma LargeEqualTrace4(d: seq<int>, x: int)
    requires IsLarge(d) && x == 8
    ensures var e0 := d; var e1 := e0[21 := x]; var e2 := e1[20 := 1]; var e3 := e2; var e4 := e3[20 := x * 125];
      Run(Machine(e3, 22, false, x, 0), 4) == Run(Machine(e4, 26, false, x, 0), 3)
  {
    var e0 := d;
    var e1 := e0[21 := x];
    var e2 := e1[20 := 1];
    var e3 := e2;
    var e4 := e3[20 := x * 125];
    LargeEqualStep4(e3, x);
    RunStep(Machine(e3, 22, false, x, 0), Machine(e4, 26, false, x, 0), 4);
  }

  lemma LargeEqualTrace5(d: seq<int>, x: int)
    requires IsLarge(d) && x == 8
    ensures var e0 := d; var e1 := e0[21 := x]; var e2 := e1[20 := 1]; var e3 := e2; var e4 := e3[20 := x * 125]; var e5 := e4;
      Run(Machine(e4, 26, false, x, 0), 3) == Run(Machine(e5, 28, false, x, x * 125), 2)
  {
    var e0 := d;
    var e1 := e0[21 := x];
    var e2 := e1[20 := 1];
    var e3 := e2;
    var e4 := e3[20 := x * 125];
    var e5 := e4;
    LargeEqualStep5(e4, x);
    RunStep(Machine(e4, 26, false, x, 0), Machine(e5, 28, false, x, x * 125), 3);
  }

  lemma LargeEqualTrace6(d: seq<int>, x: int)
    requires IsLarge(d) && x == 8
    ensures var e0 := d; var e1 := e0[21 := x]; var e2 := e1[20 := 1]; var e3 := e2; var e4 := e3[20 := x * 125]; var e5 := e4; var e6 := e5;
      Run(Machine(e5, 28, false, x, x * 125), 2) == Run(Machine(e6, 46, false, x, x * 125), 1)
  {
    var e0 := d;
    var e1 := e0[21 := x];
    var e2 := e1[20 := 1];
    var e3 := e2;
    var e4 := e3[20 := x * 125];
    var e5 := e4;
    var e6 := e5;
    LargeEqualStep6(e5, x);
    RunStep(Machine(e5, 28, false, x, x * 125), Machine(e6, 46, false, x, x * 125), 2);
  }

  lemma LargeEqualTrace7(d: seq<int>, x: int)
    requires IsLarge(d) && x == 8
    ensures var e0 := d; var e1 := e0[21 := x]; var e2 := e1[20 := 1]; var e3 := e2; var e4 := e3[20 := x * 125]; var e5 := e4; var e6 := e5;
      Run(Machine(e6, 46, false, x, x * 125), 1) == Success(Machine(e6, 47, true, x, x * 125))
  {
    var e0 := d;
    var e1 := e0[21 := x];
    var e2 := e1[20 := 1];
    var e3 := e2;
    var e4 := e3[20 := x * 125];
    var e5 := e4;
    var e6 := e5;
    DoneStops(Machine(e6, 46, false, x, x * 125), 1);
  }

  lemma LargeEqualRun(d: seq<int>, x: int, fuel: nat)
    requires IsLarge(d) && x == 8 && fuel >= 7
    ensures var r := Run(Machine(d, 0, false, x, 0), fuel);
      r.Success? && r.value.output == x * 125
  {
    LargeEqualTrace1(d, x);
    LargeEqualTrace2(d, x);
    LargeEqualTrace3(d, x);
    LargeEqualTrace4(d, x);
    LargeEqualTrace5(d, x);
    LargeEqualTrace6(d, x);
    LargeEqualTrace7(d, x);
    RunMoreFuel(Machine(d, 0, false, x, 0), 7, fuel);
  }

  lemma LargeAboveStep1(e: seq<int>, x: int)
    requires |e| == 47 && e[0] == 3 && e[1] == 21
    ensures Step(Machine(e, 0, false, x, 0)) == Success(Machine(e[21 := x], 2, false, x, 0))
  {
    assert ParseInstruction(3) == (3, false, false);
    StepInputOutput(Machine(e, 0, false, x, 0), 3, false, false);
  }

  lemma LargeAboveStep2(e: seq<int>, x: int)
    requires |e| == 47 && e[2] == 1008 && e[3] == 21 && e[4] == 8 && e[5] == 20 && e[21] == x && InI64(x) && (x < 0 || 8 < x)
    ensures Step(Machine(e, 2, false, x, 0)) == Success(Machine(e[20 := 0], 6, false, x, 0))
  {
    assert ParseInstruction(1008) == (8, false, true);
    StepCompare(Machine(e, 2, false, x, 0), 8, false, true);
  }

  lemma LargeAboveStep3(e: seq<int>, x: int)
    requires |e| == 47 && e[6] == 1005 && e[7] == 20 && e[8] == 22 && e[20] == 0
    ensures Step(Machine(e, 6, false, x, 0)) == Success(Machine(e, 9, false, x, 0))
  {
    assert ParseInstruction(1005) == (5, false, true);
    StepJump(Machine(e, 6, false, x, 0), 5, false, true);
  }

  lemma LargeAboveStep4(e: seq<int>, x: int)
    requires |e| == 47 && e[9] == 107 && e[10] == 8 && e[11] == 21 && e[12] == 20 && e[21] == x && InI64(x) && (x < 0 || 8 < x)
    ensures Step(Machine(e, 9, false, x, 0)) == Success(Machine(e[20 := 1], 13, false, x, 0))
  {
    assert 8 < AsUsize(x);
    assert ParseInstruction(107) == (7, true, false);
    StepCompare(Machine(e, 9, false, x, 0), 7, true, false);
  }

  lemma LargeAboveStep5(e: seq<int>, x: int)
    requires |e| == 47 && e[13] == 1006 && e[14] == 20 && e[15] == 31 && e[20] == 1
    ensures Step(Machine(e, 13, false, x, 0)) == Success(Machine(e, 16, false, x, 0))
  {
    assert ParseInstruction(1006) == (6, false, true);
    StepJump(Machine(e, 13, false, x, 0), 6, false, true);
  }

  lemma LargeAboveStep6(e: seq<int>, x: int)
    requires |e| == 47 && e[16] == 1106 && e[17] == 0 && e[18] == 36
    ensures Step(Machine(e, 16, false, x, 0)) == Success(Machine(e, 36, false, x, 0))
  {
    assert ParseInstruction(1106) == (6, true, true);
    StepJump(Machine(e, 16, false, x, 0), 6, true, true);
  }

  lemma LargeAboveStep7(e: seq<int>, x: int)
    requires |e| == 47 && e[36] == 1101 && e[37] == 1000 && e[38] == 1 && e[39] == 20
    ensures Step(Machine(e, 36, false, x, 0)) == Success(Machine(e[20 := 1001], 40, false, x, 0))
  {
    assert ParseInstruction(1101) == (1, true, true);
    StepArithmetic(Machine(e, 36, false, x, 0), 1, true, true);
  }

  lemma LargeAboveStep8(e: seq<int>, x: int)
    requires |e| == 47 && e[40] == 4 && e[41] == 20 && e[20] == 1001
    ensures Step(Machine(e, 40, false, x, 0)) == Success(Machine(e, 42, false, x, 1001))
  {
    assert ParseInstruction(4) == (4, false, false);
    StepInputOutput(Machine(e, 40, false, x, 0), 4, false, false);
  }

  lemma LargeAboveStep9(e: seq<int>, x: int)
    requires |e| == 47 && e[42] == 1105 && e[43] == 1 && e[44] == 46
    ensures Step(Machine(e, 42, false, x, 1001)) == Success(Machine(e, 46, false, x, 1001))
  {
    assert ParseInstruction(1105) == (5, true, true);
    StepJump(Machine(e, 42, false, x, 1001), 5, true, true);
  }

  lemma LargeAboveTrace1(d: seq<int>, x: int)
    requires IsLarge(d) && InI64(x) && (x < 0 || 8 < x)
    ensures var e0 := d; var e1 := e0[21 := x];
      Run(Machine(e0, 0, false, x, 0), 10) == Run(Machine(e1, 2, false, x, 0), 9)
  {
    var e0 := d;
    var e1 := e0[21 := x];
    LargeAboveStep1(e0, x);
    RunStep(Machine(e0, 0, false, x, 0), Machine(e1, 2, false, x, 0), 10);
  }

  lemma LargeAboveTrace2(d: seq<int>, x: int)
    requires IsLarge(d) && InI64(x) && (x < 0 || 8 < x)
    ensures var e0 := d; var e1 := e0[21 := x]; var e2 := e1[20 := 0];
      Run(Machine(e1, 2, false, x, 0), 9) == Run(Machine(e2, 6, false, x, 0), 8)
  {
    var e0 := d;
    var e1 := e0[21 := x];
    var e2 := e1[20 := 0];
    LargeAboveStep2(e1, x);
    RunStep(Machine(e1, 2, false, x, 0), Machine(e2, 6, false, x, 0), 9);
  }

  lemma LargeAboveTrace3(d: seq<int>, x: int)
    requires IsLarge(d) && InI64(x) && (x < 0 || 8 < x)
    ensures var e0 := d; var e1 := e0[21 := x]; var e2 := e1[20 := 0]; var e3 := e2;
      Run(Machine(e2, 6, false, x, 0), 8) == Run(Machine(e3, 9, false, x, 0), 7)
  {
    var e0 := d;
    var e1 := e0[21 := x];
    var e2 := e1[20 := 0];
    var e3 := e2;
    LargeAboveStep3(e2, x);
    RunStep(Machine(e2, 6, false, x, 0), Machine(e3, 9, false, x, 0), 8);
  }

  lemma LargeAboveTrace4(d: seq<int>, x: int)
    requires IsLarge(d) && InI64(x) && (x < 0 || 8 < x)
    ensures var e0 := d; var e1 := e0[21 := x]; var e2 := e1[20 := 0]; var e3 := e2; var e4 := e3[20 := 1];
      Run(Machine(e3, 9, false, x, 0), 7) == Run(Machine(e4, 13, false, x, 0), 6)
  {
    var e0 := d;
    var e1 := e0[21 := x];
    var e2 := e1[20 := 0];
    var e3 := e2;
    var e4 := e3[20 := 1];
    LargeAboveStep4(e3, x);
    RunStep(Machine(e3, 9, false, x, 0), Machine(e4, 13, false, x, 0), 7);
  }

  lemma LargeAboveTrace5(d: seq<int>, x: int)
    requires IsLarge(d) && InI64(x) && (x < 0 || 8 < x)
    ensures var e0 := d; var e1 := e0[21 := x]; var e2 := e1[20 := 0]; var e3 := e2; var e4 := e3[20 := 1]; var e5 := e4;
      Run(Machine(e4, 13, false, x, 0), 6) == Run(Machine(e5, 16, false, x, 0), 5)
  {
    var e0 := d;
    var e1 := e0[21 := x];
    var e2 := e1[20 := 0];
    var e3 := e2;
    var e4 := e3[20 := 1];
    var e5 := e4;
    LargeAboveStep5(e4, x);
    RunStep(Machine(e4, 13, false, x, 0), Machine(e5, 16, false, x, 0), 6);
  }

  lemma LargeAboveTrace6(d: seq<int>, x: int)
    requires IsLarge(d) && InI64(x) && (x < 0 || 8 < x)
    ensures var e0 := d; var e1 := e0[21 := x]; var e2 := e1[20 := 0]; var e3 := e2; var e4 := e3[20 := 1]; var e5 := e4; var e6 := e5;
      Run(Machine(e5, 16, false, x, 0), 5) == Run(Machine(e6, 36, false, x, 0), 4)
  {
    var e0 := d;
    var e1 := e0[21 := x];
    var e2 := e1[20 := 0];
    var e3 := e2;
    var e4 := e3[20 := 1];
    var e5 := e4;
    var e6 := e5;
    LargeAboveStep6(e5, x);
    RunStep(Machine(e5, 16, false, x, 0), Machine(e6, 36, false, x, 0), 5);
  }

  lemma LargeAboveTrace7(d: seq<int>, x: int)
    requires IsLarge(d) && InI64(x) && (x < 0 || 8 < x)
    ensures var e0 := d; var e1 := e0[21 := x]; var e2 := e1[20 := 0]; var e3 := e2; var e4 := e3[20 := 1]; var e5 := e4; var e6 := e5; var e7 := e6[20 := 1001];
      Run(Machine(e6, 36, false, x, 0), 4) == Run(Machine(e7, 40, false, x, 0), 3)
  {
    var e0 := d;
    var e1 := e0[21 := x];
    var e2 := e1[20 := 0];
    var e3 := e2;
    var e4 := e3[20 := 1];
    var e5 := e4;
    var e6 := e5;
    var e7 := e6[20 := 1001];
    LargeAboveStep7(e6, x);
    RunStep(Machine(e6, 36, false, x, 0), Machine(e7, 40, false, x, 0), 4);
  }

  lemma LargeAboveTrace8(d: seq<int>, x: int)
    requires IsLarge(d) && InI64(x) && (x < 0 || 8 < x)
    ensures var e0 := d; var e1 := e0[21 := x]; var e2 := e1[20 := 0]; var e3 := e2; var e4 := e3[20 := 1]; var e5 := e4; var e6 := e5; var e7 := e6[20 := 1001]; var e8 := e7;
      Run(Machine(e7, 40, false, x, 0), 3) == Run(Machine(e8, 42, false, x, 1001), 2)
  {
    var e0 := d;
    var e1 := e0[21 := x];
    var e2 := e1[20 := 0];
    var e3 := e2;
    var e4 := e3[20 := 1];
    var e5 := e4;
    var e6 := e5;
    var e7 := e6[20 := 1001];
    var e8 := e7;
    LargeAboveStep8(e7, x);
    RunStep(Machine(e7, 40, false, x, 0), Machine(e8, 42, false, x, 1001), 3);
  }

  lemma LargeAboveTrace9(d: seq<int>, x: int)
    requires IsLarge(d) && InI64(x) && (x < 0 || 8 < x)
    ensures var e0 := d; var e1 := e0[21 := x]; var e2 := e1[20 := 0]; var e3 := e2; var e4 := e3[20 := 1]; var e5 := e4; var e6 := e5; var e7 := e6[20 := 1001]; var e8 := e7; var e9 := e8;
      Run(Machine(e8, 42, false, x, 1001), 2) == Run(Machine(e9, 46, false, x, 1001), 1)
  {
    var e0 := d;
    var e1 := e0[21 := x];
    var e2 := e1[20 := 0];
    var e3 := e2;
    var e4 := e3[20 := 1];
    var e5 := e4;
    var e6 := e5;
    var e7 := e6[20 := 1001];
    var e8 := e7;
    var e9 := e8;
    LargeAboveStep9(e8, x);
    RunStep(Machine(e8, 42, false, x, 1001), Machine(e9, 46, false, x, 1001), 2);
  }

  lemma LargeAboveTrace10(d: seq<int>, x: int)
    requires IsLarge(d) && InI64(x) && (x < 0 || 8 < x)
    ensures var e0 := d; var e1 := e0[21 := x]; var e2 := e1[20 := 0]; var e3 := e2; var e4 := e3[20 := 1]; var e5 := e4; var e6 := e5; var e7 := e6[20 := 1001]; var e8 := e7; var e9 := e8;
      Run(Machine(e9, 46, false, x, 1001), 1) == Success(Machine(e9, 47, true, x, 1001))
  {
    var e0 := d;
    var e1 := e0[21 := x];
    var e2 := e1[20 := 0];
    var e3 := e2;
    var e4 := e3[20 := 1];
    var e5 := e4;
    var e6 := e5;
    var e7 := e6[20 := 1001];
    var e8 := e7;
    var e9 := e8;
    DoneStops(Machine(e9, 46, false, x, 1001), 1);
  }

  lemma LargeAboveRun(d: seq<int>, x: int, fuel: nat)
    requires IsLarge(d) && InI64(x) && (x < 0 || 8 < x) && fuel >= 10
    ensures var r := Run(Machine(d, 0, false, x, 0), fuel);
      r.Success? && r.value.output == 1001
  {
    LargeAboveTrace1(d, x);
    LargeAboveTrace2(d, x);
    LargeAboveTrace3(d, x);
    LargeAboveTrace4(d, x);
    LargeAboveTrace5(d, x);
    LargeAboveTrace6(d, x);
    LargeAboveTrace7(d, x);
    LargeAboveTrace8(d, x);
    LargeAboveTrace9(d, x);
    LargeAboveTrace10(d, x);
    RunMoreFuel(Machine(d, 0, false, x, 0), 10, fuel);
  }

  /** The larger example: 999 below 8, 1000 at 8, 1001 above 8. Through the cast to `usize` a negative input also gives 1001. */
  lemma LargeOutput(d: seq<int>, x: int, fuel: nat)
    requires IsLarge(d) && InI64(x) && fuel >= 10
    ensures var r := Run(Machine(d, 0, false, x, 0), fuel);
      r.Success? && r.value.output == (if 0 <= x < 8 then 999 else if x == 8 then 1000 else 1001)
  {
    if 0 <= x < 8 {
      LargeBelowRun(d, x, fuel);
    } else if x == 8 {
      LargeEqualRun(d, x, fuel);
    } else if InI64(x) && (x < 0 || 8 < x) {
      LargeAboveRun(d, x, fuel);
    }
  }

  /** The cases of `test_large_example`. */
  lemma LargeCases(fuel: nat)
    requires fuel >= 10
    ensures Run(Machine(LargeProgram, 0, false, 7, 0), fuel).Success?
    ensures Run(Machine(LargeProgram, 0, false, 7, 0), fuel).value.output == 999
    ensures Run(Machine(LargeProgram, 0, false, 8, 0), fuel).Success?
    ensures Run(Machine(LargeProgram, 0, false, 8, 0), fuel).value.output == 1000
    ensures Run(Machine(LargeProgram, 0, false, 9, 0), fuel).Success?
    ensures Run(Machine(LargeProgram, 0, false, 9, 0), fuel).value.output == 1001
  {
    assert IsLarge(LargeProgram);
    LargeOutput(LargeProgram, 7, fuel);
    LargeOutput(LargeProgram, 8, fuel);
    LargeOutput(LargeProgram, 9, fuel);
  }
}
