/** The IntCode machine of the diagnostic puzzle: the same nine opcodes as the
    amplifier machine, but one scalar input that every Save rewrites, one
    scalar output that every Load overwrites, jumps to the literal target
    whatever its mode digit, and comparisons of operands cast to `usize`. */
module IntCodeDay5 {
  import opened Common

  /** A decoded instruction. Arithmetic operands keep their i64 value; every
      other operand holds the value after `as usize`. */
  datatype OpCode =
    | Add(inputA: int, immediateA: bool, inputB: int, immediateB: bool, output: int)
    | Multiply(inputA: int, immediateA: bool, inputB: int, immediateB: bool, output: int)
    | Save(address: nat)
    | Load(immediateLoad: bool, address: nat)
    | JumpIfTrue(comparison: nat, immediateCmp: bool, address: nat)
    | JumpIfFalse(comparison: nat, immediateCmp: bool, address: nat)
    | LessThan(comparisonA: nat, immediateA: bool, comparisonB: nat, immediateB: bool, result: nat)
    | Equals(comparisonA: nat, immediateA: bool, comparisonB: nat, immediateB: bool, result: nat)
    | Done

  /** The state of an `IntCode` struct, as a value. */
  datatype Machine = Machine(data: seq<int>, cursor: nat, finished: bool, input: int, output: int)
  {
    /** `parsable`: not halted and the cursor still inside memory. */
    predicate Parsable()
    {
      !finished && cursor < |data|
    }
  }

  /** `OpCode::try_from`: build the instruction from its window. Indexing past
      the end of the window panics, as does an opcode without an arm. */
  function TryFrom(value: seq<int>): Result<OpCode, Fault>
  {
    if |value| == 0 then Failure(OutOfBounds)
    else
      var (code, a, b) := ParseInstruction(value[0]);
      match code
      case 1 =>
        if |value| < 4 then Failure(OutOfBounds)
        else Success(Add(value[1], a, value[2], b, value[3]))
      case 2 =>
        if |value| < 4 then Failure(OutOfBounds)
        else Success(Multiply(value[1], a, value[2], b, value[3]))
      case 3 =>
        if |value| < 2 then Failure(OutOfBounds) else Success(Save(AsUsize(value[1])))
      case 4 =>
        if |value| < 2 then Failure(OutOfBounds) else Success(Load(a, AsUsize(value[1])))
      case 5 =>
        if |value| < 3 then Failure(OutOfBounds)
        else Success(JumpIfTrue(AsUsize(value[1]), a, AsUsize(value[2])))
      case 6 =>
        if |value| < 3 then Failure(OutOfBounds)
        else Success(JumpIfFalse(AsUsize(value[1]), a, AsUsize(value[2])))
      case 7 =>
        if |value| < 4 then Failure(OutOfBounds)
        else Success(LessThan(AsUsize(value[1]), a, AsUsize(value[2]), b, AsUsize(value[3])))
      case 8 =>
        if |value| < 4 then Failure(OutOfBounds)
        else Success(Equals(AsUsize(value[1]), a, AsUsize(value[2]), b, AsUsize(value[3])))
      case 9 => Success(Done)
      case _ => Failure(UnknownOpcode)
  }

  /** The window `get_instructions` takes, and the cursor it leaves behind:
      (window, new cursor). Unlike the amplifier machine, a 9 moves the cursor on by one. */
  function Fetch(data: seq<int>, cursor: nat): Result<(seq<int>, nat), Fault>
  {
    if cursor >= |data| then Failure(OutOfBounds)
    else
      match TruncRem(data[cursor], 10)
      case 1 | 2 | 7 | 8 =>
        if cursor + 3 < |data| then Success((data[cursor..cursor + 4], cursor + 4)) else Failure(OutOfBounds)
      case 5 | 6 =>
        if cursor + 2 < |data| then Success((data[cursor..cursor + 3], cursor + 3)) else Failure(OutOfBounds)
      case 3 | 4 =>
        if cursor + 1 < |data| then Success((data[cursor..cursor + 2], cursor + 2)) else Failure(OutOfBounds)
      case 9 => Success((data[cursor..cursor + 1], cursor + 1))
      case _ => Failure(UnknownOpcode)
  }

  /** Window width and cursor advance of `get_instructions`, by last digit:
      4 for 1, 2, 7, 8; 3 for 5, 6; 2 for 3, 4; 1 for 9; a panic for any other
      digit (0, or a negative word). */
  lemma FetchWidths(data: seq<int>, cursor: nat)
    requires cursor < |data|
    ensures var d := TruncRem(data[cursor], 10);
      && (d in {1, 2, 7, 8} && cursor + 4 <= |data| ==> Fetch(data, cursor) == Success((data[cursor..cursor + 4], cursor + 4)))
      && (d in {5, 6} && cursor + 3 <= |data| ==> Fetch(data, cursor) == Success((data[cursor..cursor + 3], cursor + 3)))
      && (d in {3, 4} && cursor + 2 <= |data| ==> Fetch(data, cursor) == Success((data[cursor..cursor + 2], cursor + 2)))
      && (d == 9 ==> Fetch(data, cursor) == Success(([data[cursor]], cursor + 1)))
      && (d !in {1, 2, 3, 4, 5, 6, 7, 8, 9} ==> Fetch(data, cursor) == Failure(UnknownOpcode))
  {
    assert data[cursor..cursor + 1] == [data[cursor]];
  }

  /** The window `get_instructions` cuts is always wide enough for `try_from`,
      and both use the same last digit, so the `unwrap` of `parse` never fails. */
  lemma FetchThenDecode(data: seq<int>, cursor: nat)
    requires Fetch(data, cursor).Success?
    ensures TryFrom(Fetch(data, cursor).value.0).Success?
    ensures var d := TruncRem(data[cursor], 10);
            var op := TryFrom(Fetch(data, cursor).value.0).value;
      && (d == 1 <==> op.Add?) && (d == 2 <==> op.Multiply?) && (d == 3 <==> op.Save?)
      && (d == 4 <==> op.Load?) && (d == 5 <==> op.JumpIfTrue?) && (d == 6 <==> op.JumpIfFalse?)
      && (d == 7 <==> op.LessThan?) && (d == 8 <==> op.Equals?) && (d == 9 <==> op.Done?)
  {
  }

  /** An arithmetic operand: the literal in immediate mode, else the cell it
      names after `as usize` (a panic when that is outside memory). */
  function Resolve(data: seq<int>, operand: int, immediate: bool): Result<int, Fault>
  {
    if immediate then Success(operand)
    else if AsUsize(operand) < |data| then Success(data[AsUsize(operand)])
    else Failure(OutOfBounds)
  }

  /** A jump condition: the `usize` literal, or the i64 cell it names. */
  function Condition(data: seq<int>, comparison: nat, immediate: bool): Result<int, Fault>
  {
    if immediate then Success(comparison)
    else if comparison < |data| then Success(data[comparison])
    else Failure(OutOfBounds)
  }

  /** A comparison operand: the `usize` literal, or the cell it names cast to `usize`. */
  function Unsigned(data: seq<int>, comparison: nat, immediate: bool): Result<nat, Fault>
  {
    if immediate then Success(comparison)
    else if comparison < |data| then Success(AsUsize(data[comparison]))
    else Failure(OutOfBounds)
  }

  /** `data[address] = value`, which panics outside memory. */
  function Store(data: seq<int>, address: nat, value: int): Result<seq<int>, Fault>
  {
    if address < |data| then Success(data[address := value]) else Failure(OutOfBounds)
  }

  /** The effect of one decoded instruction on a machine whose cursor
      `get_instructions` has already advanced (the match in `parse`). */
  function Exec(op: OpCode, m: Machine): Result<Machine, Fault>
  {
    match op
    case Done => Success(m.(finished := true))
    case Add(inputA, immediateA, inputB, immediateB, output) =>
      var a :- Resolve(m.data, inputA, immediateA);
      var b :- Resolve(m.data, inputB, immediateB);
      var data :- Store(m.data, AsUsize(output), a + b);
      Success(m.(data := data))
    case Multiply(inputA, immediateA, inputB, immediateB, output) =>
      var a :- Resolve(m.data, inputA, immediateA);
      var b :- Resolve(m.data, inputB, immediateB);
      var data :- Store(m.data, AsUsize(output), a * b);
      Success(m.(data := data))
    case Save(address) =>
      var data :- Store(m.data, address, m.input);
      Success(m.(data := data))
    case Load(immediateLoad, address) =>
      if immediateLoad then Success(m.(output := UsizeAsI64(address)))
      else if address < |m.data| then Success(m.(output := m.data[address]))
      else Failure(OutOfBounds)
    case JumpIfTrue(comparison, immediateCmp, address) =>
      var c :- Condition(m.data, comparison, immediateCmp);
      Success(if c != 0 then m.(cursor := address) else m)
    case JumpIfFalse(comparison, immediateCmp, address) =>
      var c :- Condition(m.data, comparison, immediateCmp);
      Success(if c == 0 then m.(cursor := address) else m)
    case LessThan(comparisonA, immediateA, comparisonB, immediateB, result) =>
      var a :- Unsigned(m.data, comparisonA, immediateA);
      var b :- Unsigned(m.data, comparisonB, immediateB);
      var data :- Store(m.data, result, if a < b then 1 else 0);
      Success(m.(data := data))
    case Equals(comparisonA, immediateA, comparisonB, immediateB, result) =>
      var a :- Unsigned(m.data, comparisonA, immediateA);
      var b :- Unsigned(m.data, comparisonB, immediateB);
      var data :- Store(m.data, result, if a == b then 1 else 0);
      Success(m.(data := data))
  }

  /** One call of `parse`: fetch the window, decode it, execute it. */
  function Step(m: Machine): Result<Machine, Fault>
  {
    var fetched :- Fetch(m.data, m.cursor);
    var op :- TryFrom(fetched.0);
    Exec(op, m.(cursor := fetched.1))
  }

  /** `execute` with a bound on the number of `parse` calls. */
  function Run(m: Machine, fuel: nat): Result<Machine, Fault>
  {
    Iterate(Step, (n: Machine) => n.Parsable(), m, fuel)
  }

  /** Add and Multiply store the sum or product of the resolved operands in
      `data[output as usize]` and touch nothing else; they fail only on an
      index outside memory. */
  lemma ExecArithmetic(op: OpCode, m: Machine)
    requires op.Add? || op.Multiply?
    ensures var a := Resolve(m.data, op.inputA, op.immediateA);
            var b := Resolve(m.data, op.inputB, op.immediateB);
            var target := AsUsize(op.output);
      && (Exec(op, m).Success? <==> a.Success? && b.Success? && target < |m.data|)
      && (Exec(op, m).Success? ==>
            var n := Exec(op, m).value;
            && |n.data| == |m.data|
            && n.data[target] == (if op.Add? then a.value + b.value else a.value * b.value)
            && (forall i :: 0 <= i < |m.data| && i != target ==> n.data[i] == m.data[i])
            && n.cursor == m.cursor && n.finished == m.finished
            && n.input == m.input && n.output == m.output)
  {
  }

  /** LessThan and Equals compare their operands as `usize` values and store
      exactly 1 when the relation holds and 0 otherwise, touching nothing else;
      they panic out of bounds exactly when a position-mode operand or the
      result address is outside memory. */
  lemma ExecCompare(op: OpCode, m: Machine)
    requires op.LessThan? || op.Equals?
    ensures var a := Unsigned(m.data, op.comparisonA, op.immediateA);
            var b := Unsigned(m.data, op.comparisonB, op.immediateB);
      && (Exec(op, m).Success? <==> a.Success? && b.Success? && op.result < |m.data|)
      && (Exec(op, m).Failure? ==> Exec(op, m).error == OutOfBounds)
      && (Exec(op, m).Success? ==>
            var n := Exec(op, m).value;
            && |n.data| == |m.data|
            && (n.data[op.result] == 0 || n.data[op.result] == 1)
            && (n.data[op.result] == 1 <==> if op.LessThan? then a.value < b.value else a.value == b.value)
            && (forall i :: 0 <= i < |m.data| && i != op.result ==> n.data[i] == m.data[i])
            && n.cursor == m.cursor && n.finished == m.finished
            && n.input == m.input && n.output == m.output)
  {
  }

  /** For i64 values the cast to `usize` keeps equality, so Equals agrees with
      signed equality. */
  lemma UnsignedEquality(x: int, y: int)
    requires InI64(x) && InI64(y)
    ensures AsUsize(x) == AsUsize(y) <==> x == y
  {
    UsizeRoundTripI64(x);
    UsizeRoundTripI64(y);
  }

  /** But the cast breaks `<` once a negative value is involved: a negative
      i64 compares greater than every non-negative one. */
  lemma UnsignedLessThan(x: int, y: int)
    requires InI64(x) && InI64(y)
    ensures 0 <= x && 0 <= y ==> (AsUsize(x) < AsUsize(y) <==> x < y)
    ensures x < 0 <= y ==> AsUsize(y) < AsUsize(x)
    ensures x < 0 && y < 0 ==> (AsUsize(x) < AsUsize(y) <==> x < y)
  {
  }

  /** Save writes the same scalar input every time and never consumes it. */
  lemma ExecSave(address: nat, m: Machine)
    ensures address < |m.data| ==> Exec(Save(address), m) == Success(m.(data := m.data[address := m.input]))
    ensures address >= |m.data| ==> Exec(Save(address), m) == Failure(OutOfBounds)
  {
  }

  /** Load replaces the output: with the literal operand in immediate mode (the
      i64 it was decoded from), else with the memory cell. */
  lemma ExecLoad(immediateLoad: bool, literal: int, m: Machine)
    requires InI64(literal)
    ensures var n := Exec(Load(immediateLoad, AsUsize(literal)), m);
      && (immediateLoad ==> n == Success(m.(output := literal)))
      && (!immediateLoad && 0 <= literal < |m.data| ==> n == Success(m.(output := m.data[literal])))
      && (!immediateLoad && AsUsize(literal) >= |m.data| ==> n == Failure(OutOfBounds))
  {
    UsizeRoundTripI64(literal);
  }

  /** A jump resolves its condition by its mode digit, but a taken jump always
      moves the cursor to the literal target; an untaken one leaves the cursor
      where `get_instructions` put it. */
  lemma ExecJump(op: OpCode, m: Machine)
    requires op.JumpIfTrue? || op.JumpIfFalse?
    ensures var c := Condition(m.data, op.comparison, op.immediateCmp);
      && (c.Failure? <==> Exec(op, m).Failure?)
      && (c.Success? ==>
            var taken := if op.JumpIfTrue? then c.value != 0 else c.value == 0;
            Exec(op, m) == Success(if taken then m.(cursor := op.address) else m))
  {
  }

  /** Done sets `finished` and moves the cursor past the 9, after which no
      instruction runs: the run ends there with that state. */
  lemma DoneStops(m: Machine, fuel: nat)
    requires m.Parsable() && TruncRem(m.data[m.cursor], 10) == 9
    ensures Step(m) == Success(m.(cursor := m.cursor + 1, finished := true))
    ensures fuel > 0 ==> Run(m, fuel) == Success(m.(cursor := m.cursor + 1, finished := true))
  {
    var halted := m.(cursor := m.cursor + 1, finished := true);
    assert m.data[m.cursor..m.cursor + 1] == [m.data[m.cursor]];
    assert Step(m) == Success(halted);
    if fuel > 0 {
      assert Run(halted, fuel - 1) == Success(halted);
    }
  }

  /** `parse` on an Add or Multiply word: the three operands are the cells
      after the word, and the cursor moves past all four. */
  lemma StepArithmetic(m: Machine, code: int, modeA: bool, modeB: bool)
    requires !m.finished && m.cursor + 3 < |m.data|
    requires ParseInstruction(m.data[m.cursor]) == (code, modeA, modeB) && (code == 1 || code == 2)
    ensures var c := m.cursor; var d := m.data;
      Step(m) == Exec(if code == 1 then Add(d[c + 1], modeA, d[c + 2], modeB, d[c + 3])
                      else Multiply(d[c + 1], modeA, d[c + 2], modeB, d[c + 3]), m.(cursor := c + 4))
  {
  }

  /** `parse` on a LessThan or Equals word. */
  lemma StepCompare(m: Machine, code: int, modeA: bool, modeB: bool)
    requires !m.finished && m.cursor + 3 < |m.data|
    requires ParseInstruction(m.data[m.cursor]) == (code, modeA, modeB) && (code == 7 || code == 8)
    ensures var c := m.cursor; var d := m.data;
      Step(m) == Exec(if code == 7 then LessThan(AsUsize(d[c + 1]), modeA, AsUsize(d[c + 2]), modeB, AsUsize(d[c + 3]))
                      else Equals(AsUsize(d[c + 1]), modeA, AsUsize(d[c + 2]), modeB, AsUsize(d[c + 3])), m.(cursor := c + 4))
  {
  }

  /** `parse` on a Save or Load word: one operand, cursor +2. */
  lemma StepInputOutput(m: Machine, code: int, modeA: bool, modeB: bool)
    requires !m.finished && m.cursor + 1 < |m.data|
    requires ParseInstruction(m.data[m.cursor]) == (code, modeA, modeB) && (code == 3 || code == 4)
    ensures var c := m.cursor; var d := m.data;
      Step(m) == Exec(if code == 3 then Save(AsUsize(d[c + 1])) else Load(modeA, AsUsize(d[c + 1])), m.(cursor := c + 2))
  {
  }

  /** `parse` on a jump word: two operands, cursor +3 unless the jump is taken. */
  lemma StepJump(m: Machine, code: int, modeA: bool, modeB: bool)
    requires !m.finished && m.cursor + 2 < |m.data|
    requires ParseInstruction(m.data[m.cursor]) == (code, modeA, modeB) && (code == 5 || code == 6)
    ensures var c := m.cursor; var d := m.data;
      Step(m) == Exec(if code == 5 then JumpIfTrue(AsUsize(d[c + 1]), modeA, AsUsize(d[c + 2]))
                      else JumpIfFalse(AsUsize(d[c + 1]), modeA, AsUsize(d[c + 2])), m.(cursor := c + 3))
  {
  }

  /** Executing an instruction never changes the size of memory nor the input,
      and only Load changes the output. */
  lemma ExecFrame(op: OpCode, m: Machine)
    requires Exec(op, m).Success?
    ensures var n := Exec(op, m).value;
      && |n.data| == |m.data| && n.input == m.input
      && (!op.Load? ==> n.output == m.output)
  {
    match op
    case Add(_, _, _, _, _) => ExecArithmetic(op, m);
    case Multiply(_, _, _, _, _) => ExecArithmetic(op, m);
    case LessThan(_, _, _, _, _) => ExecCompare(op, m);
    case Equals(_, _, _, _, _) => ExecCompare(op, m);
    case _ =>
  }

  /** Hence a step keeps the size of memory and the input. */
  lemma StepFrame(m: Machine)
    requires Step(m).Success?
    ensures |Step(m).value.data| == |m.data| && Step(m).value.input == m.input
  {
    var fetched := Fetch(m.data, m.cursor).value;
    ExecFrame(TryFrom(fetched.0).value, m.(cursor := fetched.1));
  }

  /** A completed run ends on a machine that is no longer parsable, with
      memory of the same size and the same input. */
  lemma {:induction false} RunResult(m: Machine, fuel: nat)
    requires Run(m, fuel).Success?
    ensures var n := Run(m, fuel).value;
      !n.Parsable() && |n.data| == |m.data| && n.input == m.input
    decreases fuel
  {
    if m.Parsable() {
      StepFrame(m);
      RunResult(Step(m).value, fuel - 1);
    }
  }

  /** A run with more fuel that still completes gives the same result. */
  lemma RunMoreFuel(m: Machine, fuel: nat, more: nat)
    requires Run(m, fuel).Success? && fuel <= more
    ensures Run(m, more) == Run(m, fuel)
  {
    IterateMoreFuel(Step, (n: Machine) => n.Parsable(), m, fuel, more);
  }

  /** A successful step from a parsable machine uses one unit of fuel. */
  lemma RunStep(m: Machine, n: Machine, fuel: nat)
    requires m.Parsable() && Step(m) == Success(n) && fuel >= 1
    ensures Run(m, fuel) == Run(n, fuel - 1)
  {
  }

  /** The `IntCode` struct: memory, cursor, halt flag, scalar input and output. */
  class IntCode {
    var data: seq<int>
    var cursorPosition: nat
    var finished: bool
    var input: int
    var output: int

    function State(): Machine
      reads this
    {
      Machine(data, cursorPosition, finished, input, output)
    }

    /** `IntCode::new`: the given memory and input, cursor 0, not finished, output 0. */
    constructor (data: seq<int>, input: int)
      ensures State() == Machine(data, 0, false, input, 0)
    {
      this.data := data;
      this.cursorPosition := 0;
      this.finished := false;
      this.input := input;
      this.output := 0;
    }

    /** `parsable`. */
    predicate Parsable()
      reads this
      ensures Parsable() <==> State().Parsable()
    {
      !finished && cursorPosition < |data|
    }

    /** `get_instructions`: cut the window for the opcode digit at the cursor
        and advance the cursor past it. */
    method GetInstructions() returns (r: Result<seq<int>, Fault>)
      modifies this
      ensures data == old(data) && finished == old(finished)
      ensures input == old(input) && output == old(output)
      ensures Fetch(old(data), old(cursorPosition)).Success? ==>
                r == Success(Fetch(old(data), old(cursorPosition)).value.0)
                && cursorPosition == Fetch(old(data), old(cursorPosition)).value.1
      ensures Fetch(old(data), old(cursorPosition)).Failure? ==>
                r == Failure(Fetch(old(data), old(cursorPosition)).error)
    {
      if cursorPosition >= |data| {
        return Failure(OutOfBounds);
      }
      var instruction := TruncRem(data[cursorPosition], 10);
      if instruction == 1 || instruction == 2 || instruction == 7 || instruction == 8 {
        if cursorPosition + 3 >= |data| { return Failure(OutOfBounds); }
        r := Success(data[cursorPosition..cursorPosition + 4]);
        cursorPosition := cursorPosition + 4;
      } else if instruction == 5 || instruction == 6 {
        if cursorPosition + 2 >= |data| { return Failure(OutOfBounds); }
        r := Success(data[cursorPosition..cursorPosition + 3]);
        cursorPosition := cursorPosition + 3;
      } else if instruction == 3 || instruction == 4 {
        if cursorPosition + 1 >= |data| { return Failure(OutOfBounds); }
        r := Success(data[cursorPosition..cursorPosition + 2]);
        cursorPosition := cursorPosition + 2;
      } else if instruction == 9 {
        r := Success(data[cursorPosition..cursorPosition + 1]);
        cursorPosition := cursorPosition + 1;
      } else {
        r := Failure(UnknownOpcode);
      }
    }

    /** `parse`: fetch, decode and execute one instruction in place. */
    method Parse() returns (fault: Option<Fault>)
      modifies this
      ensures Step(old(State())).Success? ==> fault == None && State() == Step(old(State())).value
      ensures Step(old(State())).Failure? ==> fault == Some(Step(old(State())).error)
    {
      var instruction := GetInstructions();
      if instruction.Failure? {
        return Some(instruction.error);
      }
      var opCode := TryFrom(instruction.value);
      if opCode.Failure? {
        return Some(opCode.error);
      }
      fault := Apply(opCode.value);
    }

    /** The match of `parse`: carry out one decoded instruction in place. */
    method Apply(op: OpCode) returns (fault: Option<Fault>)
      modifies this
      ensures Exec(op, old(State())).Success? ==> fault == None && State() == Exec(op, old(State())).value
      ensures Exec(op, old(State())).Failure? ==> fault == Some(Exec(op, old(State())).error)
    {
      fault := None;
      match op
      case Done =>
        finished := true;
      case Add(inputA, immediateA, inputB, immediateB, out) =>
        var a := Resolve(data, inputA, immediateA);
        if a.Failure? { return Some(a.error); }
        var b := Resolve(data, inputB, immediateB);
        if b.Failure? { return Some(b.error); }
        if AsUsize(out) >= |data| { return Some(OutOfBounds); }
        data := data[AsUsize(out) := a.value + b.value];
      case Multiply(inputA, immediateA, inputB, immediateB, out) =>
        var a := Resolve(data, inputA, immediateA);
        if a.Failure? { return Some(a.error); }
        var b := Resolve(data, inputB, immediateB);
        if b.Failure? { return Some(b.error); }
        if AsUsize(out) >= |data| { return Some(OutOfBounds); }
        data := data[AsUsize(out) := a.value * b.value];
      case Save(address) =>
        if address >= |data| { return Some(OutOfBounds); }
        data := data[address := input];
      case Load(immediateLoad, address) =>
        if immediateLoad {
          output := UsizeAsI64(address);
        } else {
          if address >= |data| { return Some(OutOfBounds); }
          output := data[address];
        }
      case JumpIfTrue(comparison, immediateCmp, address) =>
        var c := Condition(data, comparison, immediateCmp);
        if c.Failure? { return Some(c.error); }
        if c.value != 0 {
          cursorPosition := address;
        }
      case JumpIfFalse(comparison, immediateCmp, address) =>
        var c := Condition(data, comparison, immediateCmp);
        if c.Failure? { return Some(c.error); }
        if c.value == 0 {
          cursorPosition := address;
        }
      case LessThan(comparisonA, immediateA, comparisonB, immediateB, result) =>
        var a := Unsigned(data, comparisonA, immediateA);
        if a.Failure? { return Some(a.error); }
        var b := Unsigned(data, comparisonB, immediateB);
        if b.Failure? { return Some(b.error); }
        if result >= |data| { return Some(OutOfBounds); }
        data := data[result := if a.value < b.value then 1 else 0];
      case Equals(comparisonA, immediateA, comparisonB, immediateB, result) =>
        var a := Unsigned(data, comparisonA, immediateA);
        if a.Failure? { return Some(a.error); }
        var b := Unsigned(data, comparisonB, immediateB);
        if b.Failure? { return Some(b.error); }
        if result >= |data| { return Some(OutOfBounds); }
        data := data[result := if a.value == b.value then 1 else 0];
    }

    /** `execute`: call `parse` while the machine is parsable, for at most
        `fuel` calls. */
    method Execute(fuel: nat) returns (fault: Option<Fault>)
      modifies this
      ensures Run(old(State()), fuel).Success? ==> fault == None && State() == Run(old(State()), fuel).value
      ensures Run(old(State()), fuel).Failure? ==> fault == Some(Run(old(State()), fuel).error)
    {
      var steps := fuel;
      while Parsable()
        invariant Run(old(State()), fuel) == Run(State(), steps)
        decreases steps
      {
        if steps == 0 {
          return Some(FuelExhausted);
        }
        var f := Parse();
        if f.Some? {
          return f;
        }
        steps := steps - 1;
      }
      fault := None;
    }
  }
}
