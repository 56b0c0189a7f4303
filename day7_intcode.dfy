/** The IntCode machine of the amplifier puzzle: nine opcodes, per-operand
    position/immediate modes (jump targets included), a vector of inputs that
    is popped from the back, and a vector of outputs that is appended to. */
module IntCodeDay7 {
  import opened Common

  /** A decoded instruction; `usize` operands hold the value after `as usize`. */
  datatype OpCode =
    | Add(inputA: int, immediateA: bool, inputB: int, immediateB: bool, output: nat)
    | Multiply(inputA: int, immediateA: bool, inputB: int, immediateB: bool, output: nat)
    | Save(address: nat)
    | Load(immediateLoad: bool, address: nat)
    | JumpIfTrue(comparison: int, immediateCmp: bool, address: nat, immediateAdr: bool)
    | JumpIfFalse(comparison: int, immediateCmp: bool, address: nat, immediateAdr: bool)
    | LessThan(comparisonA: int, immediateA: bool, comparisonB: int, immediateB: bool, result: nat)
    | Equals(comparisonA: int, immediateA: bool, comparisonB: int, immediateB: bool, result: nat)
    | Done

  /** The state of an `IntCode` struct, as a value. */
  datatype Machine = Machine(data: seq<int>, cursor: nat, finished: bool, input: seq<int>, output: seq<int>)
  {
    /** `parsable`: not halted and the cursor still inside memory. */
    predicate Parsable()
    {
      !finished && cursor < |data|
    }
  }

  /** `OpCode::try_from`: build the instruction from its window. Indexing past
      the end of the window panics, as does an opcode without an arm. */
  function TryFrom(value: seq<int>): (r: Result<OpCode, Fault>)
  {
    if |value| == 0 then Failure(OutOfBounds)
    else
      var (code, a, b) := ParseInstruction(value[0]);
      match code
      case 1 =>
        if |value| < 4 then Failure(OutOfBounds)
        else Success(Add(value[1], a, value[2], b, AsUsize(value[3])))
      case 2 =>
        if |value| < 4 then Failure(OutOfBounds)
        else Success(Multiply(value[1], a, value[2], b, AsUsize(value[3])))
      case 3 =>
        if |value| < 2 then Failure(OutOfBounds) else Success(Save(AsUsize(value[1])))
      case 4 =>
        if |value| < 2 then Failure(OutOfBounds) else Success(Load(a, AsUsize(value[1])))
      case 5 =>
        if |value| < 3 then Failure(OutOfBounds)
        else Success(JumpIfTrue(value[1], a, AsUsize(value[2]), b))
      case 6 =>
        if |value| < 3 then Failure(OutOfBounds)
        else Success(JumpIfFalse(value[1], a, AsUsize(value[2]), b))
      case 7 =>
        if |value| < 4 then Failure(OutOfBounds)
        else Success(LessThan(value[1], a, value[2], b, AsUsize(value[3])))
      case 8 =>
        if |value| < 4 then Failure(OutOfBounds)
        else Success(Equals(value[1], a, value[2], b, AsUsize(value[3])))
      case 9 => Success(Done)
      case _ => Failure(UnknownOpcode)
  }

  /** The window `get_instructions` takes, and the cursor it leaves behind:
      (window, new cursor). */
  function Fetch(data: seq<int>, cursor: nat): Result<(seq<int>, nat), Fault>
  {
    if cursor >= |data| then Failure(OutOfBounds)
    else
      match TruncRem(data[cursor], 10)
      case 1 | 2 | 7 | 8 =>
        if cursor + 3 < |data| then Success((data[cursor..cursor + 4], cursor + 4)) else Failure(OutOfBounds)
      case 5 | 6 =>
        if cursor + 2 < |data| then Success((data[cursor..cursor + 3], cursor + 3)) else Failure(OutOfBounds)
      case 3 | 4 =>
        if cursor + 1 < |data| then Success((data[cursor..cursor + 2], cursor + 2)) else Failure(OutOfBounds)
      case 9 => Success((data[cursor..cursor + 1], cursor))
      case _ => Failure(UnknownOpcode)
  }

  /** Window width and cursor advance of `get_instructions`, by last digit:
      4/+4 for 1, 2, 7, 8; 3/+3 for 5, 6; 2/+2 for 3, 4; 1/+0 for 9; a panic
      for any other digit (0, or a negative word). */
  lemma FetchWidths(data: seq<int>, cursor: nat)
    requires cursor < |data|
    ensures var d := TruncRem(data[cursor], 10);
      && (d in {1, 2, 7, 8} && cursor + 4 <= |data| ==> Fetch(data, cursor) == Success((data[cursor..cursor + 4], cursor + 4)))
      && (d in {5, 6} && cursor + 3 <= |data| ==> Fetch(data, cursor) == Success((data[cursor..cursor + 3], cursor + 3)))
      && (d in {3, 4} && cursor + 2 <= |data| ==> Fetch(data, cursor) == Success((data[cursor..cursor + 2], cursor + 2)))
      && (d == 9 ==> Fetch(data, cursor) == Success(([data[cursor]], cursor)))
      && (d !in {1, 2, 3, 4, 5, 6, 7, 8, 9} ==> Fetch(data, cursor) == Failure(UnknownOpcode))
  {
    assert data[cursor..cursor + 1] == [data[cursor]];
  }

  /** The window `get_instructions` cuts is always wide enough for `try_from`,
      and both use the same last digit, so the `unwrap` of `parse` never fails:
      the decoded instruction's kind follows the opcode digit. */
  lemma FetchThenDecode(data: seq<int>, cursor: nat)
    requires Fetch(data, cursor).Success?
    ensures TryFrom(Fetch(data, cursor).value.0).Success?
    ensures var d := TruncRem(data[cursor], 10);
            var op := TryFrom(Fetch(data, cursor).value.0).value;
      && (d == 1 <==> op.Add?) && (d == 2 <==> op.Multiply?) && (d == 3 <==> op.Save?)
      && (d == 4 <==> op.Load?) && (d == 5 <==> op.JumpIfTrue?) && (d == 6 <==> op.JumpIfFalse?)
      && (d == 7 <==> op.LessThan?) && (d == 8 <==> op.Equals?) && (d == 9 <==> op.Done?)
  {
  }

  /** An operand's value: the literal in immediate mode, else the memory cell
      it names (a panic when that index is outside memory). */
  function Resolve(data: seq<int>, operand: int, immediate: bool): Result<int, Fault>
  {
    if immediate then Success(operand)
    else if AsUsize(operand) < |data| then Success(data[AsUsize(operand)])
    else Failure(OutOfBounds)
  }

  /** `data[address] = value`, which panics outside memory. */
  function Store(data: seq<int>, address: nat, value: int): Result<seq<int>, Fault>
  {
    if address < |data| then Success(data[address := value]) else Failure(OutOfBounds)
  }

  /** Where a taken jump goes: the literal target, or the cell it names read as `usize`. */
  function JumpTarget(data: seq<int>, address: nat, immediate: bool): Result<nat, Fault>
  {
    if immediate then Success(address)
    else if address < |data| then Success(AsUsize(data[address]))
    else Failure(OutOfBounds)
  }

  /** The effect of one decoded instruction on a machine whose cursor
      `get_instructions` has already advanced (the match in `parse`). */
  function Exec(op: OpCode, m: Machine): Result<Machine, Fault>
  {
    match op
    case Done => Success(m.(finished := true))
    case Add(inputA, immediateA, inputB, immediateB, output) =>
      var a :- Resolve(m.data, inputA, immediateA);
      var b :- Resolve(m.data, inputB, immediateB);
      var data :- Store(m.data, output, a + b);
      Success(m.(data := data))
    case Multiply(inputA, immediateA, inputB, immediateB, output) =>
      var a :- Resolve(m.data, inputA, immediateA);
      var b :- Resolve(m.data, inputB, immediateB);
      var data :- Store(m.data, output, a * b);
      Success(m.(data := data))
    case Save(address) =>
      if m.input == [] then Failure(EmptyInput)
      else
        var data :- Store(m.data, address, m.input[|m.input| - 1]);
        Success(m.(data := data, input := m.input[..|m.input| - 1]))
    case Load(immediateLoad, address) =>
      if immediateLoad then Success(m.(output := m.output + [UsizeAsI32(address)]))
      else if address < |m.data| then Success(m.(output := m.output + [m.data[address]]))
      else Failure(OutOfBounds)
    case JumpIfTrue(comparison, immediateCmp, address, immediateAdr) =>
      var c :- Resolve(m.data, comparison, immediateCmp);
      if c != 0 then
        var target :- JumpTarget(m.data, address, immediateAdr);
        Success(m.(cursor := target))
      else Success(m)
    case JumpIfFalse(comparison, immediateCmp, address, immediateAdr) =>
      var c :- Resolve(m.data, comparison, immediateCmp);
      if c == 0 then
        var target :- JumpTarget(m.data, address, immediateAdr);
        Success(m.(cursor := target))
      else Success(m)
    case LessThan(comparisonA, immediateA, comparisonB, immediateB, result) =>
      var a :- Resolve(m.data, comparisonA, immediateA);
      var b :- Resolve(m.data, comparisonB, immediateB);
      var data :- Store(m.data, result, if a < b then 1 else 0);
      Success(m.(data := data))
    case Equals(comparisonA, immediateA, comparisonB, immediateB, result) =>
      var a :- Resolve(m.data, comparisonA, immediateA);
      var b :- Resolve(m.data, comparisonB, immediateB);
      var data :- Store(m.data, result, if a == b then 1 else 0);
      Success(m.(data := data))
  }

  /** One call of `parse`: fetch the window, decode it, execute it. */
  function Step(m: Machine): Result<Machine, Fault>
  {
    var fetched :- Fetch(m.data, m.cursor);
    var op :- TryFrom(fetched.0);
    Exec(op, m.(cursor := fetched.1))
  }

  /** `execute` with a bound on the number of `parse` calls: stop as soon as
      the machine is not parsable. */
  function Run(m: Machine, fuel: nat): Result<Machine, Fault>
  {
    Iterate(Step, (n: Machine) => n.Parsable(), m, fuel)
  }

  /** Add and Multiply store the sum or product of the resolved operands in
      `data[output]` and touch nothing else; they fail only on an index outside memory. */
  lemma ExecArithmetic(op: OpCode, m: Machine)
    requires op.Add? || op.Multiply?
    ensures var a := Resolve(m.data, op.inputA, op.immediateA);
            var b := Resolve(m.data, op.inputB, op.immediateB);
      && (Exec(op, m).Success? <==> a.Success? && b.Success? && op.output < |m.data|)
      && (Exec(op, m).Success? ==>
            var n := Exec(op, m).value;
            && |n.data| == |m.data|
            && n.data[op.output] == (if op.Add? then a.value + b.value else a.value * b.value)
            && (forall i :: 0 <= i < |m.data| && i != op.output ==> n.data[i] == m.data[i])
            && n.cursor == m.cursor && n.finished == m.finished
            && n.input == m.input && n.output == m.output)
  {
  }

  /** LessThan and Equals compare the signed resolved operands and store
      exactly 1 when the relation holds and 0 otherwise, touching nothing else;
      they panic out of bounds exactly when a position-mode operand or the
      result address is outside memory. */
  lemma ExecCompare(op: OpCode, m: Machine)
    requires op.LessThan? || op.Equals?
    ensures var a := Resolve(m.data, op.comparisonA, op.immediateA);
            var b := Resolve(m.data, op.comparisonB, op.immediateB);
      && (Exec(op, m).Success? <==> a.Success? && b.Success? && op.result < |m.data|)
      && (Exec(op, m).Failure? ==> Exec(op, m).error == OutOfBounds)
      && (Exec(op, m).Success? ==>
            var n := Exec(op, m).value;
            && |n.data| == |m.data|
            && (n.data[op.result] == 0 || n.data[op.result] == 1)
            && (n.data[op.result] == 1 <==> if op.LessThan? then a.value < b.value else a.value == b.value)
            && (forall i :: 0 <= i < |m.data| && i != op.result ==> n.data[i] == m.data[i])
            && n.cursor == m.cursor && n.finished == m.finished
            && n.input == m.input && n.output == m.output)
  {
  }

  /** Save pops the LAST input into `data[address]`, so inputs are consumed
      back to front; it fails on an empty input vector, and otherwise on an
      address outside memory. */
  lemma ExecSave(address: nat, m: Machine)
    ensures m.input == [] ==> Exec(Save(address), m) == Failure(EmptyInput)
    ensures m.input != [] && address < |m.data| ==>
      Exec(Save(address), m) == Success(m.(data := m.data[address := m.input[|m.input| - 1]],
                                           input := m.input[..|m.input| - 1]))
    ensures m.input != [] && address >= |m.data| ==> Exec(Save(address), m) == Failure(OutOfBounds)
  {
  }

  /** Load appends exactly one value to the outputs: the literal operand in
      immediate mode (the i32 it was decoded from), else the memory cell. */
  lemma ExecLoad(immediateLoad: bool, literal: int, m: Machine)
    requires InI32(literal)
    ensures var n := Exec(Load(immediateLoad, AsUsize(literal)), m);
      && (immediateLoad ==> n == Success(m.(output := m.output + [literal])))
      && (!immediateLoad && 0 <= literal < |m.data| ==> n == Success(m.(output := m.output + [m.data[literal]])))
      && (!immediateLoad && AsUsize(literal) >= |m.data| ==> n == Failure(OutOfBounds))
  {
    UsizeRoundTripI32(literal);
  }

  /** A jump resolves its condition by its first mode, and panics when that
      names a cell outside memory; a taken jump moves the cursor to the
      literal target or, in position mode, to the cell it names (a panic
      outside memory); an untaken one leaves the cursor where
      `get_instructions` put it. */
  lemma ExecJump(op: OpCode, m: Machine)
    requires op.JumpIfTrue? || op.JumpIfFalse?
    ensures var c := Resolve(m.data, op.comparison, op.immediateCmp);
            var taken := c.Success? && if op.JumpIfTrue? then c.value != 0 else c.value == 0;
      && (c.Failure? ==> Exec(op, m) == Failure(OutOfBounds))
      && (c.Success? && !taken ==> Exec(op, m) == Success(m))
      && (taken && op.immediateAdr ==> Exec(op, m) == Success(m.(cursor := op.address)))
      && (taken && !op.immediateAdr && op.address < |m.data| ==>
            Exec(op, m) == Success(m.(cursor := AsUsize(m.data[op.address]))))
      && (taken && !op.immediateAdr && op.address >= |m.data| ==> Exec(op, m) == Failure(OutOfBounds))
  {
  }

  /** Done sets `finished` and leaves the cursor on the 99, so no instruction
      runs after it: the run ends there with that state. */
  lemma DoneStops(m: Machine, fuel: nat)
    requires m.Parsable() && TruncRem(m.data[m.cursor], 10) == 9
    ensures Step(m) == Success(m.(finished := true))
    ensures fuel > 0 ==> Run(m, fuel) == Success(m.(finished := true))
  {
    var halted := m.(finished := true);
    assert m.data[m.cursor..m.cursor + 1] == [m.data[m.cursor]];
    assert Step(m) == Success(halted);
    if fuel > 0 {
      assert Run(halted, fuel - 1) == Success(halted);
    }
  }

  /** `parse` on an Add or Multiply word: the three operands are the cells
      after the word, and the cursor moves past all four. */
  lemma StepArithmetic(m: Machine, code: int, modeA: bool, modeB: bool)
    requires !m.finished && m.cursor + 3 < |m.data|
    requires ParseInstruction(m.data[m.cursor]) == (code, modeA, modeB) && (code == 1 || code == 2)
    ensures var c := m.cursor; var d := m.data;
      Step(m) == Exec(if code == 1 then Add(d[c + 1], modeA, d[c + 2], modeB, AsUsize(d[c + 3]))
                      else Multiply(d[c + 1], modeA, d[c + 2], modeB, AsUsize(d[c + 3])), m.(cursor := c + 4))
  {
  }

  /** `parse` on a LessThan or Equals word. */
  lemma StepCompare(m: Machine, code: int, modeA: bool, modeB: bool)
    requires !m.finished && m.cursor + 3 < |m.data|
    requires ParseInstruction(m.data[m.cursor]) == (code, modeA, modeB) && (code == 7 || code == 8)
    ensures var c := m.cursor; var d := m.data;
      Step(m) == Exec(if code == 7 then LessThan(d[c + 1], modeA, d[c + 2], modeB, AsUsize(d[c + 3]))
                      else Equals(d[c + 1], modeA, d[c + 2], modeB, AsUsize(d[c + 3])), m.(cursor := c + 4))
  {
  }

  /** `parse` on a Save or Load word: one operand, cursor +2. */
  lemma StepInputOutput(m: Machine, code: int, modeA: bool, modeB: bool)
    requires !m.finished && m.cursor + 1 < |m.data|
    requires ParseInstruction(m.data[m.cursor]) == (code, modeA, modeB) && (code == 3 || code == 4)
    ensures var c := m.cursor; var d := m.data;
      Step(m) == Exec(if code == 3 then Save(AsUsize(d[c + 1])) else Load(modeA, AsUsize(d[c + 1])), m.(cursor := c + 2))
  {
  }

  /** `parse` on a jump word: two operands, cursor +3 unless the jump is taken. */
  lemma StepJump(m: Machine, code: int, modeA: bool, modeB: bool)
    requires !m.finished && m.cursor + 2 < |m.data|
    requires ParseInstruction(m.data[m.cursor]) == (code, modeA, modeB) && (code == 5 || code == 6)
    ensures var c := m.cursor; var d := m.data;
      Step(m) == Exec(if code == 5 then JumpIfTrue(d[c + 1], modeA, AsUsize(d[c + 2]), modeB)
                      else JumpIfFalse(d[c + 1], modeA, AsUsize(d[c + 2]), modeB), m.(cursor := c + 3))
  {
  }

  /** A successful step from a parsable machine uses one unit of fuel. */
  lemma RunStep(m: Machine, n: Machine, fuel: nat)
    requires m.Parsable() && Step(m) == Success(n) && fuel >= 1
    ensures Run(m, fuel) == Run(n, fuel - 1)
  {
  }

  /** Executing an instruction never changes the size of memory, and only
      ever appends one output or removes the last input. */
  lemma ExecFrame(op: OpCode, m: Machine)
    requires Exec(op, m).Success?
    ensures var n := Exec(op, m).value;
      && |n.data| == |m.data|
      && m.output <= n.output && |n.output| <= |m.output| + 1
      && n.input <= m.input && |m.input| <= |n.input| + 1
  {
    match op
    case Add(_, _, _, _, _) => ExecArithmetic(op, m);
    case Multiply(_, _, _, _, _) => ExecArithmetic(op, m);
    case LessThan(_, _, _, _, _) => ExecCompare(op, m);
    case Equals(_, _, _, _, _) => ExecCompare(op, m);
    case _ =>
  }

  /** Hence a step never changes the size of memory, and only ever appends to
      the outputs and removes from the back of the inputs. */
  lemma StepFrame(m: Machine)
    requires Step(m).Success?
    ensures var n := Step(m).value;
      && |n.data| == |m.data|
      && m.output <= n.output && |n.output| <= |m.output| + 1
      && n.input <= m.input && |m.input| <= |n.input| + 1
  {
    var fetched := Fetch(m.data, m.cursor).value;
    ExecFrame(TryFrom(fetched.0).value, m.(cursor := fetched.1));
  }

  /** A completed run ends on a machine that is no longer parsable (halted or
      cursor past the end), with memory of the same size and the outputs of
      the start still at the front. */
  lemma {:induction false} RunResult(m: Machine, fuel: nat)
    requires Run(m, fuel).Success?
    ensures var n := Run(m, fuel).value;
      && !n.Parsable() && |n.data| == |m.data| && m.output <= n.output && n.input <= m.input
    decreases fuel
  {
    if m.Parsable() {
      StepFrame(m);
      RunResult(Step(m).value, fuel - 1);
    }
  }

  /** Once finished, a machine does nothing more. */
  lemma FinishedIsFinal(m: Machine, fuel: nat)
    requires m.finished
    ensures Run(m, fuel) == Success(m)
  {
  }

  /** A run with more fuel that still completes gives the same result. */
  lemma {:induction false} RunMoreFuel(m: Machine, fuel: nat, more: nat)
    requires Run(m, fuel).Success? && fuel <= more
    ensures Run(m, more) == Run(m, fuel)
    decreases fuel
  {
    IterateMoreFuel(Step, (n: Machine) => n.Parsable(), m, fuel, more);
  }

  /** The `IntCode` struct: memory, cursor, halt flag, inputs and outputs. */
  class IntCode {
    var data: seq<int>
    var cursorPosition: nat
    var finished: bool
    var input: seq<int>
    var output: seq<int>

    function State(): Machine
      reads this
    {
      Machine(data, cursorPosition, finished, input, output)
    }

    /** `IntCode::new`: the given memory and inputs, cursor 0, not finished, no outputs. */
    constructor (data: seq<int>, input: seq<int>)
      ensures State() == Machine(data, 0, false, input, [])
    {
      this.data := data;
      this.cursorPosition := 0;
      this.finished := false;
      this.input := input;
      this.output := [];
    }

    /** `parsable`. */
    predicate Parsable()
      reads this
      ensures Parsable() <==> State().Parsable()
    {
      !finished && cursorPosition < |data|
    }

    /** `get_instructions`: cut the window for the opcode digit at the cursor
        and advance the cursor past it (not past a 9). */
    method GetInstructions() returns (r: Result<seq<int>, Fault>)
      modifies this
      ensures data == old(data) && finished == old(finished)
      ensures input == old(input) && output == old(output)
      ensures Fetch(old(data), old(cursorPosition)).Success? ==>
                r == Success(Fetch(old(data), old(cursorPosition)).value.0)
                && cursorPosition == Fetch(old(data), old(cursorPosition)).value.1
      ensures Fetch(old(data), old(cursorPosition)).Failure? ==>
                r == Failure(Fetch(old(data), old(cursorPosition)).error)
    {
      if cursorPosition >= |data| {
        return Failure(OutOfBounds);
      }
      var instruction := TruncRem(data[cursorPosition], 10);
      if instruction == 1 || instruction == 2 || instruction == 7 || instruction == 8 {
        if cursorPosition + 3 >= |data| { return Failure(OutOfBounds); }
        r := Success(data[cursorPosition..cursorPosition + 4]);
        cursorPosition := cursorPosition + 4;
      } else if instruction == 5 || instruction == 6 {
        if cursorPosition + 2 >= |data| { return Failure(OutOfBounds); }
        r := Success(data[cursorPosition..cursorPosition + 3]);
        cursorPosition := cursorPosition + 3;
      } else if instruction == 3 || instruction == 4 {
        if cursorPosition + 1 >= |data| { return Failure(OutOfBounds); }
        r := Success(data[cursorPosition..cursorPosition + 2]);
        cursorPosition := cursorPosition + 2;
      } else if instruction == 9 {
        r := Success(data[cursorPosition..cursorPosition + 1]);
      } else {
        r := Failure(UnknownOpcode);
      }
    }

    /** `parse`: fetch, decode and execute one instruction in place. */
    method Parse() returns (fault: Option<Fault>)
      modifies this
      ensures Step(old(State())).Success? ==> fault == None && State() == Step(old(State())).value
      ensures Step(old(State())).Failure? ==> fault == Some(Step(old(State())).error)
    {
      var instruction := GetInstructions();
      if instruction.Failure? {
        return Some(instruction.error);
      }
      var opCode := TryFrom(instruction.value);
      if opCode.Failure? {
        return Some(opCode.error);
      }
      fault := Apply(opCode.value);
    }

    /** The match of `parse`: carry out one decoded instruction in place. */
    method Apply(op: OpCode) returns (fault: Option<Fault>)
      modifies this
      ensures Exec(op, old(State())).Success? ==> fault == None && State() == Exec(op, old(State())).value
      ensures Exec(op, old(State())).Failure? ==> fault == Some(Exec(op, old(State())).error)
    {
      fault := None;
      match op
      case Done =>
        finished := true;
      case Add(inputA, immediateA, inputB, immediateB, out) =>
        var a := Resolve(data, inputA, immediateA);
        if a.Failure? { return Some(a.error); }
        var b := Resolve(data, inputB, immediateB);
        if b.Failure? { return Some(b.error); }
        if out >= |data| { return Some(OutOfBounds); }
        data := data[out := a.value + b.value];
      case Multiply(inputA, immediateA, inputB, immediateB, out) =>
        var a := Resolve(data, inputA, immediateA);
        if a.Failure? { return Some(a.error); }
        var b := Resolve(data, inputB, immediateB);
        if b.Failure? { return Some(b.error); }
        if out >= |data| { return Some(OutOfBounds); }
        data := data[out := a.value * b.value];
      case Save(address) =>
        if input == [] { return Some(EmptyInput); }
        var value := input[|input| - 1];
        input := input[..|input| - 1];
        if address >= |data| { return Some(OutOfBounds); }
        data := data[address := value];
      case Load(immediateLoad, address) =>
        if immediateLoad {
          output := output + [UsizeAsI32(address)];
        } else {
          if address >= |data| { return Some(OutOfBounds); }
          output := output + [data[address]];
        }
      case JumpIfTrue(comparison, immediateCmp, address, immediateAdr) =>
        var c := Resolve(data, comparison, immediateCmp);
        if c.Failure? { return Some(c.error); }
        if c.value != 0 {
          var target := JumpTarget(data, address, immediateAdr);
          if target.Failure? { return Some(target.error); }
          cursorPosition := target.value;
        }
      case JumpIfFalse(comparison, immediateCmp, address, immediateAdr) =>
        var c := Resolve(data, comparison, immediateCmp);
        if c.Failure? { return Some(c.error); }
        if c.value == 0 {
          var target := JumpTarget(data, address, immediateAdr);
          if target.Failure? { return Some(target.error); }
          cursorPosition := target.value;
        }
      case LessThan(comparisonA, immediateA, comparisonB, immediateB, result) =>
        var a := Resolve(data, comparisonA, immediateA);
        if a.Failure? { return Some(a.error); }
        var b := Resolve(data, comparisonB, immediateB);
        if b.Failure? { return Some(b.error); }
        if result >= |data| { return Some(OutOfBounds); }
        data := data[result := if a.value < b.value then 1 else 0];
      case Equals(comparisonA, immediateA, comparisonB, immediateB, result) =>
        var a := Resolve(data, comparisonA, immediateA);
        if a.Failure? { return Some(a.error); }
        var b := Resolve(data, comparisonB, immediateB);
        if b.Failure? { return Some(b.error); }
        if result >= |data| { return Some(OutOfBounds); }
        data := data[result := if a.value == b.value then 1 else 0];
    }

    /** `execute`: call `parse` while the machine is parsable, for at most
        `fuel` calls. */
    method Execute(fuel: nat) returns (fault: Option<Fault>)
      modifies this
      ensures Run(old(State()), fuel).Success? ==> fault == None && State() == Run(old(State()), fuel).value
      ensures Run(old(State()), fuel).Failure? ==> fault == Some(Run(old(State()), fuel).error)
    {
      var steps := fuel;
      while Parsable()
        invariant Run(old(State()), fuel) == Run(State(), steps)
        decreases steps
      {
        if steps == 0 {
          return Some(FuelExhausted);
        }
        var f := Parse();
        if f.Some? {
          return f;
        }
        steps := steps - 1;
      }
      fault := None;
    }
  }
}
