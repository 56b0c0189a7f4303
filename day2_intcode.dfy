/** The first IntCode machine: three opcodes (1 add, 2 multiply, 99 halt),
    every operand an address, and a fixed four-word instruction window. The
    puzzle patches cells 1 and 2 of a program ("noun" and "verb") and reads
    the answer from cell 0. */
module IntCodeDay2 {
  import opened Common

  /** A decoded instruction; the operands hold the value after `as usize`. */
  datatype OpCode =
    | Add(inputA: nat, inputB: nat, output: nat)
    | Multiply(inputA: nat, inputB: nat, output: nat)
    | Done

  /** The state of an `IntCode` struct, as a value. */
  datatype Machine = Machine(data: seq<int>, cursor: nat, finished: bool)
  {
    /** `parsable`: not halted and the cursor still inside memory. */
    predicate Parsable()
    {
      !finished && cursor < |data|
    }
  }

  /** `OpCode::try_from`: the whole first word selects the opcode, so only 1,
      2 and 99 decode; indexing past the end of the window panics. */
  function TryFrom(value: seq<int>): (r: Result<OpCode, Fault>)
    ensures r.Success? ==> |value| > 0 && value[0] in {1, 2, 99}
    ensures |value| >= 4 ==> (r.Success? <==> value[0] in {1, 2, 99})
  {
    if |value| == 0 then Failure(OutOfBounds)
    else if value[0] == 1 || value[0] == 2 then
      if |value| < 4 then Failure(OutOfBounds)
      else if value[0] == 1 then Success(Add(AsUsize(value[1]), AsUsize(value[2]), AsUsize(value[3])))
      else Success(Multiply(AsUsize(value[1]), AsUsize(value[2]), AsUsize(value[3])))
    else if value[0] == 99 then Success(Done)
    else Failure(UnknownOpcode)
  }

  /** `get_instructions`: the four words at the cursor, whatever the opcode
      (a 99 too), and the cursor moved past them; a panic when fewer than four
      words remain. */
  function Fetch(data: seq<int>, cursor: nat): (r: Result<(seq<int>, nat), Fault>)
    ensures r.Success? <==> cursor + 3 < |data|
    ensures r.Success? ==> |r.value.0| == 4 && r.value.1 == cursor + 4
    ensures r.Success? ==> forall i :: 0 <= i < 4 ==> r.value.0[i] == data[cursor + i]
  {
    if cursor + 3 < |data| then Success((data[cursor..cursor + 4], cursor + 4)) else Failure(OutOfBounds)
  }

  /** The match of `parse` on a machine whose cursor has already moved on. */
  function Exec(op: OpCode, m: Machine): Result<Machine, Fault>
  {
    match op
    case Done => Success(m.(finished := true))
    case Add(inputA, inputB, output) =>
      if inputA < |m.data| && inputB < |m.data| && output < |m.data|
      then Success(m.(data := m.data[output := m.data[inputA] + m.data[inputB]]))
      else Failure(OutOfBounds)
    case Multiply(inputA, inputB, output) =>
      if inputA < |m.data| && inputB < |m.data| && output < |m.data|
      then Success(m.(data := m.data[output := m.data[inputA] * m.data[inputB]]))
      else Failure(OutOfBounds)
  }

  /** One call of `parse`: every successful step moves the cursor on by four
      and keeps the size of memory, which is why `execute` always terminates. */
  function Step(m: Machine): (r: Result<Machine, Fault>)
    ensures r.Success? ==> |r.value.data| == |m.data| && r.value.cursor == m.cursor + 4
  {
    var fetched :- Fetch(m.data, m.cursor);
    var op :- TryFrom(fetched.0);
    Exec(op, m.(cursor := fetched.1))
  }

  /** `execute`: step while parsable. No bound is needed: the distance from
      the cursor to the end of memory shrinks with every step. */
  function Run(m: Machine): (r: Result<Machine, Fault>)
    ensures r.Success? ==> !r.value.Parsable() && |r.value.data| == |m.data|
    decreases if m.cursor <= |m.data| then |m.data| - m.cursor else 0
  {
    if !m.Parsable() then Success(m)
    else match Step(m)
      case Failure(e) => Failure(e)
      case Success(next) => Run(next)
  }

  /** Add and Multiply store the sum or product of two cells in the third and
      leave every other cell alone; they fail exactly when an address is
      outside memory. */
  lemma ExecArithmetic(op: OpCode, m: Machine)
    requires op.Add? || op.Multiply?
    ensures Exec(op, m).Success? <==> op.inputA < |m.data| && op.inputB < |m.data| && op.output < |m.data|
    ensures Exec(op, m).Success? ==>
      var n := Exec(op, m).value;
      && |n.data| == |m.data| && n.cursor == m.cursor && n.finished == m.finished
      && n.data[op.output] == (if op.Add? then m.data[op.inputA] + m.data[op.inputB] else m.data[op.inputA] * m.data[op.inputB])
      && forall i :: 0 <= i < |m.data| && i != op.output ==> n.data[i] == m.data[i]
  {
  }

  /** A step on a 1 or a 2 whose three addresses are inside memory stores the
      sum or product in the cell named by the fourth word and moves on by four
      (a memory, like any Rust vector, has fewer than 2^64 cells). */
  lemma StepArithmetic(m: Machine)
    requires m.cursor + 3 < |m.data| <= USIZE_MODULUS && m.data[m.cursor] in {1, 2}
    requires 0 <= m.data[m.cursor + 1] < |m.data| && 0 <= m.data[m.cursor + 2] < |m.data|
    requires 0 <= m.data[m.cursor + 3] < |m.data|
    ensures
      var (a, b, c) := (m.data[m.cursor + 1], m.data[m.cursor + 2], m.data[m.cursor + 3]);
      var v := if m.data[m.cursor] == 1 then m.data[a] + m.data[b] else m.data[a] * m.data[b];
      Step(m) == Success(Machine(m.data[c := v], m.cursor + 4, m.finished))
  {
    var (a, b, c) := (m.data[m.cursor + 1], m.data[m.cursor + 2], m.data[m.cursor + 3]);
    var window := Fetch(m.data, m.cursor).value.0;
    var op := if m.data[m.cursor] == 1 then Add(a, b, c) else Multiply(a, b, c);
    assert window[0] == m.data[m.cursor] && window[1] == a && window[2] == b && window[3] == c;
    assert TryFrom(window) == Success(op);
  }

  /** A step on a 99 halts the machine and changes no cell. */
  lemma DoneHalts(m: Machine)
    requires m.cursor + 3 < |m.data| && m.data[m.cursor] == 99
    ensures Step(m) == Success(Machine(m.data, m.cursor + 4, true))
  {
  }

  /** Any word other than 1, 2 or 99 in opcode position is a panic. */
  lemma UnknownOpcodePanics(m: Machine)
    requires m.cursor + 3 < |m.data| && m.data[m.cursor] !in {1, 2, 99}
    ensures Step(m) == Failure(UnknownOpcode)
  {
  }

  /** A 99 closer than four words to the end of memory cannot be fetched, so
      the run panics instead of halting. */
  lemma ShortWindowPanics(m: Machine)
    requires m.Parsable() && m.cursor + 3 >= |m.data|
    ensures Run(m) == Failure(OutOfBounds)
  {
  }

  /** The memory of `test_program_execute` before each of its three steps. */
  const ExampleMemory0: seq<int> := [1, 9, 10, 3, 2, 3, 11, 0, 99, 30, 40, 50]
  const ExampleMemory1: seq<int> := ExampleMemory0[3 := 70]
  const ExampleMemory2: seq<int> := ExampleMemory1[0 := 3500]

  /** Its first instruction adds cells 9 and 10 into cell 3. */
  lemma ExampleFirstStep()
    ensures Step(Machine(ExampleMemory0, 0, false)) == Success(Machine(ExampleMemory1, 4, false))
  {
    StepArithmetic(Machine(ExampleMemory0, 0, false));
  }

  /** Its second multiplies cells 3 and 11 into cell 0. */
  lemma ExampleSecondStep()
    ensures Step(Machine(ExampleMemory1, 4, false)) == Success(Machine(ExampleMemory2, 8, false))
  {
    StepArithmetic(Machine(ExampleMemory1, 4, false));
  }

  /** The program of `test_program_execute` leaves 3500 in cell 0. */
  lemma ExecuteExample()
    ensures Run(Machine([1, 9, 10, 3, 2, 3, 11, 0, 99, 30, 40, 50], 0, false)) == Success(Machine(ExampleMemory2, 12, true))
    ensures ExampleMemory2[0] == 3500
  {
    ExampleFirstStep();
    ExampleSecondStep();
    DoneHalts(Machine(ExampleMemory2, 8, false));
    assert Run(Machine(ExampleMemory2, 8, false)) == Success(Machine(ExampleMemory2, 12, true));
    assert Run(Machine(ExampleMemory1, 4, false)) == Success(Machine(ExampleMemory2, 12, true));
  }

  /** The `IntCode` struct: memory, cursor and halt flag. */
  class IntCode {
    var data: seq<int>
    var cursorPosition: nat
    var finished: bool

    function State(): Machine
      reads this
    {
      Machine(data, cursorPosition, finished)
    }

    /** `IntCode::new`: the given memory, cursor 0, not finished. */
    constructor (data: seq<int>)
      ensures State() == Machine(data, 0, false)
    {
      this.data := data;
      this.cursorPosition := 0;
      this.finished := false;
    }

    /** `parsable`. */
    predicate Parsable()
      reads this
      ensures Parsable() <==> State().Parsable()
    {
      !finished && cursorPosition < |data|
    }

    /** `get_instructions`: the four words at the cursor; the cursor moves on by four. */
    method GetInstructions() returns (r: Result<seq<int>, Fault>)
      modifies this
      ensures data == old(data) && finished == old(finished)
      ensures Fetch(old(data), old(cursorPosition)).Success? ==>
                r == Success(Fetch(old(data), old(cursorPosition)).value.0)
                && cursorPosition == Fetch(old(data), old(cursorPosition)).value.1
      ensures Fetch(old(data), old(cursorPosition)).Failure? ==> r == Failure(OutOfBounds)
    {
      if cursorPosition + 3 >= |data| {
        return Failure(OutOfBounds);
      }
      r := Success(data[cursorPosition..cursorPosition + 4]);
      cursorPosition := cursorPosition + 4;
    }

    /** `parse`: fetch, decode and execute one instruction in place. */
    method Parse() returns (fault: Option<Fault>)
      modifies this
      ensures Step(old(State())).Success? ==> fault == None && State() == Step(old(State())).value
      ensures Step(old(State())).Failure? ==> fault == Some(Step(old(State())).error)
    {
      var instruction := GetInstructions();
      if instruction.Failure? {
        return Some(instruction.error);
      }
      var opCode := TryFrom(instruction.value);
      if opCode.Failure? {
        return Some(opCode.error);
      }
      fault := None;
      match opCode.value
      case Done =>
        finished := true;
      case Add(inputA, inputB, output) =>
        if inputA >= |data| || inputB >= |data| || output >= |data| {
          return Some(OutOfBounds);
        }
        data := data[output := data[inputA] + data[inputB]];
      case Multiply(inputA, inputB, output) =>
        if inputA >= |data| || inputB >= |data| || output >= |data| {
          return Some(OutOfBounds);
        }
        data := data[output := data[inputA] * data[inputB]];
    }

    /** `execute`: call `parse` while the machine is parsable. */
    method Execute() returns (fault: Option<Fault>)
      modifies this
      ensures Run(old(State())).Success? ==> fault == None && State() == Run(old(State())).value
      ensures Run(old(State())).Failure? ==> fault == Some(Run(old(State())).error)
    {
      while Parsable()
        invariant Run(old(State())) == Run(State())
        decreases if cursorPosition <= |data| then |data| - cursorPosition else 0
      {
        var f := Parse();
        if f.Some? {
          return f;
        }
      }
      fault := None;
    }
  }

  /** Cells 1 and 2 set to a noun and a verb. */
  function Patch(program: seq<int>, noun: int, verb: int): (r: seq<int>)
    requires |program| >= 3
    ensures |r| == |program| && r[1] == noun && r[2] == verb
    ensures r[0] == program[0] && r[3..] == program[3..]
  {
    program[1 := noun][2 := verb]
  }

  /** What a patched program leaves in cell 0 (the value `Display` prints);
      patching a program shorter than three cells panics. */
  function Outcome(program: seq<int>, noun: int, verb: int): (r: Result<int, Fault>)
    ensures |program| < 3 ==> r == Failure(OutOfBounds)
  {
    if |program| < 3 then Failure(OutOfBounds)
    else
      var n :- Run(Machine(Patch(program, noun, verb), 0, false));
      Success(n.data[0])
  }

  /** `part1`: patch the caller's slice in place to noun 12 and verb 2, run a
      copy, and report cell 0. Indexing a slice shorter than three panics
      after whatever writes already happened. */
  method Part1(input: array<int>) returns (r: Result<int, Fault>)
    modifies input
    ensures input.Length >= 3 ==> input[..] == Patch(old(input[..]), 12, 2) && r == Outcome(old(input[..]), 12, 2)
    ensures input.Length == 2 ==> input[..] == old(input[..])[1 := 12] && r == Failure(OutOfBounds)
    ensures input.Length < 2 ==> input[..] == old(input[..]) && r == Failure(OutOfBounds)
  {
    if input.Length < 2 {
      return Failure(OutOfBounds);
    }
    input[1] := 12;
    if input.Length < 3 {
      return Failure(OutOfBounds);
    }
    input[2] := 2;
    var program := new IntCode(input[..]);
    var fault := program.Execute();
    if fault.Some? {
      return Failure(fault.value);
    }
    r := Success(program.data[0]);
  }

  /** The candidates of `generate_possible_inputs`: all pairs of 0..=99, the
      first component varying slowest. */
  function AllPairs(): (all: seq<Candidate>)
    ensures |all| == 10000
    ensures forall k :: 0 <= k < 10000 ==>
      0 <= all[k].0 <= 99 && 0 <= all[k].1 <= 99 && 100 * all[k].0 + all[k].1 == k
  {
    seq(10000, k => (k / 100, k % 100))
  }

  /** `generate_possible_inputs`: two nested loops pushing `(i, j)`. */
  method GeneratePossibleInputs() returns (all: seq<Candidate>)
    ensures all == AllPairs()
  {
    all := [];
    var i := 0;
    while i <= 99
      invariant 0 <= i <= 100
      invariant |all| == 100 * i
      invariant forall k :: 0 <= k < |all| ==> all[k] == (k / 100, k % 100)
    {
      var j := 0;
      while j <= 99
        invariant 0 <= j <= 100
        invariant |all| == 100 * i + j
        invariant forall k :: 0 <= k < |all| ==> all[k] == (k / 100, k % 100)
      {
        all := all + [(i, j)];
        j := j + 1;
      }
      i := i + 1;
    }
  }

  /** Every pair of 0..=99 is a candidate, at index 100 * noun + verb. */
  lemma AllPairsComplete(noun: int, verb: int)
    requires 0 <= noun <= 99 && 0 <= verb <= 99
    ensures AllPairs()[100 * noun + verb] == (noun, verb)
  {
    var k := 100 * noun + verb;
    assert k / 100 == noun && k % 100 == verb;
  }

  /** The target value of part 2. */
  const TARGET: int := 19690720

  /** A (noun, verb) pair. */
  type Candidate = (int, int)

  /** The outcome of every candidate pair for one program. */
  function Trial(program: seq<int>): Candidate -> Result<int, Fault>
  {
    (candidate: Candidate) => Outcome(program, candidate.0, candidate.1)
  }

  /** The search loop of `part2`: pop candidates from the end of the list and
      stop at the first whose outcome is the target. An outcome that is a
      panic ends the search with that panic. */
  function Search(outcome: Candidate -> Result<int, Fault>, candidates: seq<Candidate>): Result<Option<int>, Fault>
  {
    if candidates == [] then Success(None)
    else
      var candidate := candidates[|candidates| - 1];
      var value :- outcome(candidate);
      if value == TARGET then Success(Some(100 * candidate.0 + candidate.1))
      else Search(outcome, candidates[..|candidates| - 1])
  }

  /** A candidate whose run ends without a panic and misses the target. */
  predicate Misses(outcome: Candidate -> Result<int, Fault>, candidate: (int, int))
  {
    outcome(candidate).Success? && outcome(candidate).value != TARGET
  }

  /** One pop of the search, when the popped candidate is `last`. */
  lemma SearchPop(outcome: Candidate -> Result<int, Fault>, candidates: seq<Candidate>, last: Candidate)
    requires candidates != [] && candidates[|candidates| - 1] == last
    ensures outcome(last).Failure? ==> Search(outcome, candidates) == Failure(outcome(last).error)
    ensures outcome(last).Success? && outcome(last).value == TARGET ==>
      Search(outcome, candidates) == Success(Some(100 * last.0 + last.1))
    ensures Misses(outcome, last) ==> Search(outcome, candidates) == Search(outcome, candidates[..|candidates| - 1])
  {
  }

  /** The body of the `part2` loop for one candidate: a copy of the program
      patched, a fresh machine executed on it, and cell 0 read back. */
  method TryCandidate(input: seq<int>, candidate: Candidate) returns (value: Result<int, Fault>)
    ensures value == Trial(input)(candidate)
  {
    if |input| < 3 {
      return Failure(OutOfBounds);
    }
    var program := new IntCode(Patch(input, candidate.0, candidate.1));
    var fault := program.Execute();
    if fault.Some? {
      return Failure(fault.value);
    }
    value := Success(program.data[0]);
  }

  /** `part2`, with the candidates as a stack. */
  method Part2(input: seq<int>) returns (r: Result<Option<int>, Fault>)
    ensures r == Search(Trial(input), AllPairs())
  {
    var all := GeneratePossibleInputs();
    while all != []
      invariant Search(Trial(input), AllPairs()) == Search(Trial(input), all)
      decreases |all|
    {
      var candidate := all[|all| - 1];
      var value := TryCandidate(input, candidate);
      SearchPop(Trial(input), all, candidate);
      if value.Failure? {
        return Failure(value.error);
      }
      if value.value == TARGET {
        return Success(Some(100 * candidate.0 + candidate.1));
      }
      all := all[..|all| - 1];
    }
    r := Success(None);
  }

  /** Reporting nothing means every candidate ran and missed. */
  lemma {:induction false} SearchNoneAllMiss(outcome: Candidate -> Result<int, Fault>, candidates: seq<Candidate>)
    ensures Search(outcome, candidates) == Success(None) <==>
      forall k :: 0 <= k < |candidates| ==> Misses(outcome, candidates[k])
    decreases |candidates|
  {
    if candidates != [] {
      var last := |candidates| - 1;
      var rest := candidates[..last];
      SearchNoneAllMiss(outcome, rest);
      SearchPop(outcome, candidates, candidates[|candidates| - 1]);
      assert forall k :: 0 <= k < last ==> rest[k] == candidates[k];
    }
  }

  /** A reported answer is `100 * noun + verb` for the LAST candidate in the
      list whose outcome is the target, and every candidate after it ran and
      missed. */
  lemma {:induction false} SearchSomeIsLastHit(outcome: Candidate -> Result<int, Fault>, candidates: seq<Candidate>, answer: int) returns (k: nat)
    requires Search(outcome, candidates) == Success(Some(answer))
    ensures k < |candidates| && answer == 100 * candidates[k].0 + candidates[k].1
    ensures outcome(candidates[k]) == Success(TARGET)
    ensures forall k' :: k < k' < |candidates| ==> Misses(outcome, candidates[k'])
    decreases |candidates|
  {
    var last := |candidates| - 1;
    SearchPop(outcome, candidates, candidates[|candidates| - 1]);
    if outcome(candidates[last]) == Success(TARGET) {
      k := last;
    } else {
      var rest := candidates[..last];
      k := SearchSomeIsLastHit(outcome, rest, answer);
      assert forall k' :: 0 <= k' < last ==> rest[k'] == candidates[k'];
    }
  }

  /** Since the list is popped from the end, (99, 99) is the first candidate
      tried: it decides the search when it hits or panics. */
  lemma FirstCandidateTried(program: seq<int>)
    ensures Outcome(program, 99, 99) == Success(TARGET) ==> Search(Trial(program), AllPairs()) == Success(Some(9999))
    ensures Outcome(program, 99, 99).Failure? ==> Search(Trial(program), AllPairs()) == Failure(Outcome(program, 99, 99).error)
  {
    assert AllPairs()[9999] == (99, 99);
    SearchPop(Trial(program), AllPairs(), (99, 99));
  }
}
