# Advent of Code 2019 solutions in Rust, modelled in Dafny

This project models the puzzle solutions of days 1, 2, 4, 5, 6, 7 and 8:

- **Day 1** works out the fuel for module masses. There is a plain variant and a recursive one, where the fuel also needs fuel.
- **Day 4** has the password rules: six digits, digits that never decrease, and two equal neighbours. It also has the digit splitting they rely on.
- **Days 2, 5 and 7** are three versions of the IntCode machine:
  - day 2: add, multiply and halt, plus the search for the noun and verb that yield 19690720;
  - day 5: nine opcodes, parameter modes, one scalar input and one scalar output;
  - day 7: the same opcodes, inputs and outputs as vectors, and the five-stage amplifier chain of `get_max_thruster`.
- **Day 6** reads the orbit map `A)B` into a planet-to-centre map. It counts direct and indirect orbits and the transfers from YOU to SAN.
- **Day 8** covers the space image format:
  - layers of `w * h` digits;
  - the checksum of the layer with the fewest zeros;
  - the picture seen through the layers.

Each Rust struct whose methods update its fields is a Dafny class:

| struct | module |
|---|---|
| `IntCode` | `IntCodeDay2`, `IntCodeDay5`, `IntCodeDay7` |
| `Universe` | `Orbits` |
| `Image` | `SpaceImage` |

Its methods are Dafny methods with loops and `modifies` clauses. Each method is proved equal to a specification function on a value (`Machine`, `map`, `seq`), and the properties are proved as lemmas about that function.

Pure code becomes functions and lemmas.

Every panic reachable from the modelled callers is a failure value of `Common.Fault`: an index out of bounds, `unwrap` of `None`, `expect`, or an opcode that matches no arm. The exceptions, where a `requires` stands in for a panic no caller reaches, are listed under "Left out". The Rust integer semantics the code depends on are written out:

- `/` and `%` truncate toward zero (`Common.TruncDiv`, `Common.TruncRem`);
- `as usize` wraps modulo 2^64 (`Common.AsUsize`);
- `as i32` and `as i64` read the low bits as signed.

The day 5 machine compares its operands after `as usize`. Through that cast a negative input counts as larger than 8 in the large example (`DiagnosticExamples.LargeOutput`). In the day 7 machine a negative jump target becomes a huge cursor, which stops execution.

`Text` models the parts of Rust's `str` that the code uses: `trim`, with Unicode white space, and `lines`.

## Model

| member | source | states |
|---|---|---|
| Common.TruncDiv | day1/src/main.rs:29 | Rust `/` by a positive divisor: the floor quotient for a non-negative dividend; for a negative one it rounds toward zero, so `b * q` is the smallest multiple of b at or above the dividend, and q <= 0 |
| Common.TruncRem | day5/src/main.rs:126 | Rust `%` by a positive divisor: the usual remainder for a non-negative dividend, and in (-b, 0] for a negative one |
| Common.TruncDivRem | day5/src/main.rs:126-128 | the truncating remainder is what the truncating quotient leaves over: `a == b * TruncDiv(a, b) + TruncRem(a, b)` |
| Common.AsUsize | day7/src/main.rs:105 | `as usize` on a 64-bit target: below 2^64, the identity on 0..2^64, and adds 2^64 to a negative i64 |
| Common.UsizeRoundTripI64 | day5/src/main.rs:244 | an i64 operand cast to usize, then back to i64 by an immediate load, is unchanged |
| Common.UsizeRoundTripI32 | day7/src/main.rs:278 | an i32 operand cast to usize, then back to i32 by an immediate load, is unchanged |
| Common.ParseInstruction | day5/src/main.rs:124-130 | `parse_instruction` on a non-negative word: the last digit, and whether the hundreds and the thousands digits are 1; a negative word gives an opcode in -9..0 and no mode flag |
| Common.ParseInstructionTruncates | day5/src/main.rs:124-130 | the parse is exactly the three truncating `%` and `/` expressions of the Rust code, for every word, negative ones included |
| Common.ParseInstructionDigits | day7/src/main.rs:155-161 | a non-negative word built from opcode digit, tens digit, two mode digits and any higher digits parses back to (opcode, mode1 == 1, mode2 == 1) |
| Common.IterateMoreFuel | day5/src/main.rs:158-162 | a run of the `execute` loop that completes gives the same result with any larger step bound |
| Common.CollectResultsEach | day6/src/main.rs:22-28 | collecting a per-line result succeeds exactly when every line does, and element k is line k's value |
| Common.CollectResultsOfEach | day6/src/main.rs:22-28 | when every input maps to its output, collecting yields all outputs in order |
| Common.CollectResultsSnoc | day6/src/main.rs:22-27 | collecting one more line appends that line's value to what was collected so far |
| Fuel.CalculateFuel | day1/src/main.rs:28-30 | `mass / 3 - 2` with truncation: for mass >= 0, fuel + 2 is the largest q with 3q <= mass; a negative mass rounds toward zero; positive fuel is below the mass |
| Fuel.RecursiveFuel | day1/src/main.rs:32-40 | the total is never negative, is 0 when the first step's fuel is not positive, and otherwise at least that first step's fuel |
| Fuel.Part2 | day1/src/main.rs:21-26 | the sum of recursive fuel is never negative |
| Fuel.Part1Append | day1/src/main.rs:14-19 | the fold of `part1` is 0 on no masses and additive over concatenation |
| Fuel.Part2Append | day1/src/main.rs:21-26 | the fold of `part2` is 0 on no masses and additive over concatenation |
| Fuel.Part2AtLeastPart1 | day1/src/main.rs:14-26 | counting the fuel's own fuel never gives less than part 1 |
| Fuel.FuelExamples | day1/src/main.rs:59-64 | `calculate_fuel` of 12, 14, 1969, 100756 is 2, 2, 654, 33583 |
| Fuel.RecursiveFuelExamples | day1/src/main.rs:67-70 | recursive fuel of 1969 and 100756 is 966 and 50346 |
| Fuel.TestMassFuel | day1/src/main.rs:32-40 | recursive fuel of the test masses 12, 120, 399 and 42 is 2, 49, 184 and 14 |
| Fuel.Part1Examples | day1/src/main.rs:73-77 | `part1` of [12], [12, 12, 12] and [120, 399, 42] is 2, 6 and 181 |
| Fuel.Part2Examples | day1/src/main.rs:80-84 | `part2` of [12], [12, 12, 12] and [120, 399, 42] is 2, 6 and 247 |
| Password.NumberToVec | day4/src/main.rs:26-37 | the loop builds `Digits(n)`: for n >= 0 every element is a digit 0..9, they fold back to n, and there is no leading zero from 10 up; a negative n is the single element [n] |
| Password.DigitsInRange | day4/src/main.rs:29-33 | the digits of a non-negative number are all 0..9, the first non-zero from 10 up |
| Password.DigitsRoundTrip | day4/src/main.rs:26-37 | folding the digits back (most significant first) gives the number |
| Password.DigitsLengthBound | day4/src/main.rs:29-33 | a non-negative number has at most k digits exactly when it is below 10^k |
| Password.SixDigitRange | day4/src/main.rs:14-16 | `has_six_digit` on the digits of n holds exactly when 100000 <= n <= 999999 |
| Password.IncreasingIsSorted | day4/src/main.rs:22-24 | the five adjacent comparisons hold exactly when every earlier digit is at most every later one |
| Password.DoubleIsAdjacentPair | day4/src/main.rs:18-20 | `has_double` holds exactly when some neighbouring pair is equal |
| Password.CollectPasswords | day4/src/main.rs:2-10 | the loop of `main` collects exactly the numbers of lo..=hi that pass all three tests, in strictly increasing order |
| Password.IncreasingExamples | day4/src/main.rs:44-48 | `test_increasing`: 245322 fails, 123456 and 111111 pass |
| IntCodeDay2.TryFrom | day2/src/main.rs:27-46 | a four-word window decodes exactly when its first word is 1, 2 or 99; decoding never succeeds on another word |
| IntCodeDay2.Fetch | day2/src/main.rs:80-85 | the window is the four words at the cursor, available exactly when cursor + 3 is inside memory; the cursor moves on by 4 |
| IntCodeDay2.Step | day2/src/main.rs:87-103 | a successful `parse` keeps the memory size and advances the cursor by exactly 4 |
| IntCodeDay2.Run | day2/src/main.rs:70-74 | a completed `execute` ends on a machine that is not parsable, with the same memory size |
| IntCodeDay2.ExecArithmetic | day2/src/main.rs:90-102 | add and multiply succeed exactly when all three addresses are in memory, and store the sum or product of the two cells in the third, changing nothing else |
| IntCodeDay2.StepArithmetic | day2/src/main.rs:87-103 | a step on 1 or 2 with in-range addresses stores the sum or product of the addressed cells at the third address and moves the cursor by 4 |
| IntCodeDay2.DoneHalts | day2/src/main.rs:91 | a step on 99 sets `finished`, moves the cursor by 4 and changes no cell |
| IntCodeDay2.UnknownOpcodePanics | day2/src/main.rs:43 | any other opcode word in a full window is a panic |
| IntCodeDay2.ShortWindowPanics | day2/src/main.rs:81 | a 99 closer than four words to the end of memory cannot be fetched: the run panics out of bounds |
| IntCodeDay2.ExecuteExample | day2/src/main.rs:172-176 | `test_program_execute`: the example program halts with 3500 in cell 0 |
| IntCodeDay2.IntCode.constructor | day2/src/main.rs:62-68 | `IntCode::new`: the given memory, cursor 0, not finished |
| IntCodeDay2.IntCode.Parsable | day2/src/main.rs:76-78 | true exactly when the machine is not finished and the cursor is inside memory |
| IntCodeDay2.IntCode.GetInstructions | day2/src/main.rs:80-85 | returns the window `Fetch` gives and moves the cursor on by 4, or panics out of bounds; memory and flag unchanged |
| IntCodeDay2.IntCode.Parse | day2/src/main.rs:87-103 | the new state is `Step` of the old, or the fault `Step` reports |
| IntCodeDay2.IntCode.Execute | day2/src/main.rs:70-74 | the new state is `Run` of the old, or the fault `Run` reports |
| IntCodeDay2.Patch | day2/src/main.rs:118-119 | cells 1 and 2 hold noun and verb; cell 0, the cells from 3 on and the length are unchanged |
| IntCodeDay2.Part1 | day2/src/main.rs:117-125 | the caller's slice is patched in place to 12, 2 and the result is cell 0 after the run; a slice of length 2 or less panics after the writes that happened |
| IntCodeDay2.AllPairs | day2/src/main.rs:151-164 | 10000 candidates, each a pair of 0..=99, candidate k being the pair whose index 100 * noun + verb is k |
| IntCodeDay2.GeneratePossibleInputs | day2/src/main.rs:151-164 | the two nested loops push exactly `AllPairs()` |
| IntCodeDay2.AllPairsComplete | day2/src/main.rs:154-161 | every pair of 0..=99 is a candidate, at index 100 * noun + verb |
| IntCodeDay2.SearchPop | day2/src/main.rs:131-147 | one pop: a panic ends the search, a hit reports 100 * noun + verb, a miss continues with the rest |
| IntCodeDay2.TryCandidate | day2/src/main.rs:135-141 | the loop body's fresh machine on the patched copy yields the candidate's outcome |
| IntCodeDay2.Part2 | day2/src/main.rs:127-149 | the loop returns the search of all candidates popped from the end |
| IntCodeDay2.SearchNoneAllMiss | day2/src/main.rs:131-147 | no answer exactly when every candidate ran without panic and missed the target |
| IntCodeDay2.SearchSomeIsLastHit | day2/src/main.rs:131-147 | a reported answer is 100 * noun + verb of the last hitting candidate in the list, and every candidate after it missed |
| IntCodeDay2.FirstCandidateTried | day2/src/main.rs:132 | (99, 99) is tried first: if it hits the answer is 9999, if it panics the search panics |
| IntCodeDay5.FetchWidths | day5/src/main.rs:168-192 | by the last digit of the word at the cursor, the window is 4 words for 1, 2, 7, 8, 3 for 5, 6 and 2 for 3, 4 (when that many remain) and 1 for 9; the cursor moves past the window; any other digit panics |
| IntCodeDay5.FetchThenDecode | day5/src/main.rs:194-196 | every window `get_instructions` cuts decodes, into the opcode of its last digit |
| IntCodeDay5.ExecArithmetic | day5/src/main.rs:199-237 | add and multiply store the sum or product of the operands (literal or addressed cell) at the output address; failure exactly when an address is outside memory |
| IntCodeDay5.ExecCompare | day5/src/main.rs:279-320 | a less-than or equals panics out of bounds exactly when a position-mode operand or the result address is outside memory; otherwise it writes only the result cell, with 1 when the operands compared as usize satisfy the test and 0 otherwise, and keeps cursor, flag, input and output |
| IntCodeDay5.UnsignedEquality | day5/src/main.rs:307-315 | for i64 values, equality after `as usize` is equality |
| IntCodeDay5.UnsignedLessThan | day5/src/main.rs:286-294 | `<` after `as usize` agrees with signed `<` when both signs agree, and puts every negative value above every non-negative one |
| IntCodeDay5.ExecSave | day5/src/main.rs:238 | save writes the scalar input to the address and changes nothing else, the input included; an address outside memory panics |
| IntCodeDay5.ExecLoad | day5/src/main.rs:239-248 | load sets the output to the literal, or to the addressed cell; an address outside memory panics |
| IntCodeDay5.ExecJump | day5/src/main.rs:249-278 | a jump fails exactly when its condition operand cannot be read; it moves the cursor to its target when the condition is non-zero (jump-if-true) or zero (jump-if-false), and otherwise changes nothing |
| IntCodeDay5.DoneStops | day5/src/main.rs:198 | a 9 sets `finished` and moves the cursor past it; a run stops there |
| IntCodeDay5.StepArithmetic | day5/src/main.rs:194-237 | a word ending in 1 or 2 decodes to add or multiply with the mode flags of its digits and the next three words as operands (the output address taken as is), and is applied after the cursor moves by 4 |
| IntCodeDay5.StepCompare | day5/src/main.rs:279-320 | a word ending in 7 or 8 decodes to less-than or equals, its three operands cast to usize, and is applied after the cursor moves by 4 |
| IntCodeDay5.StepInputOutput | day5/src/main.rs:238-248 | a word ending in 3 or 4 decodes to save or load of the next word cast to usize, applied after the cursor moves by 2 |
| IntCodeDay5.StepJump | day5/src/main.rs:249-278 | a word ending in 5 or 6 decodes to a jump on the next two words cast to usize, applied after the cursor moves by 3 |
| IntCodeDay5.ExecFrame | day5/src/main.rs:197-321 | no instruction changes the memory size or the input, and only load changes the output |
| IntCodeDay5.StepFrame | day5/src/main.rs:194-322 | no step changes the memory size or the input |
| IntCodeDay5.RunResult | day5/src/main.rs:158-162 | a completed run ends on a non-parsable machine with the same memory size and input |
| IntCodeDay5.RunMoreFuel | day5/src/main.rs:158-162 | more steps allowed do not change a completed run |
| IntCodeDay5.RunStep | day5/src/main.rs:159-160 | when the machine is parsable, one iteration of the `execute` loop is one `parse` step |
| IntCodeDay5.IntCode.constructor | day5/src/main.rs:148-156 | `IntCode::new`: the given memory and input, cursor 0, not finished, output 0 |
| IntCodeDay5.IntCode.Parsable | day5/src/main.rs:164-166 | true exactly when not finished and the cursor is inside memory |
| IntCodeDay5.IntCode.GetInstructions | day5/src/main.rs:168-192 | returns the window `Fetch` gives and advances the cursor, or panics; all else unchanged |
| IntCodeDay5.IntCode.Parse | day5/src/main.rs:194-322 | the new state is `Step` of the old, or the fault it reports |
| IntCodeDay5.IntCode.Apply | day5/src/main.rs:197-321 | the new state is `Exec` of the decoded instruction, or the fault it reports |
| IntCodeDay5.IntCode.Execute | day5/src/main.rs:158-162 | the new state is `Run` of the old within the step bound, or the fault it reports |
| DiagnosticExamples.PositionEqualOutput | day5/src/main.rs:341-349 | the program outputs 1 exactly when the input is 8, else 0 |
| DiagnosticExamples.PositionEqualCases | day5/src/main.rs:341-349 | `test_position_equal`: inputs 8 and 999 give 1 and 0 |
| DiagnosticExamples.ImmediateEqualOutput | day5/src/main.rs:352-360 | outputs 1 exactly when the input is 8 |
| DiagnosticExamples.ImmediateEqualCases | day5/src/main.rs:352-360 | `test_immediate_equal`: inputs 8 and 999 give 1 and 0 |
| DiagnosticExamples.PositionLessThanOutput | day5/src/main.rs:363-371 | outputs 1 exactly when the input is below 8 as a usize (0..7) |
| DiagnosticExamples.PositionLessThanCases | day5/src/main.rs:363-371 | `test_position_less_than`: inputs 1 and 999 give 1 and 0 |
| DiagnosticExamples.ImmediateLessThanOutput | day5/src/main.rs:374-382 | outputs 1 exactly when the input is 0..7 |
| DiagnosticExamples.ImmediateLessThanCases | day5/src/main.rs:374-382 | `test_immediate_less_than`: inputs 1 and 999 give 1 and 0 |
| DiagnosticExamples.PositionJumpOutput | day5/src/main.rs:385-399 | outputs 0 for input 0 and 1 otherwise |
| DiagnosticExamples.PositionJumpCases | day5/src/main.rs:385-399 | `test_position_jump`: inputs 1 and 0 give 1 and 0 |
| DiagnosticExamples.ImmediateJumpOutput | day5/src/main.rs:402-410 | outputs 0 for input 0 and 1 otherwise |
| DiagnosticExamples.ImmediateJumpCases | day5/src/main.rs:402-410 | `test_immediate_jump`: inputs 1 and 0 give 1 and 0 |
| DiagnosticExamples.LargeOutput | day5/src/main.rs:413-446 | the large program outputs 999 for 0..7, 1000 for 8 and 1001 above 8 or for any negative input |
| DiagnosticExamples.LargeCases | day5/src/main.rs:413-446 | `test_large_example`: inputs 7, 8, 9 give 999, 1000, 1001 |
| IntCodeDay7.FetchWidths | day7/src/main.rs:199-222 | windows of 4, 3, 2 words by last digit as on day 5 (when that many remain); a 9 gives a one-word window and leaves the cursor where it is; any other digit panics |
| IntCodeDay7.FetchThenDecode | day7/src/main.rs:224-226 | every window cut decodes, into the opcode of its last digit |
| IntCodeDay7.ExecArithmetic | day7/src/main.rs:231-269 | add and multiply store the sum or product of the resolved operands at the output address; failure exactly when an address is outside memory |
| IntCodeDay7.ExecCompare | day7/src/main.rs:331-378 | a less-than or equals panics out of bounds exactly when a position-mode operand or the result address is outside memory; otherwise it writes only the result cell, with 1 when the signed operands satisfy the test and 0 otherwise, and keeps cursor, flag, inputs and outputs |
| IntCodeDay7.ExecSave | day7/src/main.rs:270-272 | with no input left save panics; with an address outside memory it panics out of bounds; otherwise it pops the last input into the addressed cell |
| IntCodeDay7.ExecLoad | day7/src/main.rs:273-282 | load appends exactly one value, the literal or the addressed cell, to the outputs; an address outside memory panics |
| IntCodeDay7.ExecJump | day7/src/main.rs:283-330 | a condition operand outside memory panics; an untaken jump changes nothing; a taken one moves the cursor to the literal target in immediate mode, or to the addressed cell cast to usize, panicking when that address is outside memory |
| IntCodeDay7.DoneStops | day7/src/main.rs:228-230 | a 9 sets `finished` and leaves the cursor on it; the run stops there |
| IntCodeDay7.StepArithmetic | day7/src/main.rs:224-269 | a word ending in 1 or 2 decodes to add or multiply with the mode flags of its digits, the output address cast to usize, and is applied after the cursor moves by 4 |
| IntCodeDay7.StepCompare | day7/src/main.rs:331-378 | a word ending in 7 or 8 decodes to less-than or equals on signed operands, the result address cast to usize, applied after the cursor moves by 4 |
| IntCodeDay7.StepInputOutput | day7/src/main.rs:270-282 | a word ending in 3 or 4 decodes to save or load of the next word cast to usize, applied after the cursor moves by 2 |
| IntCodeDay7.StepJump | day7/src/main.rs:283-330 | a word ending in 5 or 6 decodes to a jump with both mode flags, its target cast to usize, applied after the cursor moves by 3 |
| IntCodeDay7.RunStep | day7/src/main.rs:190-191 | when the machine is parsable, one iteration of the `execute` loop is one `parse` step |
| IntCodeDay7.ExecFrame | day7/src/main.rs:227-379 | no instruction changes the memory size; the outputs grow by at most one value at the end and the inputs shrink by at most one at the end |
| IntCodeDay7.StepFrame | day7/src/main.rs:224-380 | no step changes the memory size; outputs only grow at the end and inputs only shrink at the end, by at most one each |
| IntCodeDay7.RunResult | day7/src/main.rs:189-193 | a completed run ends on a non-parsable machine with the same memory size, its outputs extending the old ones and its inputs a prefix of the old ones |
| IntCodeDay7.FinishedIsFinal | day7/src/main.rs:195-197 | a finished machine is returned unchanged by `execute` |
| IntCodeDay7.RunMoreFuel | day7/src/main.rs:189-193 | more steps allowed do not change a completed run |
| IntCodeDay7.IntCode.constructor | day7/src/main.rs:179-187 | `IntCode::new`: the given memory and inputs, cursor 0, not finished, no outputs |
| IntCodeDay7.IntCode.Parsable | day7/src/main.rs:195-197 | true exactly when not finished and the cursor is inside memory |
| IntCodeDay7.IntCode.GetInstructions | day7/src/main.rs:199-222 | returns the window `Fetch` gives and advances the cursor, or panics; all else unchanged |
| IntCodeDay7.IntCode.Parse | day7/src/main.rs:224-380 | the new state is `Step` of the old, or the fault it reports |
| IntCodeDay7.IntCode.Apply | day7/src/main.rs:227-379 | the new state is `Exec` of the decoded instruction, or the fault it reports |
| IntCodeDay7.IntCode.Execute | day7/src/main.rs:189-193 | the new state is `Run` of the old within the step bound, or the fault it reports |
| Amplifiers.RunStage | day7/src/main.rs:20-22 | one stage (a fresh machine on the inputs [signal, phase as i32], executed, its last output popped) is `RunAmplifier`; no output is a panic |
| Amplifiers.GetMaxThruster | day7/src/main.rs:19-41 | the five stages in a row give `Thruster(c, input)`: the fifth stage's output, or the first panic |
| Amplifiers.ThrusterPhases | day7/src/main.rs:19-41 | only the first five phase settings matter; fewer than five is a panic |
| Amplifiers.ChainPrefix | day7/src/main.rs:20-38 | two phase lists agreeing on their first five entries drive the chain alike |
| Amplifiers.ChainShort | day7/src/main.rs:20-38 | with fewer than five phases every stage still to come, and only those, fails |
| Amplifiers.AmplifierMoreFuel | day7/src/main.rs:20-22 | a stage whose run completes gives the same signal with a larger step bound |
| Amplifiers.Program1Output | day7/src/main.rs:400 | the first test program outputs 10 * signal + phase |
| Amplifiers.Program2Output | day7/src/main.rs:403-404 | the second test program outputs 10 * signal + 5 - phase |
| Amplifiers.Program3Output | day7/src/main.rs:407-408 | the third test program outputs 10 * signal + phase - 2, plus 7 when the phase is below 2 |
| Amplifiers.ChainStep | day7/src/main.rs:24-26 | a stage whose amplifier yields `out` passes `out` to the next stage |
| Amplifiers.Thruster1Example | day7/src/main.rs:400-401 | phases 4,3,2,1,0 on the first program give 43210 |
| Amplifiers.Thruster2Example | day7/src/main.rs:403-405 | phases 0,1,2,3,4 on the second program give 54321 |
| Amplifiers.Thruster3Example | day7/src/main.rs:407-409 | phases 1,0,4,3,2 on the third program give 65210 |
| Text.TrimStartIsSuffix | day6/src/main.rs:23 | `trim_start` leaves a suffix not starting with white space, and everything cut is white space |
| Text.TrimEndIsPrefix | day6/src/main.rs:23 | `trim_end` leaves a prefix not ending with white space, and everything cut is white space |
| Text.TrimIsSlice | day6/src/main.rs:23 | `trim` leaves a slice whose ends are not white space, and everything cut is white space |
| Text.TrimUnchanged | day6/src/main.rs:23 | a string whose ends are not white space is its own trim |
| Text.TrimIdempotent | day8/src/main.rs:26 | trimming twice is trimming once |
| Text.IndexOf | day6/src/main.rs:23 | the first occurrence of a character: it is there and not before |
| Text.IndexOfFirst | day6/src/main.rs:23 | the first `c` of `p + [c] + q`, `p` holding none, is at the length of `p` |
| Text.Lines | day6/src/main.rs:22 | `lines` yields pieces without `\n` |
| Text.LinesOfJoin | day6/src/main.rs:22 | lines written one per `\n`, none holding `\n` or ending with `\r`, read back unchanged |
| Orbits.SplitOrbit | day6/src/main.rs:23-25 | the split fails (a `None` unwrapped) exactly when there is no `)`; the two names then hold no `)` |
| Orbits.SplitOrbitOfPair | day6/src/main.rs:23-25 | `centre)planet` splits back into its two names |
| Orbits.ParseLineOfOrbit | day6/src/main.rs:23-25 | a written line reads back as its pair when the names hold no `)` and have no white space at the outer ends |
| Orbits.WritableLine | day6/src/main.rs:22-25 | the line of a writable orbit is one line and parses back to the orbit |
| Orbits.ParseMapText | day6/src/main.rs:22-25 | a map text of written orbits parses back to exactly those orbits, in order |
| Orbits.Insert | day6/src/main.rs:27 | the map's keys are exactly the planets listed |
| Orbits.LastLineWins | day6/src/main.rs:27 | a planet listed several times maps to the centre of its last line |
| Orbits.DistinctPlanetsInserted | day6/src/main.rs:22-28 | with no planet listed twice, each planet maps to its own centre |
| Orbits.Universe.constructor | day6/src/main.rs:20 | the universe starts with an empty map |
| Orbits.Universe.New | day6/src/main.rs:19-31 | fails exactly when some line lacks a `)`; otherwise the map is the insertion of the parsed lines in order |
| Orbits.InsertSnoc | day6/src/main.rs:27 | inserting one more line maps its planet to its centre, overwriting an earlier centre, and leaves every other planet as it was |
| Orbits.Universe.Path | day6/src/main.rs:45-55 | the loop's result is `Ancestors` of the planet |
| Orbits.Universe.TotalNumOrbits | day6/src/main.rs:41-43 | succeeds exactly when every planet's depth does, and is then the sum of the depths over all keys, whatever the iteration order |
| Orbits.Universe.OrbitalTransfers | day6/src/main.rs:57-71 | the result is `Transfers` of the paths of YOU and SAN, failing when either path fails |
| Orbits.StripCommonTail | day6/src/main.rs:61-70 | popping both paths until the ends differ gives `Transfers` of the two paths |
| Orbits.Ancestors | day6/src/main.rs:45-55 | a found path is non-empty and ends in COM |
| Orbits.NumOrbitsMoreFuel | day6/src/main.rs:33-39 | a depth found stays the same with a larger recursion bound |
| Orbits.AncestorsMoreFuel | day6/src/main.rs:45-55 | a path found stays the same with a larger loop bound |
| Orbits.AncestorCompose | day6/src/main.rs:37 | walking `a + b` centres up is walking `a` and then `b` |
| Orbits.NumOrbitsIsDepth | day6/src/main.rs:33-39 | `num_orbits` is the number of lookups that first reaches COM |
| Orbits.DepthIsNumOrbits | day6/src/main.rs:33-39 | a chain reaching COM first after n lookups has `num_orbits` n |
| Orbits.AncestorsAreCentres | day6/src/main.rs:48-53 | entry i of a path is the centre i + 1 lookups up, and only the last is COM |
| Orbits.AncestorAt | day6/src/main.rs:49-50 | any one entry of a path is the centre that many lookups up |
| Orbits.PathLengthIsNumOrbits | day6/src/main.rs:33-55 | for a planet other than COM, `path` succeeds exactly when `num_orbits` does and has that many entries |
| Orbits.PathExcludesPlanet | day6/src/main.rs:45-55 | a path never lists the planet it starts from unless that planet is COM |
| Orbits.SumOverSuccess | day6/src/main.rs:42 | the sum succeeds exactly when every depth does |
| Orbits.SumOverRemove | day6/src/main.rs:42 | any planet's depth can be taken out of the sum first |
| Orbits.SumInAnyOrder | day6/src/main.rs:42 | summing distinct planets' depths in any listed order gives the order-free sum |
| Orbits.CommonSuffix | day6/src/main.rs:61-68 | the common tail is no longer than either path |
| Orbits.CommonSuffixIsLongest | day6/src/main.rs:61-68 | the paths agree on the last `CommonSuffix` entries and differ on the one before, if any |
| Orbits.CommonSuffixAppend | day6/src/main.rs:61-68 | a shared tail adds its length to the common suffix |
| Orbits.Transfers | day6/src/main.rs:61-70 | fails (the popping runs dry) exactly when one path is a tail of the other; otherwise, with c the number of last entries on which the paths agree and the entries c from the end differing, it is the length of a minus c plus the length of b minus c |
| Orbits.TailIffCommonSuffix | day6/src/main.rs:61-68 | one path is a tail of the other exactly when the popping loop exhausts one of them |
| OrbitExamples.Part1TextParses | day6/src/main.rs:76 | the text of `test_part1` parses to its eleven orbits |
| OrbitExamples.Part1Total | day6/src/main.rs:74-78 | the orbit counts of `test_part1` sum to 42 |
| OrbitExamples.Part1Test | day6/src/main.rs:74-78 | `test_part1` through `Universe.New` and `TotalNumOrbits`: 42 |
| OrbitExamples.Part2TextParses | day6/src/main.rs:82 | the text of `test_part2` parses to its thirteen orbits |
| OrbitExamples.Part2Transfers | day6/src/main.rs:80-84 | the transfers of `test_part2` are 4 |
| OrbitExamples.Part2Test | day6/src/main.rs:80-84 | `test_part2` through `Universe.New` and `OrbitalTransfers`: 4 |
| SpaceImage.ToDigit | day8/src/main.rs:38 | `to_digit(10)` is some value exactly for '0'..'9', and is then the character's digit value |
| SpaceImage.Digits | day8/src/main.rs:38 | one pixel per character |
| SpaceImage.FirstNonDigit | day8/src/main.rs:38 | the position of the character that makes `unwrap` panic: not a digit, and all before it are |
| SpaceImage.LayersAreChunks | day8/src/main.rs:29-42 | layer k holds pixels k * n up to (k + 1) * n, and fewer than n pixels are left over |
| SpaceImage.LayerCount | day8/src/main.rs:29-42 | the number of layers is the number of digits divided by the layer size, rounded down |
| SpaceImage.LayersAppend | day8/src/main.rs:29-42 | layers of pixels that start on a layer boundary follow the layers before them |
| SpaceImage.DropIncomplete | day8/src/main.rs:35-37 | fewer than a layer's worth of pixels after the last boundary adds no layer |
| SpaceImage.TextEnds | day8/src/main.rs:34-37 | the text running out inside a layer keeps the layers read before it |
| SpaceImage.NonDigitStops | day8/src/main.rs:38 | a non-digit inside a layer is the first one, and the layers read before it are kept |
| SpaceImage.LayerDone | day8/src/main.rs:41 | a complete layer's worth of digits is appended as one more layer |
| SpaceImage.Count | day8/src/main.rs:48 | the number of pixels with a value is at most the layer size |
| SpaceImage.CountIsMultiplicity | day8/src/main.rs:48 | the count is the multiplicity of the value among the pixels |
| SpaceImage.FewestZeros | day8/src/main.rs:46-49 | `min_by_key` gives an index of a layer |
| SpaceImage.FewestZerosIsFirstMinimum | day8/src/main.rs:46-49 | the layer kept has the fewest zeros and every layer before it has more |
| SpaceImage.FewestZerosUnique | day8/src/main.rs:46-49 | only one layer is the first with the fewest zeros |
| SpaceImage.CompositeIsFirstOpaque | day8/src/main.rs:63-70 | a pixel's colour comes from the first layer holding 0 or 1 there, and there is one exactly when some layer holds 0 or 1 |
| SpaceImage.RowPrefixLength | day8/src/main.rs:62-71 | a row has at most w characters, exactly w when every pixel has a colour, and character x is then the colour of pixel x |
| SpaceImage.RowInImage | day8/src/main.rs:64 | every row of the image lies within a layer of w * h pixels |
| SpaceImage.RowStartBounds | day8/src/main.rs:32-33 | the row loops cover exactly w * h pixels |
| SpaceImage.Image.constructor | day8/src/main.rs:21-23 | `Image::new`: the given width and height and no layers |
| SpaceImage.Image.Fill | day8/src/main.rs:25-43 | fails exactly when the trimmed text holds a non-digit; appends the complete layers of the digits read (all of them, or those before the first non-digit), drops an incomplete last layer, and keeps every layer w * h long |
| SpaceImage.Image.ReadLayer | day8/src/main.rs:30-40 | the row and column loops read the next layer's digits, or stop where the text ends or the first non-digit lies inside the layer |
| SpaceImage.Image.Checksum | day8/src/main.rs:45-55 | fails (`unwrap` of `None`) exactly when there are no layers; otherwise ones times twos of the first layer with the fewest zeros |
| SpaceImage.Image.Render | day8/src/main.rs:57-76 | h rows, row y being, pixel by pixel, the colour of the first layer holding 0 or 1 there; a pixel with no such layer adds nothing to its row |

## Left out

- The `main` functions, `get_input` and `grab_input` are left out: they read files and print. The `Display` impls, `println!` and `dbg!` are also left out.
- Day 3 is not part of this model.
- Day 7's `main` is left out. It takes the maximum of `get_max_thruster` over all permutations of 0..=4 using `itertools`.
- Integer overflow is left out. Every integer is unbounded, so i32/i64 wrap-around and the usize overflow of `ones * twos` in `checksum` are not modelled. Only the casts (`as usize`, `as i32`, `as i64`) wrap.
- `Vec` and `String` are modelled as Dafny sequences. There is no capacity or allocation.
- The day 5 and day 7 IntCode `execute`, day 6 `num_orbits` and `path`, and the amplifier stages take a step bound `fuel`. In the source these may run forever on a looping program or a cyclic orbit map; in the model, running out of fuel is the fault `FuelExhausted`. It is not proved that a fixed bound suffices for every terminating input.
- Day 2's `execute` (`IntCodeDay2.Run`, `IntCodeDay2.IntCode.Execute`) takes no bound. Every day 2 step moves the cursor on by 4, so the run ends, and its termination is proved with the distance from the cursor to the end of memory as the measure.
- Password.HasDouble, Password.HasIncreasingNumbers: require six digits instead of modelling the out-of-bounds panic of `val[0]..val[5]` on a shorter vector. `main` calls them only after `has_six_digit` holds, and `test_increasing` passes only six-digit numbers, so no modelled caller reaches that panic.
- What the Rust state holds after a panic is not modelled. A panic is the end of the computation, and the failure value carries only its kind.
- `HashMap` iteration order is not modelled. `TotalNumOrbits` visits the keys in an arbitrary order and is proved to give the order-free sum.
- `Text.IsWhitespace` lists the Unicode White_Space characters by code point. `lines` is modelled for `\n` and `\r\n` endings only.
- SpaceImage.Image.Fill: requires `w * h > 0`. With an empty layer size the source loop pushes empty layers forever.
- SpaceImage.Image.Render: requires every layer to hold `w * h` pixels. `Fill` keeps that invariant. A shorter layer would make the source's `unwrap` panic, and that case is not modelled.
- Orbits.Universe.Path: the loop is bounded by `fuel`, and a cyclic map gives `FuelExhausted` instead of looping forever.
- Day 5 and day 7 each have their own copy of `parse_instruction`. Both are the single `Common.ParseInstruction`, because the two texts are the same apart from the integer width.
