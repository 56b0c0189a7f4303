/** Helpers shared by the puzzle modules: failure-carrying results and the
    integer semantics of Rust that the puzzles rely on (truncating division
    and remainder, and the `as` casts between signed integers and `usize`). */
module Common {

  datatype Option<T> = None | Some(value: T)

  datatype Result<T, E> = Success(value: T) | Failure(error: E)
  {
    predicate IsFailure() { Failure? }

    function PropagateFailure<U>(): Result<U, E>
      requires Failure?
    {
      Failure(error)
    }

    function Extract(): T
      requires Success?
    {
      value
    }
  }

  /** Why an operation stops abnormally. The first three are panics of the
      IntCode machines (an opcode that matches no arm, an index outside memory
      or outside a decoded window, `pop().unwrap()` on an empty input);
      NoOutput is `expect` on an empty output in the amplifier chain;
      MissingValue is any other `unwrap()` of a `None` (an unknown planet, a
      line without a `)`, an exhausted path, an image without layers);
      NotADigit is `to_digit(10).unwrap()` on another character; and
      FuelExhausted is the model's own step bound, where the source may loop
      or recurse forever. */
  datatype Fault = UnknownOpcode | OutOfBounds | EmptyInput | NoOutput | MissingValue | NotADigit | FuelExhausted

  /** Rust's `/` on integers rounds toward zero (Dafny's rounds toward minus
      infinity for a positive divisor). Every divisor in the puzzles is positive. */
  function TruncDiv(a: int, b: int): (q: int)
    requires b > 0
    ensures a >= 0 ==> q == a / b
    ensures a < 0 ==> q <= 0 && b * q >= a && b * q - a < b
  {
    if a >= 0 then a / b else -((-a) / b)
  }

  /** Rust's `%`: the remainder takes the sign of the dividend. */
  function TruncRem(a: int, b: int): (r: int)
    requires b > 0
    ensures a >= 0 ==> r == a % b
    ensures a < 0 ==> -b < r <= 0
  {
    if a >= 0 then a % b else -((-a) % b)
  }

  /** The truncating remainder is what the truncating quotient leaves over. */
  lemma TruncDivRem(a: int, b: int)
    requires b > 0
    ensures a == b * TruncDiv(a, b) + TruncRem(a, b)
  {
  }

  /** Number of distinct `usize` values on a 64-bit target. */
  const USIZE_MODULUS: nat := 0x1_0000_0000_0000_0000

  /** `v as usize`: the two's-complement bits of `v` read as unsigned. */
  function AsUsize(v: int): (u: nat)
    ensures u < USIZE_MODULUS
    ensures 0 <= v < USIZE_MODULUS ==> u == v
    ensures -(USIZE_MODULUS as int) <= v < 0 ==> u == v + USIZE_MODULUS
  {
    v % USIZE_MODULUS
  }

  /** `u as i64` for a `usize` value `u`: the 64 bits read as signed. */
  function UsizeAsI64(u: nat): int
  {
    var low := u % USIZE_MODULUS;
    if low < USIZE_MODULUS / 2 then low else low - USIZE_MODULUS
  }

  /** `u as i32` for a `usize` value `u`: the low 32 bits, read as signed. */
  function UsizeAsI32(u: nat): int
  {
    var low := u % 0x1_0000_0000;
    if low < 0x8000_0000 then low else low - 0x1_0000_0000
  }

  predicate InI32(v: int) { -0x8000_0000 <= v < 0x8000_0000 }

  predicate InI64(v: int) { -0x8000_0000_0000_0000 <= v < 0x8000_0000_0000_0000 }

  /** Casting an i64 to usize and back gives the original value. */
  lemma UsizeRoundTripI64(v: int)
    requires InI64(v)
    ensures UsizeAsI64(AsUsize(v)) == v
  {
  }

  /** Casting an i32 to usize and back to i32 gives the original value. */
  lemma UsizeRoundTripI32(v: int)
    requires InI32(v)
    ensures UsizeAsI32(AsUsize(v)) == v
  {
  }

  /** `parse_instruction` (the same in the diagnostic and the amplifier
      machines): the opcode is the last decimal digit and each mode flag says
      whether the hundreds (thousands) digit is 1; Rust's `/` and `%` truncate,
      so a negative word yields a non-positive opcode and no flag. */
  function ParseInstruction(instruction: int): (r: (int, bool, bool))
    ensures instruction >= 0 ==> r.0 == instruction % 10
    ensures instruction >= 0 ==> (r.1 <==> instruction / 100 % 10 == 1)
    ensures instruction >= 0 ==> (r.2 <==> instruction / 1000 % 10 == 1)
    ensures instruction < 0 ==> -9 <= r.0 <= 0 && !r.1 && !r.2
  {
    if instruction >= 0 then
      (instruction % 10, instruction / 100 % 10 == 1, instruction / 1000 % 10 == 1)
    else
      (-((-instruction) % 10), false, false)
  }

  /** `parse_instruction` as Rust evaluates it, with truncating `/` and `%`:
      a negative word's hundreds and thousands "digits" are never 1. */
  lemma ParseInstructionTruncates(instruction: int)
    ensures ParseInstruction(instruction) ==
      (TruncRem(instruction, 10),
       TruncRem(TruncDiv(instruction, 100), 10) == 1,
       TruncRem(TruncDiv(instruction, 1000), 10) == 1)
  {
  }

  /** Division with remainder, read backwards: `q * d + r` with `0 <= r < d`
      has quotient `q` and remainder `r`. */
  lemma DivMod(n: int, d: int, q: int, r: int)
    requires d > 0 && 0 <= r < d && n == q * d + r
    ensures n / d == q && n % d == r
  {
    var k := q - n / d;
    assert k * d == q * d - (n / d) * d;
    assert k * d == n % d - r;
  }

  /** Writing an instruction word from its parts and parsing it gives the parts
      back: any higher digits, and any tens digit, are ignored. */
  lemma ParseInstructionDigits(code: int, mode1: int, mode2: int, tens: int, high: nat)
    requires 0 <= code <= 9 && 0 <= tens <= 9
    requires 0 <= mode1 <= 9 && 0 <= mode2 <= 9
    ensures ParseInstruction(high * 10000 + mode2 * 1000 + mode1 * 100 + tens * 10 + code)
         == (code, mode1 == 1, mode2 == 1)
  {
    var w := high * 10000 + mode2 * 1000 + mode1 * 100 + tens * 10 + code;
    var upper := high * 10 + mode2;
    DivMod(w, 10, upper * 100 + mode1 * 10 + tens, code);
    DivMod(w, 100, upper * 10 + mode1, tens * 10 + code);
    DivMod(w, 1000, upper, mode1 * 100 + tens * 10 + code);
    DivMod(upper * 10 + mode1, 10, upper, mode1);
    DivMod(upper, 10, high, mode2);
  }

  /** The loop of `execute`, for any machine: step while `parsable` holds, at
      most `fuel` times, stopping at the first failure. */
  function Iterate<S>(step: S -> Result<S, Fault>, parsable: S -> bool, s: S, fuel: nat): Result<S, Fault>
    decreases fuel
  {
    if !parsable(s) then Success(s)
    else if fuel == 0 then Failure(FuelExhausted)
    else match step(s)
      case Failure(e) => Failure(e)
      case Success(next) => Iterate(step, parsable, next, fuel - 1)
  }

  /** More fuel does not change a run that already completes. */
  lemma {:induction false} IterateMoreFuel<S>(step: S -> Result<S, Fault>, parsable: S -> bool, s: S, fuel: nat, more: nat)
    requires Iterate(step, parsable, s, fuel).Success? && fuel <= more
    ensures Iterate(step, parsable, s, more) == Iterate(step, parsable, s, fuel)
    decreases fuel
  {
    if parsable(s) {
      IterateMoreFuel(step, parsable, step(s).value, fuel - 1, more - 1);
    }
  }

  /** Apply `f` to every element in order; the first failure is the result. */
  function CollectResults<A, B>(f: A -> Result<B, Fault>, xs: seq<A>): (r: Result<seq<B>, Fault>)
    ensures r.Success? ==> |r.value| == |xs|
  {
    if xs == [] then Success([])
    else
      var init :- CollectResults(f, xs[..|xs| - 1]);
      var last :- f(xs[|xs| - 1]);
      Success(init + [last])
  }

  /** Collecting one element more appends its value to what was collected. */
  lemma CollectResultsSnoc<A, B>(f: A -> Result<B, Fault>, xs: seq<A>, i: nat, ys: seq<B>, y: B)
    requires i < |xs| && CollectResults(f, xs[..i]) == Success(ys) && f(xs[i]) == Success(y)
    ensures CollectResults(f, xs[..i + 1]) == Success(ys + [y])
  {
    assert xs[..i + 1][..i] == xs[..i];
  }

  /** Collecting succeeds exactly when every element does, and then result
      `k` is the value for element `k`. */
  lemma {:induction false} CollectResultsEach<A, B>(f: A -> Result<B, Fault>, xs: seq<A>)
    ensures CollectResults(f, xs).Success? <==> forall k :: 0 <= k < |xs| ==> f(xs[k]).Success?
    ensures CollectResults(f, xs).Success? ==>
      forall k :: 0 <= k < |xs| ==> f(xs[k]) == Success(CollectResults(f, xs).value[k])
  {
    if xs != [] {
      var n := |xs| - 1;
      var init := xs[..n];
      CollectResultsEach(f, init);
      assert forall k :: 0 <= k < n ==> init[k] == xs[k];
      if CollectResults(f, xs).Success? {
        var r := CollectResults(f, xs).value;
        assert r == CollectResults(f, init).value + [f(xs[n]).value];
        assert forall k :: 0 <= k < n ==> r[k] == CollectResults(f, init).value[k];
      }
    }
  }

  /** When `f` maps each input to the matching output, collecting gives all
      the outputs, in order. */
  lemma CollectResultsOfEach<A, B>(f: A -> Result<B, Fault>, xs: seq<A>, ys: seq<B>)
    requires |xs| == |ys|
    requires forall k :: 0 <= k < |xs| ==> f(xs[k]) == Success(ys[k])
    ensures CollectResults(f, xs) == Success(ys)
  {
    CollectResultsEach(f, xs);
    var r := CollectResults(f, xs).value;
    assert forall k :: 0 <= k < |xs| ==> r[k] == ys[k];
    assert r == ys;
  }
}
