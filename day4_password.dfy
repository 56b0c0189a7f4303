/** Password rules: a candidate number is split into its decimal digits and
    accepted when it has six digits, its digits never decrease from left to
    right, and two adjacent digits are equal. */
module Password {

  /** The decimal digits of `n`, most significant first; a value below 10
      (including every negative value) is a single element. This is what the
      loop of `number_to_vec` builds. */
  function Digits(n: int): seq<int>
    decreases n
  {
    if n <= 9 then [n] else Digits(n / 10) + [n % 10]
  }

  /** Folds digits back into a number, most significant first. */
  function FromDigits(ds: seq<int>): int
  {
    if ds == [] then 0 else FromDigits(ds[..|ds| - 1]) * 10 + ds[|ds| - 1]
  }

  function Pow10(k: nat): nat
  {
    if k == 0 then 1 else 10 * Pow10(k - 1)
  }

  function Reversed(s: seq<int>): (r: seq<int>)
    ensures |r| == |s|
  {
    if s == [] then [] else [s[|s| - 1]] + Reversed(s[..|s| - 1])
  }

  /** `number_to_vec`: push the last digit while `n > 9`, push what is left,
      then reverse the vector. */
  method NumberToVec(n: int) returns (digits: seq<int>)
    ensures digits == Digits(n)
    ensures n < 0 ==> digits == [n]
    ensures n >= 0 ==> FromDigits(digits) == n
    ensures n >= 0 ==> forall i :: 0 <= i < |digits| ==> 0 <= digits[i] <= 9
    ensures n >= 10 ==> digits[0] != 0
  {
    var rest := n;
    var pushed: seq<int> := [];
    while rest > 9
      invariant rest <= n
      invariant n >= 0 ==> rest >= 0
      invariant Digits(rest) + Reversed(pushed) == Digits(n)
    {
      assert Reversed(pushed + [rest % 10]) == [rest % 10] + Reversed(pushed) by {
        assert (pushed + [rest % 10])[..|pushed|] == pushed;
      }
      pushed := pushed + [rest % 10];
      rest := rest / 10;
    }
    assert Reversed(pushed + [rest]) == [rest] + Reversed(pushed) by {
      assert (pushed + [rest])[..|pushed|] == pushed;
    }
    pushed := pushed + [rest];
    digits := Reversed(pushed);
    if n >= 0 {
      DigitsRoundTrip(n);
      DigitsInRange(n);
    }
  }

  /** Every element of the digits of a non-negative number is a decimal digit,
      and the leading one is non-zero once the number has two digits. */
  lemma {:induction false} DigitsInRange(n: int)
    requires n >= 0
    ensures forall i :: 0 <= i < |Digits(n)| ==> 0 <= Digits(n)[i] <= 9
    ensures n >= 10 ==> Digits(n)[0] != 0
    decreases n
  {
    if n > 9 {
      DigitsInRange(n / 10);
      assert Digits(n)[0] == Digits(n / 10)[0];
    }
  }

  /** Folding the digits back gives the number. */
  lemma {:induction false} DigitsRoundTrip(n: int)
    requires n >= 0
    ensures FromDigits(Digits(n)) == n
    decreases n
  {
    if n > 9 {
      DigitsRoundTrip(n / 10);
      var ds := Digits(n);
      assert ds[..|ds| - 1] == Digits(n / 10);
    }
  }

  /** A non-negative number has at most k digits exactly when it is below 10^k. */
  lemma {:induction false} DigitsLengthBound(n: int, k: nat)
    requires n >= 0 && k >= 1
    ensures |Digits(n)| <= k <==> n < Pow10(k)
    decreases k
  {
    if k == 1 {
      assert Pow10(1) == 10;
      if n > 9 { assert |Digits(n)| == |Digits(n / 10)| + 1; }
    } else if n > 9 {
      DigitsLengthBound(n / 10, k - 1);
      assert |Digits(n)| == |Digits(n / 10)| + 1;
    } else {
      assert Pow10(k) == 10 * Pow10(k - 1);
      assert Pow10(k - 1) >= 1 by { PowPositive(k - 1); }
    }
  }

  lemma {:induction false} PowPositive(k: nat)
    ensures Pow10(k) >= 1
  {
    if k > 0 { PowPositive(k - 1); }
  }

  /** `has_six_digit`. */
  predicate HasSixDigit(val: seq<int>)
  {
    |val| == 6
  }

  /** `has_double`: some adjacent pair among the first six digits is equal. */
  predicate HasDouble(val: seq<int>)
    requires |val| >= 6
  {
    val[0] == val[1] || val[1] == val[2] || val[2] == val[3] || val[3] == val[4] || val[4] == val[5]
  }

  /** `has_increasing_numbers`: the first six digits never decrease. */
  predicate HasIncreasingNumbers(val: seq<int>)
    requires |val| >= 6
  {
    val[0] <= val[1] && val[1] <= val[2] && val[2] <= val[3] && val[3] <= val[4] && val[4] <= val[5]
  }

  /** A number passes the six-digit test on its digits exactly when it lies in
      100000..=999999. */
  lemma SixDigitRange(n: int)
    ensures HasSixDigit(Digits(n)) <==> 100000 <= n <= 999999
  {
    if n >= 0 {
      assert Pow10(5) == 100000 && Pow10(6) == 1000000;
      DigitsLengthBound(n, 5);
      DigitsLengthBound(n, 6);
    }
  }

  /** The adjacent comparisons amount to "sorted": every earlier digit is at
      most every later one. */
  lemma IncreasingIsSorted(val: seq<int>)
    requires |val| == 6
    ensures HasIncreasingNumbers(val) <==> forall i, j :: 0 <= i <= j < 6 ==> val[i] <= val[j]
  {
  }

  /** The adjacent tests amount to "some neighbouring pair is equal". */
  lemma DoubleIsAdjacentPair(val: seq<int>)
    requires |val| == 6
    ensures HasDouble(val) <==> exists i :: 0 <= i < 5 && val[i] == val[i + 1]
  {
    if HasDouble(val) {
      if val[0] == val[1] { assert val[0] == val[0 + 1]; }
      else if val[1] == val[2] { assert val[1] == val[1 + 1]; }
      else if val[2] == val[3] { assert val[2] == val[2 + 1]; }
      else if val[3] == val[4] { assert val[3] == val[3 + 1]; }
      else { assert val[4] == val[4 + 1]; }
    }
  }

  /** The test in the body of `main`. Because `&&` short-circuits, the two
      indexing predicates only ever see six-element vectors. */
  predicate IsPassword(n: int)
  {
    var nums := Digits(n);
    HasSixDigit(nums) && HasIncreasingNumbers(nums) && HasDouble(nums)
  }

  /** The loop of `main`: every number of `lo..=hi` that passes, in increasing
      order (the count printed is the length of this sequence). */
  method CollectPasswords(lo: int, hi: int) returns (results: seq<int>)
    ensures forall x :: x in results <==> lo <= x <= hi && IsPassword(x)
    ensures forall i, j :: 0 <= i < j < |results| ==> results[i] < results[j]
  {
    results := [];
    var i := lo;
    while i <= hi
      invariant lo <= i <= if hi < lo then lo else hi + 1
      invariant forall x :: x in results <==> lo <= x < i && IsPassword(x)
      invariant forall k :: 0 <= k < |results| ==> results[k] < i
      invariant forall k, j :: 0 <= k < j < |results| ==> results[k] < results[j]
    {
      var nums := NumberToVec(i);
      if HasSixDigit(nums) && HasIncreasingNumbers(nums) && HasDouble(nums) {
        results := results + [i];
      }
      i := i + 1;
    }
  }

  /** The cases of the unit test `test_increasing`. */
  lemma IncreasingExamples()
    ensures !HasIncreasingNumbers(Digits(245322))
    ensures HasIncreasingNumbers(Digits(123456))
    ensures HasIncreasingNumbers(Digits(111111))
  {
    assert Digits(24) == [2, 4];
    assert Digits(2453) == Digits(245) + [3] == [2, 4, 5, 3];
    assert Digits(245322) == Digits(24532) + [2] == [2, 4, 5, 3, 2, 2];
    assert Digits(12) == [1, 2];
    assert Digits(1234) == Digits(123) + [4] == [1, 2, 3, 4];
    assert Digits(123456) == Digits(12345) + [6] == [1, 2, 3, 4, 5, 6];
    assert Digits(11) == [1, 1];
    assert Digits(1111) == Digits(111) + [1] == [1, 1, 1, 1];
    assert Digits(111111) == Digits(11111) + [1] == [1, 1, 1, 1, 1, 1];
  }
}
