/**
 * The accuracy score each experiment computes after decoding: the mean, over
 * the n pixels, of how close the reconstructed value is to the inverted
 * original 255 - x (the circuits invert every pixel before measuring).
 * Arithmetic is exact (`real`).
 */
module Accuracy {
  import opened Outcomes
  import opened InputGeneration

  /**
   * A term or a mean as numpy and statistics.fmean compute it: a finite value,
   * or minus infinity, which a numpy division by zero (x / 0 == inf) makes of
   * 1 - inf.
   */
  datatype Extended = Finite(v: real) | MinusInfinity

  /** What the comprehension or statistics.fmean raise instead of a score. */
  datatype AccuracyError =
    | IndexError          // the original or the reconstructed vector has fewer than n values
    | EmptyMeanError      // n <= 0: fmean of an empty list

  /** The value a perfect reconstruction of original grey value x holds. */
  function Expected(x: int): int {
    Stop - x
  }

  function Abs(v: real): real {
    if v < 0.0 then -v else v
  }

  /**
   * One term of the comprehension: 1 when the output is the expected value,
   * otherwise 1 - |output - expected| / max(expected, output). The grey values
   * are numpy integers, so a zero denominator yields inf rather than raising,
   * and the term is minus infinity; that happens exactly when the values
   * differ while the larger of them is 0, i.e. one is 0 and the other negative.
   */
  function Term(x: int, y: real): (t: Extended)
    ensures t == MinusInfinity <==>
      (Expected(x) == 0 && y < 0.0) || (y == 0.0 && Expected(x) < 0)
  {
    var e := Expected(x) as real;
    if e != y then
      var m := if y > e then y else e;
      if m == 0.0 then MinusInfinity else Finite(1.0 - Abs(y - e) / m)
    else
      Finite(1.0)
  }

  /** A term is exactly 1 when, and only when, the pixel was reconstructed exactly. */
  lemma TermExact(x: int, y: real)
    ensures Term(x, y) == Finite(1.0) <==> y == Expected(x) as real
  {
    var e := Expected(x) as real;
    if e != y {
      var m := if y > e then y else e;
      if m != 0.0 {
        assert Abs(y - e) / m != 0.0;
      }
    }
  }

  /**
   * For an original grey value (at most 255) and a non-negative output the
   * term is finite and lies in [0, 1]; it is 0 exactly when the values differ
   * and the smaller of them is 0.
   */
  lemma TermInUnitRange(x: int, y: real)
    requires x <= Stop && 0.0 <= y
    ensures Term(x, y).Finite?
    ensures 0.0 <= Term(x, y).v <= 1.0
    ensures Term(x, y).v == 0.0 <==>
      Expected(x) as real != y && (Expected(x) == 0 || y == 0.0)
  {
    var e := Expected(x) as real;
    if e != y {
      var m := if y > e then y else e;
      var d := Abs(y - e);
      assert 0.0 < m && 0.0 < d <= m;
      assert d / m <= 1.0 by {
        assert d / m * m == d;
      }
      assert d / m == 1.0 <==> d == m;
    }
  }

  /**
   * The list `[term(i) for i in range(n)]`, evaluated in index order: it
   * exists exactly when both vectors hold n values, and otherwise the first
   * index past either end raises IndexError.
   */
  function Terms(input: seq<int>, output: seq<real>, n: nat): (r: Result<seq<Extended>, AccuracyError>)
    ensures r.Success? <==> n <= |input| && n <= |output|
    ensures r.Failure? ==> r.error == IndexError
    ensures r.Success? ==> |r.value| == n
  {
    if n == 0 then Success([])
    else
      match Terms(input, output, n - 1)
      case Failure(e) => Failure(e)
      case Success(ts) =>
        if n - 1 >= |input| || n - 1 >= |output| then Failure(IndexError)
        else Success(ts + [Term(input[n - 1], output[n - 1])])
  }

  /** When the comprehension succeeds, its i-th entry is pixel i's term. */
  lemma {:induction false} TermsSpec(input: seq<int>, output: seq<real>, n: nat)
    ensures Terms(input, output, n).Success? ==> forall i :: 0 <= i < n ==>
              Terms(input, output, n).value[i] == Term(input[i], output[i])
  {
    if n > 0 {
      TermsSpec(input, output, n - 1);
    }
  }

  function Sum(s: seq<real>): real {
    if s == [] then 0.0 else s[0] + Sum(s[1..])
  }

  /**
   * Values in [0, 1] sum to something in [0, |s|], and to |s| exactly when
   * every value is 1.
   */
  lemma {:induction false} SumBounds(s: seq<real>)
    requires forall i :: 0 <= i < |s| ==> 0.0 <= s[i] <= 1.0
    ensures 0.0 <= Sum(s) <= |s| as real
    ensures Sum(s) == |s| as real <==> forall i :: 0 <= i < |s| ==> s[i] == 1.0
  {
    if s != [] {
      var t := s[1..];
      SumBounds(t);
      assert forall i :: 0 <= i < |t| ==> t[i] == s[i + 1];
      assert (forall i :: 0 <= i < |s| ==> s[i] == 1.0) <==>
             s[0] == 1.0 && forall i :: 0 <= i < |t| ==> t[i] == 1.0;
    }
  }

  /** The finite terms' values, with 0 standing in for minus infinity. */
  function Reals(ts: seq<Extended>): seq<real> {
    seq(|ts|, i requires 0 <= i < |ts| => if ts[i].Finite? then ts[i].v else 0.0)
  }

  /**
   * statistics.fmean of a non-empty list of terms: its exact sum (fsum)
   * divided by the length, or minus infinity once any term is.
   */
  function Mean(ts: seq<Extended>): Extended
    requires ts != []
  {
    if MinusInfinity in ts then MinusInfinity
    else Finite(Sum(Reals(ts)) / |ts| as real)
  }

  /**
   * The score: `statistics.fmean` of the terms over range(n). A non-positive n
   * gives an empty list, which fmean rejects; vectors shorter than n raise
   * IndexError; otherwise the score exists, and it is minus infinity exactly
   * when some pixel's term is.
   */
  function Score(input: seq<int>, output: seq<real>, n: int): (r: Result<Extended, AccuracyError>)
    ensures n <= 0 ==> r == Failure(EmptyMeanError)
    ensures 0 < n ==> (r.Success? <==> n <= |input| && n <= |output|)
    ensures 0 < n && r.Failure? ==> r.error == IndexError
    ensures r.Success? ==>
      (r.value == MinusInfinity <==> exists i :: 0 <= i < n && Term(input[i], output[i]) == MinusInfinity)
  {
    if n <= 0 then Failure(EmptyMeanError)
    else
      match Terms(input, output, n)
      case Failure(e) => Failure(e)
      case Success(ts) =>
        TermsSpec(input, output, n);
        Success(Mean(ts))
  }

  /** Grey values in 0..255 and non-negative outputs. */
  ghost predicate WellFormed(input: seq<int>, output: seq<real>, n: int) {
    0 < n <= |input| && n <= |output| &&
    (forall i :: 0 <= i < n ==> 0 <= input[i] <= Stop) &&
    (forall i :: 0 <= i < n ==> 0.0 <= output[i])
  }

  /**
   * On well-formed vectors every term exists, is finite, lies in [0, 1], and
   * is 1 exactly when its pixel was reconstructed as the inverted original.
   */
  lemma TermsInUnitRange(input: seq<int>, output: seq<real>, n: int)
    requires WellFormed(input, output, n)
    ensures Terms(input, output, n).Success? && |Terms(input, output, n).value| == n
    ensures forall i :: 0 <= i < n ==>
              Terms(input, output, n).value[i].Finite? && 0.0 <= Terms(input, output, n).value[i].v <= 1.0
    ensures (forall i :: 0 <= i < n ==> Terms(input, output, n).value[i] == Finite(1.0)) <==>
            (forall i :: 0 <= i < n ==> output[i] == Expected(input[i]) as real)
  {
    TermsSpec(input, output, n);
    var ts := Terms(input, output, n).value;
    forall i | 0 <= i < n
      ensures ts[i].Finite? && 0.0 <= ts[i].v <= 1.0
      ensures ts[i] == Finite(1.0) <==> output[i] == Expected(input[i]) as real
    {
      TermInUnitRange(input[i], output[i]);
      TermExact(input[i], output[i]);
    }
  }

  /**
   * On well-formed vectors the score exists, is finite, lies in [0, 1], and is
   * 1 exactly when every pixel was reconstructed as its inverted original.
   */
  lemma ScoreInUnitRange(input: seq<int>, output: seq<real>, n: int)
    requires WellFormed(input, output, n)
    ensures Score(input, output, n).Success? && Score(input, output, n).value.Finite?
    ensures 0.0 <= Score(input, output, n).value.v <= 1.0
    ensures Score(input, output, n).value == Finite(1.0) <==>
      forall i :: 0 <= i < n ==> output[i] == Expected(input[i]) as real
  {
    TermsInUnitRange(input, output, n);
    var ts := Terms(input, output, n).value;
    assert MinusInfinity !in ts;
    var rs := Reals(ts);
    assert forall i :: 0 <= i < n ==> rs[i] == ts[i].v;
    assert (forall i :: 0 <= i < |rs| ==> rs[i] == 1.0) <==>
           (forall i :: 0 <= i < n ==> ts[i] == Finite(1.0));
    SumBounds(rs);
    MeanBounds(Sum(rs), n as real);
  }

  lemma MeanBounds(s: real, n: real)
    requires 0.0 < n && 0.0 <= s <= n
    ensures 0.0 <= s / n <= 1.0
    ensures s / n == 1.0 <==> s == n
  {
    assert s / n * n == s;
  }

  /** Input 10 reconstructed as 245 scores 1; reconstructed as 0 it scores 0. */
  lemma ScoreExamples()
    ensures Score([10], [245.0], 1) == Success(Finite(1.0))
    ensures Score([10], [0.0], 1) == Success(Finite(0.0))
  {
    assert Term(10, 245.0) == Finite(1.0);
    assert Terms([10], [245.0], 1) == Success([] + [Finite(1.0)]);
    assert Term(10, 0.0) == Finite(1.0 - 245.0 / 245.0);
    assert Terms([10], [0.0], 1) == Success([] + [Finite(0.0)]);
    assert Reals([Finite(0.0)]) == [0.0];
  }

  /**
   * White (255) reconstructed as a negative value: its expected value is 0, so
   * the denominator max(0, -1) is 0 and the whole score is minus infinity
   * rather than an error.
   */
  lemma MinusInfinityScore()
    ensures Score([0, 255], [245.0, -1.0], 2) == Success(MinusInfinity)
  {
    assert Term(255, -1.0) == MinusInfinity;
  }

  /**
   * A reversing input whose size is not a perfect square is shorter than n,
   * so the accuracy comprehension runs off its end whatever was decoded.
   */
  lemma ReversingNonSquareHasNoScore(n: nat, output: seq<real>)
    requires !IsSquare(n)
    ensures Score(InputVector(n, Reversing), output, n) == Failure(IndexError)
  {
    ReversingShape(n);
    assert Square(ISqrt(n)) != n;
  }
}
