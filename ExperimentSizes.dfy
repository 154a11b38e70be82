/**
 * The default sweeps: image sizes for the qubit-lattice/phase runs and for
 * the FRQI runs, and the sorted, duplicate-free list of shot budgets.
 */
module ExperimentSizes {
  import opened InputGeneration

  function Pow2(x: nat): nat {
    if x == 0 then 1 else 2 * Pow2(x - 1)
  }

  function Pow4(x: nat): (p: nat)
    ensures 1 <= p
  {
    if x == 0 then 1 else 4 * Pow4(x - 1)
  }

  lemma {:induction false} Pow2Squared(x: nat)
    ensures Square(Pow2(x)) == Pow4(x)
  {
    if x > 0 {
      Pow2Squared(x - 1);
      var p := Pow2(x - 1);
      assert Square(2 * p) == 4 * Square(p);
    }
  }

  /** `power_inputs(k)`: (2 ** x) ** 2 for x in 1..k, i.e. sides 2, 4, 8, ... */
  function PowerInputs(k: int): (r: seq<nat>)
    ensures |r| == if k < 0 then 0 else k
  {
    seq(if k < 0 then 0 else k, i requires 0 <= i => Square(Pow2(i + 1)))
  }

  /** `square_inputs(k)`: x ** 2 for x in 2..k, i.e. sides 2, 3, 4, ... */
  function SquareInputs(k: int): (r: seq<nat>)
    ensures |r| == if k < 2 then 0 else k - 1
  {
    seq(if k < 2 then 0 else k - 1, i requires 0 <= i => Square(i + 2))
  }

  predicate StrictlyIncreasing(s: seq<int>) {
    forall i, j :: 0 <= i < j < |s| ==> s[i] < s[j]
  }

  /**
   * power_inputs(k) holds k sizes, each a perfect square, the first 4 and each
   * next four times the previous one: 4, 16, ..., 4^k.
   */
  lemma PowerInputsShape(k: int)
    ensures |PowerInputs(k)| == if k < 0 then 0 else k
    ensures forall i :: 0 <= i < |PowerInputs(k)| ==>
              PowerInputs(k)[i] == Pow4(i + 1) && IsSquare(PowerInputs(k)[i])
    ensures forall i :: 0 <= i < |PowerInputs(k)| - 1 ==> PowerInputs(k)[i + 1] == 4 * PowerInputs(k)[i]
    ensures StrictlyIncreasing(PowerInputs(k))
  {
    var r := PowerInputs(k);
    forall i | 0 <= i < |r|
      ensures r[i] == Pow4(i + 1) && IsSquare(r[i])
    {
      Pow2Squared(i + 1);
      assert Square(Pow2(i + 1)) == r[i];
    }
    forall i, j | 0 <= i < j < |r| ensures r[i] < r[j] {
      Pow4Increasing(i + 1, j + 1);
    }
  }

  lemma {:induction false} Pow4Increasing(a: nat, b: nat)
    requires a < b
    ensures Pow4(a) < Pow4(b)
    decreases b
  {
    if a < b - 1 {
      Pow4Increasing(a, b - 1);
    }
  }

  /** square_inputs(k) holds k - 1 sizes, the squares of 2..k, strictly increasing. */
  lemma SquareInputsShape(k: int)
    ensures |SquareInputs(k)| == if k < 2 then 0 else k - 1
    ensures forall i :: 0 <= i < |SquareInputs(k)| ==> IsSquare(SquareInputs(k)[i])
    ensures 2 <= k ==> SquareInputs(k)[0] == 4 && SquareInputs(k)[k - 2] == Square(k)
    ensures StrictlyIncreasing(SquareInputs(k))
  {
    var r := SquareInputs(k);
    forall i | 0 <= i < |r| ensures IsSquare(r[i]) {
      assert Square(i + 2) == r[i];
    }
    forall i, j | 0 <= i < j < |r| ensures r[i] < r[j] {
      SquareMonotone(i + 3, j + 2);
      assert Square(i + 2) < Square(i + 3);
    }
  }

  /** The sizes the main program sweeps: square_inputs(5) and power_inputs(4). */
  lemma DefaultSizes()
    ensures SquareInputs(5) == [4, 9, 16, 25]
    ensures PowerInputs(4) == [4, 16, 64, 256]
  {
    assert Pow2(4) == 16;
  }

  // ---------------------------------------------------------------------
  // The shot sweep: sorted(set(default budgets + [shots]))

  const DefaultShots: seq<int> := [5000, 10000, 25000, 50000, 75000, 100000]

  /** x placed into a strictly increasing s, unless it is already there. */
  function Insert(s: seq<int>, x: int): (r: seq<int>)
    requires StrictlyIncreasing(s)
    ensures StrictlyIncreasing(r)
    ensures forall y :: y in r <==> y in s || y == x
    ensures |r| == if x in s then |s| else |s| + 1
  {
    if s == [] then [x]
    else if x < s[0] then [x] + s
    else if x == s[0] then s
    else
      HeadAndTail(s);
      var t := Insert(s[1..], x);
      assert forall i :: 0 <= i < |t| ==> t[i] in t;
      [s[0]] + t
  }

  /** `sorted(set(xs))`: the distinct values of xs in increasing order. */
  function SortedSet(xs: seq<int>): (r: seq<int>)
    ensures StrictlyIncreasing(r)
    ensures forall y :: y in r <==> y in xs
  {
    if xs == [] then []
    else
      var init := xs[..|xs| - 1];
      assert xs == init + [xs[|xs| - 1]];
      Insert(SortedSet(init), xs[|xs| - 1])
  }

  /** A strictly increasing sequence starts at its least value, and its tail holds the others. */
  lemma HeadAndTail(a: seq<int>)
    requires StrictlyIncreasing(a) && a != []
    ensures forall y :: y in a ==> a[0] <= y
    ensures StrictlyIncreasing(a[1..])
    ensures forall y :: y in a[1..] <==> y in a && y != a[0]
  {
    assert forall y :: y in a[1..] ==> a[0] < y;
  }

  /** A strictly increasing sequence is determined by its set of values. */
  lemma {:induction false} IncreasingUnique(a: seq<int>, b: seq<int>)
    requires StrictlyIncreasing(a) && StrictlyIncreasing(b)
    requires forall y :: y in a <==> y in b
    ensures a == b
  {
    SameValuesBothEmpty(a, b);
    if a != [] {
      HeadAndTail(a);
      HeadAndTail(b);
      assert a[0] in b && b[0] in a;
      assert a[0] == b[0];
      IncreasingUnique(a[1..], b[1..]);
      assert a == [a[0]] + a[1..] && b == [b[0]] + b[1..];
    }
  }

  lemma SameValuesBothEmpty(a: seq<int>, b: seq<int>)
    requires forall y :: y in a ==> y in b
    requires forall y :: y in b ==> y in a
    ensures a == [] <==> b == []
  {
    if a != [] {
      var y := a[0];
      assert y in a;
    }
    if b != [] {
      var y := b[0];
      assert y in b;
    }
  }

  /** The budgets the shot experiment runs, in order. */
  function ShotSweep(shots: int): (r: seq<int>)
    ensures StrictlyIncreasing(r)
    ensures shots in r && forall y :: y in DefaultShots ==> y in r
  {
    SortedSet(DefaultShots + [shots])
  }

  lemma DefaultShotsIncreasing()
    ensures StrictlyIncreasing(DefaultShots)
  {
  }

  /**
   * The sweep is strictly increasing (so free of duplicates), holds every
   * default budget and the chosen one and nothing else; it is the default
   * list itself when the chosen budget is one of them, and one longer
   * otherwise.
   */
  lemma ShotSweepShape(shots: int)
    ensures StrictlyIncreasing(ShotSweep(shots))
    ensures forall y :: y in ShotSweep(shots) <==> y in DefaultShots || y == shots
    ensures ShotSweep(shots) == Insert(DefaultShots, shots)
    ensures shots in DefaultShots ==> ShotSweep(shots) == DefaultShots
    ensures shots !in DefaultShots ==> |ShotSweep(shots)| == |DefaultShots| + 1
  {
    DefaultShotsIncreasing();
    var r := ShotSweep(shots);
    var ins := Insert(DefaultShots, shots);
    forall y ensures y in r <==> y in ins {
      assert y in DefaultShots + [shots] <==> y in DefaultShots || y == shots;
    }
    IncreasingUnique(r, ins);
    if shots in DefaultShots {
      IncreasingUnique(r, DefaultShots);
    }
  }

  /** With the default budget of 50000 the sweep is the six default budgets. */
  lemma DefaultShotSweep()
    ensures ShotSweep(50000) == [5000, 10000, 25000, 50000, 75000, 100000]
  {
    ShotSweepShape(50000);
    assert 50000 == DefaultShots[3];
  }
}
