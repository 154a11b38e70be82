/**
 * Input generation of the benchmark pipeline (`prepareInput`): a vector of
 * grey values in [0, 255] laid out in one of several spatial orders, and the
 * angle each value is mapped to by linear interpolation.
 */
module InputGeneration {
  import opened Outcomes

  /** The stop value of the evenly spaced vector (the top of the grey range). */
  const Stop: int := 255

  function Square(k: nat): nat { k * k }

  ghost predicate IsSquare(n: nat) {
    exists k: nat :: Square(k) == n
  }

  lemma SquareMonotone(a: nat, b: nat)
    requires a <= b
    ensures Square(a) <= Square(b)
  {
    assert a * a <= a * b <= b * b;
  }

  /**
   * The image side `int(math.sqrt(n))`, taken as the exact integer square
   * root; the float square root agrees with it while n stays below 2^52.
   */
  function ISqrt(n: nat): (side: nat)
    ensures Square(side) <= n < Square(side + 1)
  {
    if n == 0 then 0
    else
      var r := ISqrt(n - 1);
      assert Square(r + 2) == Square(r + 1) + 2 * r + 3;
      if Square(r + 1) <= n then r + 1 else r
  }

  /** Any k bracketing n the way ISqrt's result does is that result. */
  lemma ISqrtUnique(n: nat, k: nat)
    requires Square(k) <= n < Square(k + 1)
    ensures ISqrt(n) == k
  {
    var s := ISqrt(n);
    if s < k {
      SquareMonotone(s + 1, k);
    } else if s > k {
      SquareMonotone(k + 1, s);
    }
  }

  /** The side squared gives back n exactly when n is a perfect square. */
  lemma ISqrtSquareIff(n: nat)
    ensures Square(ISqrt(n)) == n <==> IsSquare(n)
  {
    if IsSquare(n) {
      var k: nat :| Square(k) == n;
      assert Square(k + 1) == Square(k) + 2 * k + 1;
      ISqrtUnique(n, k);
    }
  }

  // ---------------------------------------------------------------------
  // The evenly spaced vector `np.linspace(0, 255, num=n, dtype=int)`

  /**
   * Element i of the evenly spaced vector, taken as floor(255 * i / (n - 1)).
   * numpy computes i * (255 / (n - 1)) in floating point and then truncates,
   * so at some indices its value can be one less than this exact quotient.
   */
  function LinspaceAt(n: nat, i: nat): (r: int)
    requires i < n
    ensures 0 <= r <= Stop
    ensures i == 0 ==> r == 0
    ensures 2 <= n && i == n - 1 ==> r == Stop
  {
    if n == 1 then 0
    else
      MulDivCancel(Stop, n - 1);
      DivMonotone(Stop * i, Stop * (n - 1), n - 1);
      Stop * i / (n - 1)
  }

  /** The evenly spaced vector: n values from 0 up to 255. */
  function Linspace(n: nat): (r: seq<int>)
    ensures |r| == n
    ensures forall i :: 0 <= i < n ==> 0 <= r[i] <= Stop
  {
    seq(n, i requires 0 <= i < n => LinspaceAt(n, i))
  }

  lemma MulLeft(d: int, x: int, y: int)
    requires 0 < d && x <= y
    ensures d * x <= d * y
  {
  }

  lemma DivMonotone(a: int, b: int, d: int)
    requires 0 <= a <= b && 0 < d
    ensures a / d <= b / d
  {
    var qa, ra := a / d, a % d;
    var qb, rb := b / d, b % d;
    assert a == d * qa + ra && 0 <= ra < d;
    assert b == d * qb + rb && 0 <= rb < d;
    if qa > qb {
      MulLeft(d, qb + 1, qa);
    }
  }

  lemma MulDivCancel(k: int, m: int)
    requires 0 < m
    ensures k * m / m == k
  {
    var q, r := (k * m) / m, (k * m) % m;
    assert k * m == m * q + r && 0 <= r < m;
    if q < k {
      MulLeft(m, q + 1, k);
    } else if q > k {
      MulLeft(m, k + 1, q);
    }
  }

  /** One step of the evenly spaced vector never goes down. */
  lemma LinspaceAtMonotone(n: nat, i: nat, j: nat)
    requires 2 <= n && i <= j < n
    ensures LinspaceAt(n, i) <= LinspaceAt(n, j)
  {
    DivMonotone(Stop * i, Stop * j, n - 1);
  }

  /** The evenly spaced vector never decreases. */
  lemma LinspaceMonotone(n: nat)
    ensures forall i, j :: 0 <= i <= j < n ==> Linspace(n)[i] <= Linspace(n)[j]
  {
    var v := Linspace(n);
    forall i, j | 0 <= i <= j < n
      ensures v[i] <= v[j]
    {
      if n >= 2 {
        LinspaceAtMonotone(n, i, j);
      }
    }
  }

  /**
   * The evenly spaced vector has n entries, starts at 0, ends at 255 when it
   * has two entries or more, never decreases and stays within [0, 255].
   */
  lemma LinspaceShape(n: nat)
    ensures |Linspace(n)| == n
    ensures n >= 1 ==> Linspace(n)[0] == 0
    ensures n >= 2 ==> Linspace(n)[n - 1] == Stop
    ensures forall i, j :: 0 <= i <= j < n ==> Linspace(n)[i] <= Linspace(n)[j]
    ensures forall i :: 0 <= i < n ==> 0 <= Linspace(n)[i] <= Stop
  {
    LinspaceMonotone(n);
  }

  // ---------------------------------------------------------------------
  // Angle conversion `np.interp(values, input_range, angle_range)`

  /**
   * Two-point linear interpolation as numpy performs it: values at or below
   * the low end of the input range give the low angle, values at or above
   * the high end give the high angle, and values between are interpolated.
   */
  function Interp(x: int, inLo: int, inHi: int, aLo: real, aHi: real): (a: real)
    requires inLo < inHi
    ensures x == inLo ==> a == aLo
    ensures x == inHi ==> a == aHi
    ensures aLo <= aHi ==> aLo <= a <= aHi
  {
    if x <= inLo then aLo
    else if x >= inHi then aHi
    else
      var t := Fraction(x - inLo, inHi - inLo);
      var d := aHi - aLo;
      ScaleWithin(t, d);
      aLo + t * d
  }

  /** The share num / den of a whole, as a real between 0 and 1. */
  function Fraction(num: int, den: int): (t: real)
    requires 0 <= num <= den && 0 < den
    ensures 0.0 <= t <= 1.0
  {
    var t := num as real / den as real;
    assert t * den as real == num as real;
    t
  }

  lemma ScaleWithin(t: real, d: real)
    requires 0.0 <= t <= 1.0
    ensures 0.0 <= d ==> 0.0 <= t * d <= d
  {
    if 0.0 <= d {
      assert d - t * d == (1.0 - t) * d;
    }
  }

  /** A larger value never gets a smaller angle when the angle range ascends. */
  lemma InterpMonotone(x: int, y: int, inLo: int, inHi: int, aLo: real, aHi: real)
    requires inLo < inHi && aLo <= aHi && x <= y
    ensures Interp(x, inLo, inHi, aLo, aHi) <= Interp(y, inLo, inHi, aLo, aHi)
  {
    if inLo < x <= y < inHi {
      var d := (inHi - inLo) as real;
      var tx := (x - inLo) as real / d;
      var ty := (y - inLo) as real / d;
      assert ty - tx == (y - x) as real / d;
      assert tx <= ty;
      assert tx * (aHi - aLo) <= ty * (aHi - aLo);
    }
  }

  /** The angle of every value of a vector, in the vector's order. */
  function Angles(v: seq<int>, inLo: int, inHi: int, aLo: real, aHi: real): (r: seq<real>)
    requires inLo < inHi
    ensures |r| == |v|
    ensures forall i :: 0 <= i < |v| && v[i] <= inLo ==> r[i] == aLo
    ensures forall i :: 0 <= i < |v| && inHi <= v[i] ==> r[i] == aHi
    ensures aLo <= aHi ==> forall i :: 0 <= i < |v| ==> aLo <= r[i] <= aHi
    ensures aLo <= aHi ==> forall i, j :: 0 <= i < |v| && 0 <= j < |v| && v[i] <= v[j] ==> r[i] <= r[j]
  {
    InterpOrder(v, inLo, inHi, aLo, aHi);
    seq(|v|, i requires 0 <= i < |v| => Interp(v[i], inLo, inHi, aLo, aHi))
  }

  /** Interpolating a whole vector keeps the order of its values. */
  lemma InterpOrder(v: seq<int>, inLo: int, inHi: int, aLo: real, aHi: real)
    requires inLo < inHi
    ensures aLo <= aHi ==> forall i, j :: 0 <= i < |v| && 0 <= j < |v| && v[i] <= v[j] ==>
              Interp(v[i], inLo, inHi, aLo, aHi) <= Interp(v[j], inLo, inHi, aLo, aHi)
  {
    if aLo <= aHi {
      forall i, j | 0 <= i < |v| && 0 <= j < |v| && v[i] <= v[j]
        ensures Interp(v[i], inLo, inHi, aLo, aHi) <= Interp(v[j], inLo, inHi, aLo, aHi)
      {
        InterpMonotone(v[i], v[j], inLo, inHi, aLo, aHi);
      }
    }
  }

  /**
   * The angles of the evenly spaced vector over the grey range [0, 255] start
   * at the low angle, end at the high angle, never decrease and stay in range.
   */
  lemma LinearAngles(n: nat, aLo: real, aHi: real)
    requires aLo <= aHi
    ensures |Angles(Linspace(n), 0, Stop, aLo, aHi)| == n
    ensures n >= 1 ==> Angles(Linspace(n), 0, Stop, aLo, aHi)[0] == aLo
    ensures n >= 2 ==> Angles(Linspace(n), 0, Stop, aLo, aHi)[n - 1] == aHi
    ensures forall i, j :: 0 <= i <= j < n ==>
              Angles(Linspace(n), 0, Stop, aLo, aHi)[i] <= Angles(Linspace(n), 0, Stop, aLo, aHi)[j]
    ensures forall i :: 0 <= i < n ==> aLo <= Angles(Linspace(n), 0, Stop, aLo, aHi)[i] <= aHi
  {
    LinspaceShape(n);
    var v := Linspace(n);
    var a := Angles(v, 0, Stop, aLo, aHi);
    forall i, j | 0 <= i <= j < n
      ensures a[i] <= a[j]
    {
      InterpMonotone(v[i], v[j], 0, Stop, aLo, aHi);
    }
  }

  // ---------------------------------------------------------------------
  // The serpentine ("reversing") order

  /** The sequence read backwards: position k holds the k-th value from the end. */
  function Reverse(s: seq<int>): (r: seq<int>)
    ensures |r| == |s|
  {
    seq(|s|, k requires 0 <= k < |s| => s[|s| - 1 - k])
  }

  /** A non-empty sequence read backwards starts with its last value. */
  lemma ReverseCons(s: seq<int>)
    requires s != []
    ensures Reverse(s) == [s[|s| - 1]] + Reverse(s[..|s| - 1])
  {
    var t := s[..|s| - 1];
    assert forall k :: 0 < k < |s| ==> Reverse(s)[k] == Reverse(t)[k - 1];
  }

  /** Reading backwards only reorders: the same values, each as often. */
  lemma {:induction false} ReversePermutation(s: seq<int>)
    ensures multiset(Reverse(s)) == multiset(s)
  {
    if s != [] {
      var t := s[..|s| - 1];
      ReverseCons(s);
      ReversePermutation(t);
      assert s == t + [s[|s| - 1]];
    }
  }

  /**
   * The downward slice `v[start:stop:-1]`: v[start], v[start - 1], down to
   * v[stop + 1]. Only non-negative stops are covered (a stop of -1 means
   * something else to Python, and the source never produces one).
   */
  function DownSlice(v: seq<int>, start: int, stop: int): (r: seq<int>)
    requires 0 <= stop <= start < |v|
    ensures |r| == start - stop
    ensures forall k :: 0 <= k < |r| ==> r[k] == v[start - k]
    decreases start - stop
  {
    if start == stop then [] else [v[start]] + DownSlice(v, start - 1, stop)
  }

  /** The downward slice is the forward slice v[stop + 1 .. start] read backwards. */
  lemma DownSliceIsReverse(v: seq<int>, start: int, stop: int)
    requires 0 <= stop <= start < |v|
    ensures DownSlice(v, start, stop) == Reverse(v[stop + 1..start + 1])
  {
    var u := v[stop + 1..start + 1];
    assert forall k :: 0 <= k < |u| ==> Reverse(u)[k] == v[start - k];
  }

  /** Where row i starts in a side-by-side image: i * side, built row by row. */
  function Offset(i: nat, side: nat): nat {
    if i == 0 then 0 else Offset(i - 1, side) + side
  }

  lemma {:induction false} OffsetIsProduct(i: nat, side: nat)
    ensures Offset(i, side) == i * side
  {
    if i > 0 {
      OffsetIsProduct(i - 1, side);
      assert (i - 1) * side + side == i * side;
    }
  }

  lemma {:induction false} OffsetMonotone(i: nat, j: nat, side: nat)
    requires i <= j
    ensures Offset(i, side) <= Offset(j, side)
    decreases j
  {
    if i < j {
      OffsetMonotone(i, j - 1, side);
    }
  }

  /** Row i of a side-by-side image fits in the image and, past row 0, starts past 0. */
  lemma RowBounds(i: nat, side: nat)
    requires i < side
    ensures Offset(i + 1, side) == Offset(i, side) + side <= Offset(side, side)
    ensures 1 <= i ==> 1 <= Offset(i, side)
  {
    OffsetMonotone(i + 1, side, side);
    if 1 <= i {
      OffsetMonotone(1, i, side);
    }
  }

  /** A row in the direction of row i: forward for even i, backwards for odd i. */
  function Orient(u: seq<int>, i: nat): (r: seq<int>)
    ensures |r| == |u|
  {
    if i % 2 == 0 then u else Reverse(u)
  }

  /** Row i of a side-by-side image, in its serpentine direction. */
  function Row(v: seq<int>, side: nat, i: nat): (r: seq<int>)
    requires Offset(i, side) + side <= |v|
    ensures |r| == side
  {
    Orient(v[Offset(i, side)..Offset(i, side) + side], i)
  }

  /** The first `rows` rows of v, each in its serpentine direction, joined. */
  function Serpentine(v: seq<int>, side: nat, rows: nat): (r: seq<int>)
    requires Offset(rows, side) <= |v|
    ensures |r| == Offset(rows, side)
  {
    if rows == 0 then [] else Serpentine(v, side, rows - 1) + Row(v, side, rows - 1)
  }

  /** One more row of the layout: the layout so far, then row i. */
  lemma SerpentineNext(v: seq<int>, side: nat, i: nat)
    requires Offset(i, side) + side <= |v|
    ensures Offset(i + 1, side) == Offset(i, side) + side <= |v|
    ensures Serpentine(v, side, i + 1) == Serpentine(v, side, i) + Row(v, side, i)
  {
  }

  /** An even row is the forward slice of its side values. */
  lemma EvenRowIsSlice(v: seq<int>, side: nat, i: nat)
    requires Offset(i, side) + side <= |v| && i % 2 == 0
    ensures Row(v, side, i) == v[Offset(i, side)..Offset(i, side) + side]
  {
  }

  /** An odd row is the forward slice of its side values, read backwards. */
  lemma OddRowIsReverse(v: seq<int>, side: nat, i: nat)
    requires Offset(i, side) + side <= |v| && i % 2 == 1
    ensures Row(v, side, i) == Reverse(v[Offset(i, side)..Offset(i, side) + side])
  {
  }

  /** A slice inside the left part of s == p + w is that slice of p. */
  lemma SliceKept(s: seq<int>, p: seq<int>, w: seq<int>, a: nat, side: nat, x: seq<int>)
    requires s == p + w && a + side <= |p| && p[a..a + side] == x
    ensures a + side <= |s| && s[a..a + side] == x
  {
    assert (p + w)[a..a + side] == p[a..a + side];
  }

  /** The values of s == p + w past p are w. */
  lemma SliceAdded(s: seq<int>, p: seq<int>, w: seq<int>, a: nat, side: nat)
    requires s == p + w && a == |p| && |w| == side
    ensures a + side <= |s| && s[a..a + side] == w
  {
    assert (p + w)[|p|..|p| + |w|] == w;
  }

  /** The last of `rows` rows sits at the end of the layout. */
  lemma SerpentineLastRow(v: seq<int>, side: nat, rows: nat)
    requires Offset(rows, side) <= |v| && 0 < rows
    ensures |Serpentine(v, side, rows)| == Offset(rows, side)
    ensures Offset(rows - 1, side) + side <= |Serpentine(v, side, rows)|
    ensures Serpentine(v, side, rows)[Offset(rows - 1, side)..Offset(rows - 1, side) + side] == Row(v, side, rows - 1)
  {
    assert Offset(rows - 1, side) + side == Offset(rows, side);
    SerpentineNext(v, side, rows - 1);
    SliceAdded(Serpentine(v, side, rows), Serpentine(v, side, rows - 1), Row(v, side, rows - 1),
      Offset(rows - 1, side), side);
  }

  /**
   * Row i of the serpentine layout is the slice of v that starts at i * side
   * and holds side values, forward for even i and backwards for odd i.
   */
  lemma {:induction false} SerpentineRowAt(v: seq<int>, side: nat, rows: nat, i: nat)
    requires Offset(rows, side) <= |v| && i < rows
    ensures |Serpentine(v, side, rows)| == Offset(rows, side)
    ensures Offset(i, side) + side <= |Serpentine(v, side, rows)|
    ensures Serpentine(v, side, rows)[Offset(i, side)..Offset(i, side) + side] == Row(v, side, i)
  {
    if i < rows - 1 {
      assert Offset(rows - 1, side) + side == Offset(rows, side);
      SerpentineNext(v, side, rows - 1);
      SerpentineRowAt(v, side, rows - 1, i);
      SliceKept(Serpentine(v, side, rows), Serpentine(v, side, rows - 1), Row(v, side, rows - 1),
        Offset(i, side), side, Row(v, side, i));
    } else {
      SerpentineLastRow(v, side, rows);
    }
  }

  /** A row holds the values of its slice of v, whatever its direction. */
  lemma RowPermutation(v: seq<int>, side: nat, i: nat)
    requires Offset(i, side) + side <= |v|
    ensures multiset(Row(v, side, i)) == multiset(v[Offset(i, side)..Offset(i, side) + side])
  {
    if i % 2 == 0 {
      EvenRowIsSlice(v, side, i);
    } else {
      OddRowIsReverse(v, side, i);
      ReversePermutation(v[Offset(i, side)..Offset(i, side) + side]);
    }
  }

  /** Joining a permutation of v[..lo] and one of the next side values permutes v[..lo + side]. */
  lemma PermutationStep(s: seq<int>, p: seq<int>, w: seq<int>, v: seq<int>, lo: nat, hi: nat, side: nat)
    requires hi == lo + side <= |v| && s == p + w
    requires multiset(p) == multiset(v[..lo]) && multiset(w) == multiset(v[lo..lo + side])
    ensures multiset(s) == multiset(v[..hi])
  {
    assert v[..hi] == v[..lo] + v[lo..lo + side];
  }

  /** The serpentine layout is a permutation of the first rows * side values of v. */
  lemma {:induction false} SerpentinePermutation(v: seq<int>, side: nat, rows: nat)
    requires Offset(rows, side) <= |v|
    ensures multiset(Serpentine(v, side, rows)) == multiset(v[..Offset(rows, side)])
  {
    if rows > 0 {
      assert Offset(rows - 1, side) + side == Offset(rows, side);
      SerpentineNext(v, side, rows - 1);
      SerpentinePermutation(v, side, rows - 1);
      RowPermutation(v, side, rows - 1);
      PermutationStep(Serpentine(v, side, rows), Serpentine(v, side, rows - 1), Row(v, side, rows - 1),
        v, Offset(rows - 1, side), Offset(rows, side), side);
    }
  }

  /** An odd row is the downward slice from its last value to just before its first. */
  lemma OddRowIsDownSlice(v: seq<int>, side: nat, i: nat)
    requires 1 <= Offset(i, side) && Offset(i, side) + side <= |v| && i % 2 == 1
    ensures Row(v, side, i) == DownSlice(v, Offset(i, side) + side - 1, Offset(i, side) - 1)
  {
    var lo := Offset(i, side);
    OddRowIsReverse(v, side, i);
    DownSliceIsReverse(v, lo + side - 1, lo - 1);
  }

  /**
   * What one pass of the reversing loop appends: init[i*side : i*side+side]
   * for even i and init[i*side+side-1 : i*side-1 : -1] for odd i. It is
   * row i of the serpentine layout.
   */
  function RowSlice(init: seq<int>, side: nat, i: nat): (r: seq<int>)
    requires i < side && Offset(side, side) <= |init|
    ensures Offset(i, side) + side <= |init| && r == Row(init, side, i)
  {
    var lo := i * side;
    OffsetIsProduct(i, side);
    RowBounds(i, side);
    if i % 2 == 0 then
      EvenRowIsSlice(init, side, i);
      init[lo..lo + side]
    else
      OddRowIsDownSlice(init, side, i);
      DownSlice(init, lo + side - 1, lo - 1)
  }

  /**
   * The `reversing` branch: for i in range(side) it extends the output with
   * row i of init, read forward for even i and through a downward slice for
   * odd i.
   */
  method ReversingOrder(init: seq<int>, side: nat) returns (order: seq<int>)
    requires Offset(side, side) <= |init|
    ensures order == Serpentine(init, side, side)
  {
    order := [];
    var i := 0;
    while i < side
      invariant 0 <= i <= side
      invariant Offset(i, side) <= |init|
      invariant order == Serpentine(init, side, i)
    {
      RowBounds(i, side);
      SerpentineNext(init, side, i);
      order := order + RowSlice(init, side, i);
      i := i + 1;
    }
  }

  // ---------------------------------------------------------------------
  // prepareInput

  /** The distribution names the code recognises, after lower-casing. */
  datatype Distribution = Random | Reversing | Linear

  /** ASCII lower-casing (Python's `str.lower` on ASCII text). */
  function Lower(s: string): (r: string)
    ensures |r| == |s|
    ensures forall i :: 0 <= i < |s| ==> !('A' <= r[i] <= 'Z')
    ensures forall i :: 0 <= i < |s| && !('A' <= s[i] <= 'Z') ==> r[i] == s[i]
    ensures forall i :: 0 <= i < |s| && 'A' <= s[i] <= 'Z' ==> r[i] as int == s[i] as int + 32
  {
    seq(|s|, i requires 0 <= i < |s| =>
      if 'A' <= s[i] <= 'Z' then (s[i] as int + 32) as char else s[i])
  }

  /** "random" and "reversing" in any case; every other name is linear. */
  function ParseDistribution(name: string): Distribution {
    var l := Lower(name);
    if l == "random" then Random
    else if l == "reversing" then Reversing
    else Linear
  }

  /**
   * The name's case does not matter: a lower-cased name selects the same
   * distribution, so "Random" and "REVERSING" are recognised, while a name
   * that is neither word, such as "linear", falls back to the linear vector.
   */
  lemma DistributionNames(name: string)
    ensures ParseDistribution(Lower(name)) == ParseDistribution(name)
    ensures ParseDistribution("Random") == Random
    ensures ParseDistribution("REVERSING") == Reversing
    ensures ParseDistribution("linear") == Linear
  {
    assert Lower(Lower(name)) == Lower(name);
    assert Lower("Random") == "random";
    assert Lower("REVERSING") == "reversing";
    assert Lower("linear") == "linear";
  }

  /** The grey values prepareInput lays out for a deterministic distribution. */
  function InputVector(n: nat, dist: Distribution): (r: seq<int>)
    requires dist != Random
    ensures dist == Linear ==> |r| == n
    ensures dist == Reversing ==> |r| == Square(ISqrt(n)) <= n
  {
    var side := ISqrt(n);
    OffsetIsProduct(side, side);
    if dist == Reversing then
      Serpentine(Linspace(n), side, side)
    else Linspace(n)
  }

  /**
   * The reversing vector has side * side values with side = ISqrt(n): all n
   * of them exactly when n is a perfect square, the trailing ones dropped
   * otherwise; it is a permutation of the first side * side linear values,
   * and row i is the linear row i, reversed when i is odd.
   */
  lemma ReversingShape(n: nat)
    ensures |InputVector(n, Reversing)| == Square(ISqrt(n))
    ensures |InputVector(n, Reversing)| == n <==> IsSquare(n)
    ensures multiset(InputVector(n, Reversing)) == multiset(Linspace(n)[..Square(ISqrt(n))])
    ensures forall i {:trigger Row(Linspace(n), ISqrt(n), i)} :: 0 <= i < ISqrt(n) ==>
              Offset(i, ISqrt(n)) + ISqrt(n) <= |InputVector(n, Reversing)| &&
              InputVector(n, Reversing)[Offset(i, ISqrt(n))..Offset(i, ISqrt(n)) + ISqrt(n)]
                == Row(Linspace(n), ISqrt(n), i)
  {
    var side := ISqrt(n);
    OffsetIsProduct(side, side);
    forall i | 0 <= i < side
      ensures Offset(i, side) + side <= |InputVector(n, Reversing)|
      ensures InputVector(n, Reversing)[Offset(i, side)..Offset(i, side) + side] == Row(Linspace(n), side, i)
    {
      SerpentineRowAt(Linspace(n), side, side, i);
    }
    SerpentinePermutation(Linspace(n), side, side);
    ISqrtSquareIff(n);
  }

  /**
   * Every deterministic input is a list of grey values: each lies in 0..255,
   * and there are n of them unless the reversing layout drops a remainder.
   */
  lemma InputVectorInRange(n: nat, dist: Distribution)
    requires dist != Random
    ensures |InputVector(n, dist)| <= n
    ensures dist == Linear || IsSquare(n) ==> |InputVector(n, dist)| == n
    ensures forall i :: 0 <= i < |InputVector(n, dist)| ==> 0 <= InputVector(n, dist)[i] <= Stop
  {
    LinspaceShape(n);
    if dist == Reversing {
      ReversingShape(n);
      var v := InputVector(n, dist);
      var prefix := Linspace(n)[..Square(ISqrt(n))];
      forall i | 0 <= i < |v| ensures 0 <= v[i] <= Stop {
        assert v[i] in multiset(v);
        assert v[i] in multiset(prefix);
        var j :| 0 <= j < |prefix| && prefix[j] == v[i];
        assert prefix[j] == Linspace(n)[j];
      }
    }
  }

  /** Sixteen values spread over 0..255 are the multiples of 17. */
  lemma Linspace16()
    ensures Linspace(16) ==
      [0, 17, 34, 51, 68, 85, 102, 119, 136, 153, 170, 187, 204, 221, 238, 255]
  {
    forall k | 0 <= k < 16 ensures Linspace(16)[k] == 17 * k {
      assert LinspaceAt(16, k) == 255 * k / 15;
    }
  }

  /** The four rows of a 4 x 4 image, odd rows read backwards. */
  lemma Rows4x4(v: seq<int>)
    requires |v| == 16
    ensures Offset(1, 4) == 4 && Offset(2, 4) == 8 && Offset(3, 4) == 12 && Offset(4, 4) == 16
    ensures Row(v, 4, 0) == v[0..4] && Row(v, 4, 1) == Reverse(v[4..8])
    ensures Row(v, 4, 2) == v[8..12] && Row(v, 4, 3) == Reverse(v[12..16])
  {
    assert Offset(1, 4) == 4 && Offset(2, 4) == 8 && Offset(3, 4) == 12 && Offset(4, 4) == 16;
  }

  /** The 4 x 4 layout of a vector, row by row. */
  lemma Serpentine4x4(v: seq<int>)
    requires |v| == 16
    ensures Offset(4, 4) == 16
    ensures Serpentine(v, 4, 4) ==
      v[0..4] + Reverse(v[4..8]) + v[8..12] + Reverse(v[12..16])
  {
    Rows4x4(v);
    assert Serpentine(v, 4, 1) == v[0..4];
    assert Serpentine(v, 4, 2) == v[0..4] + Reverse(v[4..8]);
    assert Serpentine(v, 4, 3) == v[0..4] + Reverse(v[4..8]) + v[8..12];
  }

  /** Sixteen values make a 4 x 4 image. */
  lemma Side16()
    ensures ISqrt(16) == 4 && Offset(4, 4) <= |Linspace(16)|
    ensures InputVector(16, Reversing) == Serpentine(Linspace(16), 4, 4)
  {
    ISqrtUnique(16, 4);
    OffsetIsProduct(4, 4);
  }

  /** The rows of the 16 linear values, odd rows read backwards. */
  lemma Reverse4(a: int, b: int, c: int, d: int)
    ensures Reverse([a, b, c, d]) == [d, c, b, a]
  {
    var r := Reverse([a, b, c, d]);
    assert r[0] == d && r[1] == c && r[2] == b && r[3] == a;
  }

  lemma Rows16(v: seq<int>)
    requires v == [0, 17, 34, 51, 68, 85, 102, 119, 136, 153, 170, 187, 204, 221, 238, 255]
    ensures v[0..4] + Reverse(v[4..8]) + v[8..12] + Reverse(v[12..16]) ==
      [0, 17, 34, 51, 119, 102, 85, 68, 136, 153, 170, 187, 255, 238, 221, 204]
  {
    assert v[4..8] == [68, 85, 102, 119];
    assert v[12..16] == [204, 221, 238, 255];
    Reverse4(68, 85, 102, 119);
    Reverse4(204, 221, 238, 255);
  }

  /** The 4 x 4 case: rows 0 and 2 run forward, rows 1 and 3 run backward. */
  lemma Reversing16()
    ensures InputVector(16, Reversing) ==
      [0, 17, 34, 51, 119, 102, 85, 68, 136, 153, 170, 187, 255, 238, 221, 204]
  {
    Side16();
    Linspace16();
    Serpentine4x4(Linspace(16));
    Rows16(Linspace(16));
  }

  /** What prepareInput raises instead of returning. */
  datatype InputError =
    | MathDomainError   // math.sqrt of a negative size
    | RandomRejected    // np.random.uniform is called with a dtype argument it does not take

  datatype Inputs = Inputs(vector: seq<int>, angles: seq<real>)

  /**
   * prepareInput(n, input_range, angle_range, dist): the grey vector for the
   * distribution and the angle of each of its values.
   */
  method PrepareInput(n: int, inLo: int, inHi: int, aLo: real, aHi: real, dist: string)
    returns (r: Result<Inputs, InputError>)
    requires inLo < inHi
    ensures r == Failure(MathDomainError) <==> n < 0
    ensures r == Failure(RandomRejected) <==> n >= 0 && ParseDistribution(dist) == Random
    ensures r.Success? <==> n >= 0 && ParseDistribution(dist) != Random
    ensures r.Success? ==>
              r.value.vector == InputVector(n, ParseDistribution(dist)) &&
              r.value.angles == Angles(r.value.vector, inLo, inHi, aLo, aHi)
  {
    if n < 0 {
      return Failure(MathDomainError);
    }
    var side := ISqrt(n);
    var d := ParseDistribution(dist);
    var vector: seq<int>;
    if d == Random {
      return Failure(RandomRejected);
    } else if d == Reversing {
      var init := Linspace(n);
      OffsetIsProduct(side, side);
      vector := ReversingOrder(init, side);
    } else {
      vector := Linspace(n);
    }
    var angles := Angles(vector, inLo, inHi, aLo, aHi);
    r := Success(Inputs(vector, angles));
  }
}
