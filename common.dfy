/** Values shared by every component of the layout editor: points, rectangles,
    JavaScript rounding, decimal rendering of numbers and a few sequence helpers. */
module Common {

  datatype Option<T> = None | Some(value: T)

  /** A point in whatever space the caller works in (layout units, canvas pixels). */
  datatype Point = Point(x: real, y: real)

  /** An axis-aligned rectangle given by its top-left corner and its size. */
  datatype Rect = Rect(x: real, y: real, w: real, h: real)

  function Min(a: real, b: real): (r: real)
    ensures r <= a && r <= b
    ensures r == a || r == b
  {
    if a <= b then a else b
  }

  function Max(a: real, b: real): (r: real)
    ensures r >= a && r >= b
    ensures r == a || r == b
  {
    if a >= b then a else b
  }

  function Abs(a: real): (r: real)
    ensures r >= 0.0
    ensures r == a || r == -a
  {
    if a < 0.0 then -a else a
  }

  /** JavaScript's Math.round: the nearest integer, a half rounded towards +infinity. */
  function Round(x: real): (r: int)
    ensures r as real - 0.5 <= x < r as real + 0.5
  {
    (x + 0.5).Floor
  }

  /** The rectangle spanned by two corners given in either order: the min/abs
      normalisation used for rubber-band and box-selection rectangles. */
  function Normalize(a: Point, b: Point): (r: Rect)
    ensures r.w >= 0.0 && r.h >= 0.0
    ensures (r.x == a.x && r.x + r.w == b.x) || (r.x == b.x && r.x + r.w == a.x)
    ensures (r.y == a.y && r.y + r.h == b.y) || (r.y == b.y && r.y + r.h == a.y)
  {
    Rect(Min(a.x, b.x), Min(a.y, b.y), Abs(b.x - a.x), Abs(b.y - a.y))
  }

  /** The normalised rectangle does not depend on the direction of the drag. */
  lemma NormalizeSymmetric(a: Point, b: Point)
    ensures Normalize(a, b) == Normalize(b, a)
  {
  }

  /** Any two opposite corners of a rectangle give the same normalised rectangle. */
  lemma NormalizeOtherDiagonal(a: Point, b: Point)
    ensures Normalize(Point(a.x, b.y), Point(b.x, a.y)) == Normalize(a, b)
  {
  }

  /** Squared Euclidean distance: the code compares square roots, the model compares squares. */
  function DistSq(p: Point, q: Point): (d: real)
    ensures d >= 0.0
  {
    (p.x - q.x) * (p.x - q.x) + (p.y - q.y) * (p.y - q.y)
  }

  function Sq(a: real): real { a * a }

  /** n is Math.round(Math.sqrt(d)): the square root of d lies in [n - 1/2, n + 1/2). */
  ghost predicate RoundsToRoot(d: real, n: nat)
  {
    (n == 0 || Sq(n as real - 0.5) <= d) && d < Sq(n as real + 0.5)
  }

  lemma SquareAtLeastSelf(a: real)
    requires a >= 1.0
    ensures Sq(a) >= a
  {
    assert Sq(a) - a == a * (a - 1.0);
  }

  lemma SquareMonotone(a: real, b: real)
    requires 0.0 <= a <= b
    ensures Sq(a) <= Sq(b)
  {
    assert Sq(b) - Sq(a) == (b - a) * (b + a);
  }

  /** Math.round(Math.sqrt(d)), which Dafny cannot compute with a square root of its own:
      the candidates n = 0, 1, 2, ... are tried in turn until d < (n + 1/2)^2. */
  function RoundSqrt(d: real): (n: nat)
    requires d >= 0.0
    ensures RoundsToRoot(d, n)
  {
    RootSearch(d, 0)
  }

  function RootSearch(d: real, n: nat): (r: nat)
    requires d >= 0.0
    requires n == 0 || Sq(n as real - 0.5) <= d
    ensures RoundsToRoot(d, r)
    decreases d.Floor + 1 - n
  {
    if d < Sq(n as real + 0.5) then n
    else
      assert n as real <= d.Floor as real + 1.0 by {
        if n > 0 { SquareAtLeastSelf(n as real + 0.5); }
      }
      RootSearch(d, n + 1)
  }

  /** The rounded root is unique: two candidates that both satisfy the rounding bounds are equal. */
  lemma RoundsToRootUnique(d: real, m: nat, n: nat)
    requires RoundsToRoot(d, m) && RoundsToRoot(d, n)
    ensures m == n
  {
    if m < n {
      SquareMonotone(m as real + 0.5, n as real - 0.5);
    } else if n < m {
      SquareMonotone(n as real + 0.5, m as real - 0.5);
    }
  }

  // ---------------------------------------------------------------------------
  // Decimal rendering of numbers (JavaScript's String(n) on integers)
  // ---------------------------------------------------------------------------

  function DigitChar(d: nat): (c: char)
    requires d < 10
    ensures '0' <= c <= '9'
  {
    "0123456789"[d]
  }

  function DigitValue(c: char): (d: nat)
    requires '0' <= c <= '9'
    ensures d < 10 && DigitChar(d) == c
  {
    (c - '0') as nat
  }

  predicate IsDigits(s: string)
  {
    forall i :: 0 <= i < |s| ==> '0' <= s[i] <= '9'
  }

  /** The decimal digits of n, without leading zeros. */
  function NatToString(n: nat): (s: string)
    ensures |s| >= 1 && IsDigits(s)
    ensures n >= 10 <==> |s| >= 2
  {
    if n < 10 then [DigitChar(n)] else NatToString(n / 10) + [DigitChar(n % 10)]
  }

  /** Reads a string of decimal digits back as a number. */
  function ParseNat(s: string): nat
    requires IsDigits(s)
  {
    if s == [] then 0 else 10 * ParseNat(s[..|s| - 1]) + DigitValue(s[|s| - 1])
  }

  /** Decimal rendering and parsing are inverse: no two numbers print the same. */
  lemma {:induction false} ParseNatToString(n: nat)
    ensures ParseNat(NatToString(n)) == n
  {
    var s := NatToString(n);
    if n < 10 {
      assert s[..0] == [];
    } else {
      var q, d := n / 10, n % 10;
      ParseNatToString(q);
      assert s == NatToString(q) + [DigitChar(d)];
      assert s[..|s| - 1] == NatToString(q);
      assert DigitValue(s[|s| - 1]) == d;
      assert n == 10 * q + d;
    }
  }

  lemma NatToStringInjective(a: nat, b: nat)
    requires NatToString(a) == NatToString(b)
    ensures a == b
  {
    ParseNatToString(a);
    ParseNatToString(b);
  }

  /** String(i) for an integer i: a minus sign before the digits of a negative number. */
  function IntToString(i: int): (s: string)
    ensures |s| >= 1
    ensures i < 0 <==> s[0] == '-'
  {
    if i < 0 then "-" + NatToString(-i) else NatToString(i)
  }

  lemma NegativeDigits(i: int)
    requires i < 0
    ensures IntToString(i)[1..] == NatToString(-i)
  {
    var d := NatToString(-i);
    assert IntToString(i) == "-" + d;
    assert ("-" + d)[1..] == d;
  }

  lemma IntToStringInjective(a: int, b: int)
    requires IntToString(a) == IntToString(b)
    ensures a == b
  {
    if a < 0 {
      assert b < 0;
      NegativeDigits(a);
      NegativeDigits(b);
      NatToStringInjective(-a, -b);
    } else {
      NatToStringInjective(a, b);
    }
  }

  // ---------------------------------------------------------------------------
  // Sequences
  // ---------------------------------------------------------------------------

  function Last<T>(s: seq<T>): T
    requires |s| > 0
  {
    s[|s| - 1]
  }

  function DropLast<T>(s: seq<T>): seq<T>
    requires |s| > 0
  {
    s[..|s| - 1]
  }

  /** The concatenation of f over the elements of xs in order: what a forEach
      loop that appends f(x) for every x produces. */
  function FlatMap<T, U>(xs: seq<T>, f: T -> seq<U>): seq<U>
  {
    if xs == [] then [] else FlatMap(DropLast(xs), f) + f(Last(xs))
  }

  /** An output element of FlatMap comes from the image of some input element, and
      every element of every image is in the output. */
  lemma {:induction false} FlatMapMember<T, U>(xs: seq<T>, f: T -> seq<U>, u: U)
    ensures u in FlatMap(xs, f) <==> exists i :: 0 <= i < |xs| && u in f(xs[i])
  {
    if xs != [] {
      var ys := DropLast(xs);
      FlatMapMember(ys, f, u);
      if u in f(Last(xs)) {
        assert u in FlatMap(xs, f);
      }
      if exists i :: 0 <= i < |xs| && u in f(xs[i]) {
        var i :| 0 <= i < |xs| && u in f(xs[i]);
        if i < |ys| {
          assert ys[i] == xs[i];
        }
      }
    }
  }

  lemma {:induction false} FlatMapAppend<T, U>(xs: seq<T>, ys: seq<T>, f: T -> seq<U>)
    ensures FlatMap(xs + ys, f) == FlatMap(xs, f) + FlatMap(ys, f)
    decreases |ys|
  {
    if ys == [] {
      assert xs + ys == xs;
    } else {
      assert DropLast(xs + ys) == xs + DropLast(ys);
      FlatMapAppend(xs, DropLast(ys), f);
    }
  }

  /** A loop that walks xs and appends f(x) for each element: JavaScript's
      `xs.forEach(x => out.push(...f(x)))`. */
  method ForEachAppend<T, U>(xs: seq<T>, f: T -> seq<U>) returns (out: seq<U>)
    ensures out == FlatMap(xs, f)
  {
    out := [];
    var i := 0;
    while i < |xs|
      invariant 0 <= i <= |xs|
      invariant out == FlatMap(xs[..i], f)
    {
      assert DropLast(xs[..i + 1]) == xs[..i];
      out := out + f(xs[i]);
      i := i + 1;
    }
    assert xs[..i] == xs;
  }
}
