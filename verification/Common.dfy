/** Value types and small real-number helpers shared by every module. */
module Common {

  datatype Option<T> = None | Some(value: T)

  /** An engine FVector2D, in exact reals. */
  datatype Vec2 = Vec2(x: real, y: real)
  {
    predicate IsZero() { x == 0.0 && y == 0.0 }

    /** Componentwise sum, difference and product, and scaling (FVector2D's operators). */
    function Plus(o: Vec2): Vec2 { Vec2(x + o.x, y + o.y) }
    function Minus(o: Vec2): Vec2 { Vec2(x - o.x, y - o.y) }
    function Times(o: Vec2): Vec2 { Vec2(x * o.x, y * o.y) }
    function Scale(k: real): Vec2 { Vec2(x * k, y * k) }
  }

  /** An engine FVector, in exact reals. */
  datatype Vec3 = Vec3(x: real, y: real, z: real)
  {
    predicate IsZero() { x == 0.0 && y == 0.0 && z == 0.0 }
  }

  /** An engine FIntVector / FIntPoint. */
  datatype IntVec = IntVec(x: int, y: int)

  const Zero2: Vec2 := Vec2(0.0, 0.0)
  const Zero3: Vec3 := Vec3(0.0, 0.0, 0.0)

  function Abs(x: real): (r: real)
    ensures r >= 0.0 && (r == x || r == -x)
  {
    if x < 0.0 then -x else x
  }

  function Min(a: real, b: real): (r: real)
    ensures r <= a && r <= b && (r == a || r == b)
  {
    if a <= b then a else b
  }

  function Max(a: real, b: real): (r: real)
    ensures r >= a && r >= b && (r == a || r == b)
  {
    if a >= b then a else b
  }

  /** FMath::Clamp on reals. */
  function Clamp(x: real, lo: real, hi: real): (r: real)
    requires lo <= hi
    ensures lo <= r <= hi
    ensures lo <= x <= hi ==> r == x
  {
    if x < lo then lo else if x > hi then hi else x
  }

  /** FMath::Clamp on integers: the same template as Clamp, kept apart because Dafny's int and real do not share an ordered type. */
  function ClampInt(x: int, lo: int, hi: int): (r: int)
    requires lo <= hi
    ensures lo <= r <= hi
    ensures lo <= x <= hi ==> r == x
  {
    if x < lo then lo else if x > hi then hi else x
  }

  /**
   * Products and quotients of reals go through these two functions, so
   * that the solver treats each as a single term.
   */
  function Mul(x: real, y: real): real
  {
    x * y
  }

  function Div(x: real, y: real): real
    requires y != 0.0
  {
    x / y
  }

  lemma MulOne(x: real)
    ensures Mul(x, 1.0) == x && Mul(1.0, x) == x
  {
  }

  lemma MulAssoc(x: real, y: real, z: real)
    ensures Mul(Mul(x, y), z) == Mul(x, Mul(y, z))
    ensures Mul(x, y) == Mul(y, x)
  {
  }

  lemma MulByReciprocal(x: real, y: real)
    requires y != 0.0
    ensures Mul(x, Div(1.0, y)) == Div(x, y)
    ensures Mul(Div(1.0, y), x) == Div(x, y)
  {
  }

  lemma DivThenMul(x: real, y: real, z: real)
    requires y != 0.0
    ensures Mul(Div(x, y), z) == Div(Mul(x, z), y)
  {
  }

  lemma MulDivCancel(x: real, y: real)
    requires y != 0.0
    ensures Div(Mul(x, y), y) == x
  {
  }

  /** A fraction of a non-negative length stays within it. */
  lemma MulFraction(x: real, y: real)
    requires 0.0 <= x <= 1.0 && y >= 0.0
    ensures 0.0 <= Mul(x, y) <= y
  {
    assert y - x * y == (1.0 - x) * y;
    MulNonNegativeReal(1.0 - x, y);
    MulNonNegativeReal(x, y);
  }

  lemma MulNonNegativeReal(a: real, b: real)
    requires a >= 0.0 && b >= 0.0
    ensures a * b >= 0.0
  {
  }

  function Pow2(n: nat): (r: nat)
    ensures r >= 1
  {
    if n == 0 then 1 else 2 * Pow2(n - 1)
  }

  /** Integer division truncating toward zero, as C++ does. */
  function TruncDiv(a: int, b: int): int
    requires b > 0
  {
    if a >= 0 then a / b else -((-a) / b)
  }

  /** Remainder with the sign of the dividend, as C++ `%` does. */
  function TruncRem(a: int, b: int): (r: int)
    requires b > 0
    ensures -b < r < b
    ensures a >= 0 ==> r == a % b
    ensures a == TruncDiv(a, b) * b + r
  {
    if a >= 0 then a % b else -((-a) % b)
  }

  /** Upper-case folding of ASCII letters, as the engine's case-insensitive comparisons do. */
  function ToUpperChar(c: char): char
  {
    if 'a' <= c <= 'z' then (c as int - 32) as char else c
  }

  function ToUpper(s: string): (r: string)
    ensures |r| == |s|
    ensures forall i :: 0 <= i < |s| ==> r[i] == ToUpperChar(s[i])
  {
    seq(|s|, i requires 0 <= i < |s| => ToUpperChar(s[i]))
  }

  predicate EqualsIgnoreCase(a: string, b: string)
  {
    ToUpper(a) == ToUpper(b)
  }

  predicate StartsWith(s: string, prefix: string)
  {
    |prefix| <= |s| && s[..|prefix|] == prefix
  }

  predicate EndsWith(s: string, suffix: string)
  {
    |suffix| <= |s| && s[|s| - |suffix|..] == suffix
  }

  /** Sum of a sequence of reals. */
  function Sum(s: seq<real>): real
  {
    if s == [] then 0.0 else s[0] + Sum(s[1..])
  }

  /** Every element of a sequence occurs once. */
  predicate NoDuplicates<T(==)>(s: seq<T>)
  {
    forall i, j :: 0 <= i < j < |s| ==> s[i] != s[j]
  }

  /** In a list without repeats, no element is counted twice. */
  lemma {:induction false} NoDuplicatesCount<T>(s: seq<T>, v: T)
    requires NoDuplicates(s)
    ensures multiset(s)[v] <= 1
  {
    if s != [] {
      assert s == [s[0]] + s[1..];
      NoDuplicatesCount(s[1..], v);
      if s[0] == v {
        assert v !in s[1..] by {
          forall k | 0 <= k < |s[1..]| ensures s[1..][k] != v {
            assert s[1..][k] == s[k + 1];
          }
        }
      }
    }
  }

  /** An element found at two positions is counted at least twice. */
  lemma CountTwo<T>(b: seq<T>, i: int, j: int)
    requires 0 <= i < j < |b| && b[i] == b[j]
    ensures multiset(b)[b[i]] >= 2
  {
    assert b == b[..j] + b[j..];
    assert b[..j][i] == b[i];
    assert b[j..][0] == b[i];
    assert multiset(b) == multiset(b[..j]) + multiset(b[j..]);
  }

  /** A permutation of a sequence without repeats has no repeats. */
  lemma PermutationKeepsNoDuplicates<T>(a: seq<T>, b: seq<T>)
    requires NoDuplicates(a) && multiset(b) == multiset(a)
    ensures NoDuplicates(b)
  {
    forall i, j | 0 <= i < j < |b|
      ensures b[i] != b[j]
    {
      NoDuplicatesCount(a, b[i]);
      if b[i] == b[j] {
        CountTwo(b, i, j);
      }
    }
  }

  /** TArray::Remove: the sequence without any element equal to `x`, in order. */
  function Without<T(==)>(s: seq<T>, x: T): (r: seq<T>)
    ensures |r| <= |s|
    ensures forall i :: 0 <= i < |r| ==> r[i] in s && r[i] != x
    ensures forall i :: 0 <= i < |s| && s[i] != x ==> s[i] in r
    ensures x !in s ==> r == s
  {
    if s == [] then []
    else
      assert s == [s[0]] + s[1..];
      (if s[0] == x then [] else [s[0]]) + Without(s[1..], x)
  }

  lemma {:induction false} WithoutKeepsNoDuplicates<T>(s: seq<T>, x: T)
    requires NoDuplicates(s)
    ensures NoDuplicates(Without(s, x))
  {
    if s != [] {
      WithoutKeepsNoDuplicates(s[1..], x);
    }
  }

  /** Removing an element appended to a sequence that lacks it gives the sequence back. */
  lemma {:induction false} WithoutAppended<T>(s: seq<T>, x: T)
    requires x !in s
    ensures Without(s + [x], x) == s
  {
    if s == [] {
      assert Without([x], x) == [] + Without([], x);
    } else {
      WithoutAppended(s[1..], x);
      WithoutCons(s[0], s[1..] + [x], x);
      assert [s[0]] + (s[1..] + [x]) == s + [x];
      assert [s[0]] + s[1..] == s;
    }
  }

  /** Without on a sequence with a given first element. */
  lemma WithoutCons<T>(a: T, r: seq<T>, x: T)
    ensures Without([a] + r, x) == (if a == x then [] else [a]) + Without(r, x)
  {
    assert ([a] + r)[1..] == r;
  }

  /** Row-major pixel index arithmetic: (h * w + x) splits back into row h and column x. */
  lemma RowMajor(h: nat, x: nat, width: nat)
    requires x < width
    ensures (h * width + x) / width == h
    ensures (h * width + x) % width == x
  {
    var a := h * width + x;
    var q, r := a / width, a % width;
    assert q * width + r == h * width + x;
    if q > h {
      MulMono(h + 1, q, width);
      assert false;
    } else if q < h {
      MulMono(q + 1, h, width);
      assert false;
    }
  }

  lemma MulMono(a: int, b: int, c: nat)
    requires a <= b
    ensures a * c <= b * c
  {
  }

  /** The row after row h of an h-row-bounded grid starts within the grid. */
  lemma RowBound(h: nat, height: nat, width: nat)
    requires h < height
    ensures h * width + width <= height * width
  {
    assert (h + 1) * width <= height * width;
  }

  /** The rows of a row-major grid laid end to end. */
  function Flatten<T>(rows: seq<seq<T>>): seq<T>
  {
    if rows == [] then [] else Flatten(rows[..|rows| - 1]) + rows[|rows| - 1]
  }

  /** Rows of one width w lay out to |rows| * w cells. */
  lemma {:induction false} FlattenLength<T>(rows: seq<seq<T>>, w: nat)
    requires forall i :: 0 <= i < |rows| ==> |rows[i]| == w
    ensures |Flatten(rows)| == |rows| * w
  {
    if rows != [] {
      var n := |rows| - 1;
      var prefix := rows[..n];
      assert forall i :: 0 <= i < n ==> prefix[i] == rows[i];
      FlattenLength(prefix, w);
      assert |Flatten(rows)| == |Flatten(prefix)| + |rows[n]|;
      assert n * w + w == (n + 1) * w;
    }
  }

  /** Cell (x, y) of rows of one width w lies at y * w + x. */
  lemma {:induction false} FlattenCell<T>(rows: seq<seq<T>>, w: nat, y: nat, x: nat)
    requires forall i :: 0 <= i < |rows| ==> |rows[i]| == w
    requires y < |rows| && x < w
    ensures |Flatten(rows)| == |rows| * w
    ensures y * w + x < |Flatten(rows)| && Flatten(rows)[y * w + x] == rows[y][x]
  {
    var n := |rows| - 1;
    var prefix := rows[..n];
    FlattenLength(rows, w);
    FlattenLength(prefix, w);
    RowBound(y, |rows|, w);
    if y < n {
      FlattenCell(prefix, w, y, x);
      RowBound(y, n, w);
    }
  }

  /** Laying out one more row appends it. */
  lemma FlattenStep<T>(rows: seq<seq<T>>, i: nat)
    requires i < |rows|
    ensures Flatten(rows[..i + 1]) == Flatten(rows[..i]) + rows[i]
  {
    assert rows[..i + 1][..i] == rows[..i];
  }

  /** An element of the laid-out rows is an element of one of the rows. */
  lemma {:induction false} FlattenMember<T>(rows: seq<seq<T>>, t: T)
    ensures t in Flatten(rows) <==> exists i :: 0 <= i < |rows| && t in rows[i]
  {
    if rows != [] {
      var n := |rows| - 1;
      FlattenMember(rows[..n], t);
      assert forall i :: 0 <= i < n ==> rows[..n][i] == rows[i];
    }
  }

  /** Flatten distributes over concatenation. */
  lemma {:induction false} FlattenAppend<T>(a: seq<seq<T>>, b: seq<seq<T>>)
    ensures Flatten(a + b) == Flatten(a) + Flatten(b)
  {
    if b != [] {
      var n := |b| - 1;
      assert (a + b)[..|a + b| - 1] == a + b[..n];
      FlattenAppend(a, b[..n]);
    } else {
      assert a + b == a;
    }
  }

  // ------------------------------------------------------------- sorting

  /** Ascending by key (the engine's Sort with a `<` comparison on the key). */
  predicate SortedBy<T>(s: seq<T>, key: T -> real)
  {
    forall i, j :: 0 <= i < j < |s| ==> key(s[i]) <= key(s[j])
  }

  /** Inserts x before the first element with a larger key. */
  function InsertBy<T>(s: seq<T>, x: T, key: T -> real): (r: seq<T>)
    ensures multiset(r) == multiset(s) + multiset{x}
    ensures |r| == |s| + 1
  {
    if s == [] then [x]
    else if key(x) <= key(s[0]) then [x] + s
    else
      assert s == [s[0]] + s[1..];
      [s[0]] + InsertBy(s[1..], x, key)
  }

  lemma {:induction false} InsertByKeepsSorted<T>(s: seq<T>, x: T, key: T -> real)
    requires SortedBy(s, key)
    ensures SortedBy(InsertBy(s, x, key), key)
  {
    if s != [] && key(x) > key(s[0]) {
      var rest := InsertBy(s[1..], x, key);
      InsertByKeepsSorted(s[1..], x, key);
      forall k | 0 <= k < |rest| ensures key(s[0]) <= key(rest[k]) {
        assert rest[k] in multiset(rest);
        assert rest[k] in multiset(s[1..]) || rest[k] == x;
        if rest[k] != x {
          var m :| 0 <= m < |s[1..]| && s[1..][m] == rest[k];
          assert s[m + 1] == rest[k];
        }
      }
    }
  }

  /** Insertion sort by key: the result is ordered by key and a permutation of the input. */
  method SortByKey<T>(s: seq<T>, key: T -> real) returns (r: seq<T>)
    ensures SortedBy(r, key)
    ensures multiset(r) == multiset(s)
  {
    r := [];
    var i := 0;
    while i < |s|
      invariant 0 <= i <= |s|
      invariant SortedBy(r, key)
      invariant multiset(r) == multiset(s[..i])
    {
      assert s[..i + 1] == s[..i] + [s[i]];
      InsertByKeepsSorted(r, s[i], key);
      r := InsertBy(r, s[i], key);
      i := i + 1;
    }
    assert s[..i] == s;
  }
}
