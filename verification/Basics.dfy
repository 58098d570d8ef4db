/** Shared vocabulary: options, the source's integer division, decimal text and text order. */
module Basics {

  datatype Option<+T> = None | Some(value: T)

  const U32_MAX: nat := 0xFFFF_FFFF

  /** A program, as Windows said. */
  datatype Proceso = Proceso(
    pid: nat, nombre: string, ruta: string, sha256: string, firmadoPor: string, version: string)

  /** ASCII lower case: any other letter stays. */
  function Minusculas(s: string): string {
    seq(|s|, i requires 0 <= i < |s| => if 'A' <= s[i] <= 'Z' then (s[i] as int + 32) as char else s[i])
  }

  /** Rust's `/` on signed integers: truncates toward zero. */
  function TruncDiv(a: int, b: int): (q: int)
    requires b > 0
    ensures a >= 0 ==> q == a / b
    ensures a < 0 ==> q == -((-a) / b)
  {
    if a >= 0 then a / b else -((-a) / b)
  }

  function Min(a: int, b: int): int { if a <= b then a else b }

  function Max(a: int, b: int): int { if a >= b then a else b }

  function Abs(a: int): int { if a < 0 then -a else a }

  /** The last `n` elements, or all of them when there are fewer. */
  function LastN<T>(s: seq<T>, n: nat): seq<T> {
    if |s| <= n then s else s[|s| - n..]
  }

  // ----- decimal digits -----

  type Digit = d: int | 0 <= d < 10

  /** The decimal digits of a natural number, most significant first. */
  function Digits(n: nat): (ds: seq<Digit>)
    ensures |ds| >= 1
  {
    if n < 10 then [n] else Digits(n / 10) + [n % 10]
  }

  /** The number a digit sequence denotes. */
  function Value(ds: seq<Digit>): nat {
    if ds == [] then 0 else Value(ds[..|ds| - 1]) * 10 + ds[|ds| - 1]
  }

  function Pow10(w: nat): (p: nat)
    ensures p >= 1
  {
    if w == 0 then 1 else 10 * Pow10(w - 1)
  }

  /** Reading back what `Digits` writes. */
  lemma {:induction false} ValueOfDigits(n: nat)
    ensures Value(Digits(n)) == n
  {
    if n >= 10 {
      ValueOfDigits(n / 10);
      assert Digits(n)[..|Digits(n)| - 1] == Digits(n / 10);
    }
  }

  lemma {:induction false} DigitsWidth(n: nat, w: nat)
    requires n < Pow10(w) && w >= 1
    ensures |Digits(n)| <= w
  {
    if n >= 10 {
      DigitsWidth(n / 10, w - 1);
    }
  }

  function Zeros(k: nat): (ds: seq<Digit>)
    ensures |ds| == k
  {
    seq(k, _ => 0)
  }

  lemma {:induction false} ValueOfZeros(k: nat, ds: seq<Digit>)
    ensures Value(Zeros(k) + ds) == Value(ds)
  {
    if ds == [] {
      assert Zeros(k) + ds == Zeros(k);
      if k > 0 {
        assert Zeros(k)[..k - 1] == Zeros(k - 1) + [];
        ValueOfZeros(k - 1, []);
      }
    } else {
      assert (Zeros(k) + ds)[..k + |ds| - 1] == Zeros(k) + ds[..|ds| - 1];
      ValueOfZeros(k, ds[..|ds| - 1]);
    }
  }

  lemma {:induction false} ValueBound(ds: seq<Digit>)
    ensures Value(ds) < Pow10(|ds|)
  {
    if ds != [] {
      ValueBound(ds[..|ds| - 1]);
    }
  }

  // ----- the order of texts, code point by code point -----

  predicate LexLess(a: string, b: string) {
    if b == [] then false
    else if a == [] then true
    else if a[0] != b[0] then a[0] < b[0]
    else LexLess(a[1..], b[1..])
  }

  lemma {:induction false} LexTotal(a: string, b: string)
    ensures a == b || LexLess(a, b) || LexLess(b, a)
  {
    if a != [] && b != [] && a[0] == b[0] {
      LexTotal(a[1..], b[1..]);
      assert a == [a[0]] + a[1..] && b == [b[0]] + b[1..];
    }
  }

  lemma {:induction false} LexAsymmetric(a: string, b: string)
    requires LexLess(a, b)
    ensures !LexLess(b, a) && a != b
  {
    if a != [] && a[0] == b[0] {
      LexAsymmetric(a[1..], b[1..]);
    }
  }

  lemma {:induction false} LexTransitive(a: string, b: string, c: string)
    requires LexLess(a, b) && LexLess(b, c)
    ensures LexLess(a, c)
  {
    if a != [] && a[0] == b[0] && b[0] == c[0] {
      LexTransitive(a[1..], b[1..], c[1..]);
    }
  }

  /** Texts of equal length in front decide first, and only then what follows. */
  lemma {:induction false} LexConcat(a: string, x: string, b: string, y: string)
    requires |a| == |b|
    ensures LexLess(a + x, b + y) <==> LexLess(a, b) || (a == b && LexLess(x, y))
  {
    if a == [] {
      assert a + x == x && b + y == y;
    } else {
      assert (a + x)[1..] == a[1..] + x && (b + y)[1..] == b[1..] + y;
      LexConcat(a[1..], x, b[1..], y);
      if a[0] == b[0] {
        assert a == b <==> a[1..] == b[1..] by {
          assert a == [a[0]] + a[1..] && b == [b[0]] + b[1..];
        }
      }
    }
  }

  // ----- sets of texts in order, as a B-tree walks them -----

  predicate IsFirst(e: string, s: set<string>) {
    e in s && forall x | x in s :: x == e || LexLess(e, x)
  }

  lemma {:induction false} FirstExists(s: set<string>)
    requires s != {}
    ensures exists e :: IsFirst(e, s)
  {
    var x :| x in s;
    var rest := s - {x};
    if rest == {} {
      assert s == {x} && IsFirst(x, s);
    } else {
      FirstExists(rest);
      var y :| IsFirst(y, rest);
      LexTotal(x, y);
      if LexLess(x, y) {
        forall z | z in s ensures z == x || LexLess(x, z) {
          if z != x && z != y { LexTransitive(x, y, z); }
        }
        assert IsFirst(x, s);
      } else {
        assert IsFirst(y, s);
      }
    }
  }

  lemma FirstUnique(s: set<string>)
    ensures forall a, b | IsFirst(a, s) && IsFirst(b, s) :: a == b
  {
    forall a, b | IsFirst(a, s) && IsFirst(b, s) ensures a == b {
      if a != b { LexAsymmetric(a, b); }
    }
  }

  /** The first element of a set: the next one a B-tree gives. */
  function First(s: set<string>): (e: string)
    requires s != {}
    ensures e in s
  {
    FirstExists(s);
    FirstUnique(s);
    var e :| IsFirst(e, s);
    e
  }

  /** The elements of a set in increasing order. */
  function Sorted(s: set<string>): (r: seq<string>)
    ensures forall x :: x in r <==> x in s
    ensures |r| == |s|
    ensures forall i, j | 0 <= i < j < |r| :: r[i] != r[j]
    decreases |s|
  {
    if s == {} then [] else [First(s)] + Sorted(s - {First(s)})
  }

  lemma {:induction false} SortedInOrder(s: set<string>)
    ensures forall i, j | 0 <= i < j < |Sorted(s)| :: LexLess(Sorted(s)[i], Sorted(s)[j])
    decreases |s|
  {
    if s != {} {
      FirstExists(s);
      assert IsFirst(First(s), s);
      SortedInOrder(s - {First(s)});
    }
  }
}
