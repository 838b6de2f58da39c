/** Text primitives the service leans on: decimal numbers, splitting, trimming and
    the byte order used when strings are sorted. */
module Text {
  import opened Wrappers

  const MAX_INT64: int := 0x7fff_ffff_ffff_ffff
  const MIN_INT64: int := -0x8000_0000_0000_0000

  // ---------------------------------------------------------------- decimal

  predicate IsDigit(c: char) { '0' <= c <= '9' }

  predicate AllDigits(s: string) { forall i :: 0 <= i < |s| ==> IsDigit(s[i]) }

  function Digit(d: nat): (c: char)
    requires d < 10
    ensures IsDigit(c) && c as int - '0' as int == d
  {
    ('0' as int + d) as char
  }

  function DigitsValue(s: string): nat
    requires AllDigits(s)
  {
    if s == [] then 0
    else DigitsValue(s[..|s| - 1]) * 10 + (s[|s| - 1] as int - '0' as int)
  }

  function Itoa(n: nat): (s: string)
    ensures AllDigits(s) && s != []
  {
    if n < 10 then [Digit(n)] else Itoa(n / 10) + [Digit(n % 10)]
  }

  /** strconv.Atoi: an optional sign, at least one digit, and a value that fits int64. */
  function Atoi(s: string): Option<int> {
    if s == [] then None
    else
      var signed := s[0] == '+' || s[0] == '-';
      var body := if signed then s[1..] else s;
      if body == [] || !AllDigits(body) then None
      else
        var magnitude: int := DigitsValue(body);
        var v := if s[0] == '-' then -magnitude else magnitude;
        if MIN_INT64 <= v <= MAX_INT64 then Some(v) else None
  }

  lemma {:induction false} ItoaValue(n: nat)
    ensures DigitsValue(Itoa(n)) == n
  {
    if n >= 10 {
      ItoaValue(n / 10);
      var s := Itoa(n);
      assert s[..|s| - 1] == Itoa(n / 10);
    }
  }

  /** Reading back a printed number gives the number. */
  lemma AtoiOfItoa(n: nat)
    requires n <= MAX_INT64
    ensures Atoi(Itoa(n)) == Some(n)
  {
    ItoaValue(n);
    assert IsDigit(Itoa(n)[0]);
  }

  /** Two numbers with the same decimal text are the same number. */
  lemma ItoaInjective(n: nat, m: nat)
    requires Itoa(n) == Itoa(m)
    ensures n == m
  {
    ItoaValue(n);
    ItoaValue(m);
  }

  // ---------------------------------------------------------------- order

  /** Byte order of Go strings; on UTF-8 text it is the code point order. */
  predicate LexLess(a: string, b: string) {
    b != [] && (a == [] || a[0] < b[0] || (a[0] == b[0] && LexLess(a[1..], b[1..])))
  }

  lemma {:induction false} LexTotal(a: string, b: string)
    ensures a == b || LexLess(a, b) || LexLess(b, a)
  {
    if a != [] && b != [] && a[0] == b[0] {
      LexTotal(a[1..], b[1..]);
      assert a == [a[0]] + a[1..] && b == [b[0]] + b[1..];
    }
  }

  lemma {:induction false} LexTransitive(a: string, b: string, c: string)
    requires LexLess(a, b) && LexLess(b, c)
    ensures LexLess(a, c)
  {
    if a != [] && a[0] == b[0] && b[0] == c[0] {
      LexTransitive(a[1..], b[1..], c[1..]);
    }
  }

  lemma {:induction false} LexIrreflexive(a: string)
    ensures !LexLess(a, a)
  {
    if a != [] { LexIrreflexive(a[1..]); }
  }

  lemma {:induction false} LexCommonPrefix(p: string, a: string, b: string)
    ensures LexLess(p + a, p + b) == LexLess(a, b)
  {
    if p == [] {
      assert p + a == a && p + b == b;
    } else {
      LexCommonPrefix(p[1..], a, b);
      assert (p + a)[1..] == p[1..] + a && (p + b)[1..] == p[1..] + b;
    }
  }

  ghost predicate StrictlySorted(xs: seq<string>) {
    forall i, j :: 0 <= i < j < |xs| ==> LexLess(xs[i], xs[j])
  }

  ghost predicate SameElements<T(!new)>(xs: seq<T>, ys: seq<T>) {
    forall x :: x in xs <==> x in ys
  }

  lemma StrictHead(xs: seq<string>, ys: seq<string>)
    requires StrictlySorted(xs) && StrictlySorted(ys) && SameElements(xs, ys)
    requires xs != [] && ys != []
    ensures xs[0] == ys[0]
  {
    assert xs[0] in ys && ys[0] in xs;
    if xs[0] != ys[0] {
      var i :| 0 <= i < |ys| && ys[i] == xs[0];
      var j :| 0 <= j < |xs| && xs[j] == ys[0];
      LexTransitive(xs[0], ys[0], xs[0]);
      LexIrreflexive(xs[0]);
    }
  }

  lemma StrictTail(xs: seq<string>, x: string)
    requires StrictlySorted(xs) && xs != []
    ensures x in xs[1..] <==> x in xs && x != xs[0]
    ensures StrictlySorted(xs[1..])
  {
    LexIrreflexive(x);
  }

  lemma HasElement<T>(xs: seq<T>)
    requires xs != []
    ensures exists x :: x in xs
  {
    assert xs[0] in xs;
  }

  /** A set of strings has one strictly sorted listing. */
  lemma {:induction false} SortedListingUnique(xs: seq<string>, ys: seq<string>)
    requires StrictlySorted(xs) && StrictlySorted(ys) && SameElements(xs, ys)
    ensures xs == ys
    decreases |xs|
  {
    if xs == [] {
      if ys != [] { HasElement(ys); }
    } else {
      assert xs[0] in ys;
      StrictHead(xs, ys);
      forall x ensures x in xs[1..] <==> x in ys[1..] {
        StrictTail(xs, x);
        StrictTail(ys, x);
      }
      StrictTail(xs, xs[0]);
      StrictTail(ys, ys[0]);
      SortedListingUnique(xs[1..], ys[1..]);
      assert xs == [xs[0]] + xs[1..] && ys == [ys[0]] + ys[1..];
    }
  }

  /** Insertion into a strictly sorted listing; a string already present is not repeated. */
  function Insert(xs: seq<string>, x: string): (r: seq<string>)
    requires StrictlySorted(xs)
    ensures StrictlySorted(r)
    ensures forall y :: y in r <==> y in xs || y == x
  {
    if xs == [] then [x]
    else if x == xs[0] then xs
    else if LexLess(x, xs[0]) then
      assert StrictlySorted([x] + xs) by {
        forall j | 0 < j < |xs| ensures LexLess(x, xs[j]) { LexTransitive(x, xs[0], xs[j]); }
      }
      [x] + xs
    else
      LexTotal(x, xs[0]);
      StrictTail(xs, x);
      var r := [xs[0]] + Insert(xs[1..], x);
      assert forall y :: y in r <==> y == xs[0] || y in xs[1..] || y == x;
      assert forall y :: y in xs <==> y == xs[0] || y in xs[1..] by { assert xs == [xs[0]] + xs[1..]; }
      assert StrictlySorted(r) by {
        forall j | 0 < j < |r| ensures LexLess(r[0], r[j]) {
          assert r[j] in Insert(xs[1..], x);
        }
      }
      r
  }

  /** sort.Strings on a duplicate-free slice: its strictly sorted listing. */
  function SortStrings(xs: seq<string>): (r: seq<string>)
    ensures StrictlySorted(r)
    ensures forall x :: x in r <==> x in xs
  {
    if xs == [] then []
    else
      assert forall x :: x in xs <==> x == xs[0] || x in xs[1..] by { assert xs == [xs[0]] + xs[1..]; }
      Insert(SortStrings(xs[1..]), xs[0])
  }

  // ---------------------------------------------------------------- zero padding

  function Pow10(k: nat): (p: nat)
    ensures p >= 1
  {
    if k == 0 then 1 else 10 * Pow10(k - 1)
  }

  function Zeros(k: nat): (s: string)
    ensures |s| == k && AllDigits(s)
  {
    if k == 0 then [] else ['0'] + Zeros(k - 1)
  }

  /** The %0wd verb for a non-negative number. */
  function ZeroPadded(n: nat, w: nat): string {
    var s := Itoa(n);
    if |s| >= w then s else Zeros(w - |s|) + s
  }

  function FixedWidth(n: nat, w: nat): (s: string)
    ensures |s| == w
  {
    if w == 0 then [] else FixedWidth(n / 10, w - 1) + [Digit(n % 10)]
  }

  lemma {:induction false} ZerosSnoc(k: nat)
    ensures Zeros(k) + ['0'] == Zeros(k + 1)
  {
    if k > 0 {
      ZerosSnoc(k - 1);
      assert Zeros(k) + ['0'] == ['0'] + (Zeros(k - 1) + ['0']);
    }
  }

  lemma {:induction false} FixedWidthOfZero(w: nat)
    ensures FixedWidth(0, w) == Zeros(w)
  {
    if w > 0 {
      FixedWidthOfZero(w - 1);
      ZerosSnoc(w - 1);
    }
  }

  lemma {:induction false} ItoaLength(n: nat, w: nat)
    requires n < Pow10(w) && w > 0
    ensures |Itoa(n)| <= w
  {
    if n >= 10 { ItoaLength(n / 10, w - 1); }
  }

  lemma {:induction false} ZeroPaddedIsFixedWidth(n: nat, w: nat)
    requires n < Pow10(w) && w > 0
    ensures ZeroPadded(n, w) == FixedWidth(n, w)
  {
    ItoaLength(n, w);
    if n < 10 {
      FixedWidthOfZero(w - 1);
    } else {
      ItoaLength(n / 10, w - 1);
      ZeroPaddedIsFixedWidth(n / 10, w - 1);
      var s := Itoa(n / 10);
      assert Zeros(w - 1 - |s|) + (s + [Digit(n % 10)]) == (Zeros(w - 1 - |s|) + s) + [Digit(n % 10)];
      if |s| == w - 1 { assert Zeros(0) + s == s; }
    }
  }

  lemma {:induction false} FixedWidthOrder(n: nat, m: nat, w: nat, x: string, y: string)
    requires n < m < Pow10(w)
    ensures LexLess(FixedWidth(n, w) + x, FixedWidth(m, w) + y)
    decreases w
  {
    var a, b := FixedWidth(n / 10, w - 1), FixedWidth(m / 10, w - 1);
    var c, d := [Digit(n % 10)], [Digit(m % 10)];
    assert FixedWidth(n, w) + x == a + (c + x) && FixedWidth(m, w) + y == b + (d + y);
    if n / 10 < m / 10 {
      FixedWidthOrder(n / 10, m / 10, w - 1, c + x, d + y);
    } else {
      LexCommonPrefix(a, c + x, d + y);
    }
  }

  /** Zero padded to one width, text order is number order whatever follows the digits. */
  lemma ZeroPaddedOrder(n: nat, m: nat, w: nat, x: string, y: string)
    requires n < m < Pow10(w) && w > 0
    ensures LexLess(ZeroPadded(n, w) + x, ZeroPadded(m, w) + y)
  {
    ZeroPaddedIsFixedWidth(n, w);
    ZeroPaddedIsFixedWidth(m, w);
    FixedWidthOrder(n, m, w, x, y);
  }
}
