// Small value types and sequence functions shared by the model's modules, and Python's str() of an integer.

module Common {

  datatype Option<+T> = None | Some(value: T)

  /** Python's truth value of an optional integer column: NULL and 0 are both falsy. */
  predicate Truthy(x: Option<int>) {
    x.Some? && x.value != 0
  }

  // A field of a partial update: left out, sent as null, or sent as a value.
  datatype Patch<+T> = Keep | Null | Put(value: T)

  predicate Distinct<T(==)>(xs: seq<T>) {
    forall i, j :: 0 <= i < j < |xs| ==> xs[i] != xs[j]
  }

  function LastN<T>(xs: seq<T>, n: nat): seq<T> {
    if |xs| <= n then xs else xs[|xs| - n..]
  }

  /** Each value once, in the order of first occurrence. */
  function Unique<T(==)>(xs: seq<T>): seq<T> {
    if xs == [] then [] else
      var init, last := Unique(xs[..|xs| - 1]), xs[|xs| - 1];
      if last in init then init else init + [last]
  }

  lemma {:induction false} UniqueMeans<T(!new)>(xs: seq<T>)
    ensures Distinct(Unique(xs)) && forall x :: x in Unique(xs) <==> x in xs
  {
    if xs != [] {
      UniqueMeans(xs[..|xs| - 1]);
      assert xs == xs[..|xs| - 1] + [xs[|xs| - 1]];
    }
  }

  /** The place of the first occurrence, or the length. */
  function FirstAt<T(==)>(xs: seq<T>, x: T): (i: nat)
    ensures i <= |xs| && (i < |xs| <==> x in xs) && (i < |xs| ==> xs[i] == x)
    ensures forall j :: 0 <= j < i ==> xs[j] != x
  {
    if xs == [] || xs[0] == x then 0 else 1 + FirstAt(xs[1..], x)
  }

  lemma FirstAtInit<T>(xs: seq<T>, last: T, x: T)
    ensures FirstAt(xs + [last], x) == if x in xs then FirstAt(xs, x) else if x == last then |xs| else |xs| + 1
  {
    var all := xs + [last];
    var i := FirstAt(all, x);
    assert x in xs ==> all[FirstAt(xs, x)] == x;
    assert x == last ==> all[|xs|] == x;
    assert i < |xs| ==> xs[i] == x;
  }

  predicate ByFirst<T(==)>(us: seq<T>, xs: seq<T>) {
    forall i, j :: 0 <= i < j < |us| ==> FirstAt(xs, us[i]) < FirstAt(xs, us[j])
  }

  lemma ByFirstInit<T(!new)>(us: seq<T>, xs: seq<T>, last: T)
    requires ByFirst(us, xs) && forall x :: x in us <==> x in xs
    ensures ByFirst(us, xs + [last])
    ensures last !in xs ==> ByFirst(us + [last], xs + [last])
  {
    forall i | 0 <= i < |us| ensures FirstAt(xs + [last], us[i]) == FirstAt(xs, us[i]) < |xs| {
      assert us[i] in us;
      FirstAtInit(xs, last, us[i]);
    }
    FirstAtInit(xs, last, last);
  }

  /** The unique values stand in the order of their first occurrences. */
  lemma {:induction false} UniqueKeepsOrder<T(!new)>(xs: seq<T>)
    ensures ByFirst(Unique(xs), xs)
  {
    if xs != [] {
      var init, last := xs[..|xs| - 1], xs[|xs| - 1];
      UniqueKeepsOrder(init);
      UniqueMeans(init);
      ByFirstInit(Unique(init), init, last);
      assert xs == init + [last];
    }
  }

  function Digits(n: nat): (s: string)
    ensures |s| > 0 && forall c :: c in s ==> '0' <= c <= '9'
  {
    var last := [('0' as int + n % 10) as char];
    if n < 10 then last else Digits(n / 10) + last
  }

  /** Python's str() of an integer. */
  function Decimal(n: int): string {
    if n < 0 then "-" + Digits(-n) else Digits(n)
  }

  lemma {:induction false} DigitsInjective(a: nat, b: nat)
    requires Digits(a) == Digits(b)
    ensures a == b
  {
    var x, y := Digits(a), Digits(b);
    assert x[|x| - 1] == ('0' as int + a % 10) as char;
    assert y[|y| - 1] == ('0' as int + b % 10) as char;
    assert a % 10 == b % 10;
    if a >= 10 && b >= 10 {
      assert Digits(a / 10) == x[..|x| - 1] == y[..|y| - 1] == Digits(b / 10);
      DigitsInjective(a / 10, b / 10);
    }
  }

  lemma DecimalSign(n: int)
    ensures |Decimal(n)| > 0 && (Decimal(n)[0] == '-' <==> n < 0)
  {
    if n >= 0 {
      assert Decimal(n)[0] in Digits(n);
    }
  }

  lemma DecimalInjective(a: int, b: int)
    requires Decimal(a) == Decimal(b)
    ensures a == b
  {
    DecimalSign(a);
    DecimalSign(b);
    if a < 0 {
      assert Digits(-a) == Decimal(a)[1..] == Decimal(b)[1..] == Digits(-b);
      DigitsInjective(-a, -b);
    } else {
      DigitsInjective(a, b);
    }
  }
}
