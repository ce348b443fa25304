/**
  Strings as Go's standard library treats them in the modelled code: byte-wise
  ordering (sort.Strings), strings.Join, strconv's base-10 integer parsing and
  bson.IsObjectIdHex. Strings are sequences of code points; on valid UTF-8 the
  code-point order coincides with Go's byte order.
 */
module Text {

  import opened Wrappers

  /** Go's `a < b` on strings: lexicographic, a proper prefix is smaller. */
  predicate Less(a: string, b: string)
    decreases |a|
  {
    if a == [] then b != []
    else if b == [] then false
    else if a[0] != b[0] then a[0] < b[0]
    else Less(a[1..], b[1..])
  }

  predicate LessEq(a: string, b: string) {
    a == b || Less(a, b)
  }

  lemma {:induction false} LessIrreflexive(a: string)
    ensures !Less(a, a)
  {
    if a != [] {
      LessIrreflexive(a[1..]);
    }
  }

  lemma {:induction false} LessTransitive(a: string, b: string, c: string)
    requires Less(a, b) && Less(b, c)
    ensures Less(a, c)
    decreases |a|
  {
    if a != [] && b != [] && c != [] && a[0] == b[0] && b[0] == c[0] {
      LessTransitive(a[1..], b[1..], c[1..]);
    }
  }

  lemma {:induction false} LessTotal(a: string, b: string)
    ensures a == b || Less(a, b) || Less(b, a)
    decreases |a|
  {
    if a != [] && b != [] && a[0] == b[0] {
      LessTotal(a[1..], b[1..]);
      if a[1..] == b[1..] {
        assert a == [a[0]] + a[1..] && b == [b[0]] + b[1..];
      }
    }
  }

  lemma {:induction false} LessAsymmetric(a: string, b: string)
    requires Less(a, b)
    ensures !Less(b, a)
  {
    if Less(b, a) {
      LessTransitive(a, b, a);
      LessIrreflexive(a);
    }
  }

  lemma LessEqAntisymmetric(a: string, b: string)
    requires LessEq(a, b) && LessEq(b, a)
    ensures a == b
  {
    if a != b {
      LessAsymmetric(a, b);
    }
  }

  lemma LessEqTransitive(a: string, b: string, c: string)
    requires LessEq(a, b) && LessEq(b, c)
    ensures LessEq(a, c)
  {
    if a != b && b != c {
      LessTransitive(a, b, c);
    }
  }

  /** The order sort.Strings leaves a slice in. */
  ghost predicate Sorted(s: seq<string>) {
    forall i, j :: 0 <= i < j < |s| ==> LessEq(s[i], s[j])
  }

  /** `m` is a least element of `keys`. */
  ghost predicate IsLeast(m: string, keys: set<string>) {
    m in keys && forall x :: x in keys ==> LessEq(m, x)
  }

  /** A least element of the rest stays least once `y` is added, if it is below `y`. */
  lemma LeastWithBelow(m: string, rest: set<string>, y: string)
    requires IsLeast(m, rest) && LessEq(m, y)
    ensures IsLeast(m, rest + {y})
  {
  }

  /** Otherwise `y` is least. */
  lemma LeastWithAbove(m: string, rest: set<string>, y: string)
    requires IsLeast(m, rest) && Less(y, m)
    ensures IsLeast(y, rest + {y})
  {
    forall x | x in rest + {y}
      ensures LessEq(y, x)
    {
      if x != y {
        LessEqTransitive(y, m, x);
      }
    }
  }

  /** Every finite non-empty set of strings has a least element. */
  lemma {:induction false} LeastExists(keys: set<string>)
    requires keys != {}
    ensures exists m :: IsLeast(m, keys)
    decreases |keys|
  {
    var y :| y in keys;
    var rest := keys - {y};
    assert keys == rest + {y};
    if rest == {} {
      assert IsLeast(y, keys);
    } else {
      LeastExists(rest);
      var n :| IsLeast(n, rest);
      LessTotal(n, y);
      if Less(y, n) {
        LeastWithAbove(n, rest, y);
      } else {
        LeastWithBelow(n, rest, y);
      }
    }
  }

  /** Ascending without repetitions. */
  ghost predicate StrictlySorted(s: seq<string>) {
    forall i, j :: 0 <= i < j < |s| ==> Less(s[i], s[j])
  }

  lemma StrictlySortedIsSorted(s: seq<string>)
    requires StrictlySorted(s)
    ensures Sorted(s)
  {
  }

  lemma ConsStrictlySorted(m: string, tail: seq<string>)
    requires StrictlySorted(tail)
    requires forall j :: 0 <= j < |tail| ==> Less(m, tail[j])
    ensures StrictlySorted([m] + tail)
  {
    var r := [m] + tail;
    forall i, j | 0 <= i < j < |r|
      ensures Less(r[i], r[j])
    {
      assert r[j] == tail[j - 1];
      if i > 0 {
        assert r[i] == tail[i - 1];
      }
    }
  }

  /** The least key followed by the rest in ascending order is the whole set in ascending order. */
  lemma SortedSeqStep(keys: set<string>, m: string, tail: seq<string>)
    requires IsLeast(m, keys)
    requires StrictlySorted(tail) && multiset(tail) == multiset(keys - {m})
    ensures StrictlySorted([m] + tail) && multiset([m] + tail) == multiset(keys)
  {
    assert keys == (keys - {m}) + {m};
    assert multiset(keys) == multiset(keys - {m}) + multiset{m};
    forall j | 0 <= j < |tail|
      ensures Less(m, tail[j])
    {
      assert tail[j] in multiset(tail);
    }
    ConsStrictlySorted(m, tail);
  }

  /** The keys of a set in ascending order: what sorting any enumeration of it yields. */
  ghost function SortedSeq(keys: set<string>): (r: seq<string>)
    ensures StrictlySorted(r) && multiset(r) == multiset(keys)
    decreases |keys|
  {
    if keys == {} then []
    else
      var m := LeastOf(keys);
      var tail := SortedSeq(keys - {m});
      SortedSeqStep(keys, m, tail);
      [m] + tail
  }

  /** A least element, chosen. */
  ghost function LeastOf(keys: set<string>): (m: string)
    requires keys != {}
    ensures IsLeast(m, keys)
  {
    LeastExists(keys);
    var m :| IsLeast(m, keys);
    m
  }

  /** SortedSeq holds exactly the keys. */
  lemma SortedSeqElements(keys: set<string>)
    ensures forall i :: 0 <= i < |SortedSeq(keys)| ==> SortedSeq(keys)[i] in keys
    ensures forall k :: k in keys ==> k in SortedSeq(keys)
    ensures Sorted(SortedSeq(keys))
  {
    var r := SortedSeq(keys);
    forall i | 0 <= i < |r|
      ensures r[i] in keys
    {
      assert r[i] in multiset(r);
    }
    forall k | k in keys
      ensures k in r
    {
      assert k in multiset(keys);
    }
    StrictlySortedIsSorted(r);
  }

  /** Putting `x` at a position where everything before is not above it and everything after not below. */
  lemma InsertSorted(ys: seq<string>, j: nat, x: string)
    requires Sorted(ys) && j <= |ys|
    requires forall k :: 0 <= k < j ==> LessEq(ys[k], x)
    requires forall k :: j <= k < |ys| ==> LessEq(x, ys[k])
    ensures Sorted(ys[..j] + [x] + ys[j..])
    ensures multiset(ys[..j] + [x] + ys[j..]) == multiset(ys) + multiset{x}
  {
    var zs := ys[..j] + [x] + ys[j..];
    forall i, k | 0 <= i < k < |zs|
      ensures LessEq(zs[i], zs[k])
    {
      if k < j {
        assert zs[i] == ys[i] && zs[k] == ys[k];
      } else if k == j {
        assert zs[i] == ys[i];
      } else if i == j {
        assert zs[k] == ys[k - 1];
      } else if i < j {
        assert zs[i] == ys[i] && zs[k] == ys[k - 1];
      } else {
        assert zs[i] == ys[i - 1] && zs[k] == ys[k - 1];
      }
    }
    assert ys == ys[..j] + ys[j..];
  }

  /** One insertion step: the position of the first element above `x`. */
  method Insert(ys: seq<string>, x: string) returns (zs: seq<string>)
    requires Sorted(ys)
    ensures Sorted(zs) && multiset(zs) == multiset(ys) + multiset{x}
  {
    var j := 0;
    while j < |ys| && LessEq(ys[j], x)
      invariant 0 <= j <= |ys|
      invariant forall k :: 0 <= k < j ==> LessEq(ys[k], x)
    {
      j := j + 1;
    }
    if j < |ys| {
      LessTotal(ys[j], x);
    }
    forall k | j <= k < |ys|
      ensures LessEq(x, ys[k])
    {
      LessEqTransitive(x, ys[j], ys[k]);
    }
    InsertSorted(ys, j, x);
    zs := ys[..j] + [x] + ys[j..];
  }

  /** Sorting a sequence, as sort.Strings does: by insertion. */
  method SortStrings(xs: seq<string>) returns (ys: seq<string>)
    ensures Sorted(ys) && multiset(ys) == multiset(xs)
  {
    ys := [];
    for i := 0 to |xs|
      invariant Sorted(ys) && multiset(ys) == multiset(xs[..i])
    {
      assert xs[..i + 1] == xs[..i] + [xs[i]];
      ys := Insert(ys, xs[i]);
    }
    assert xs[..|xs|] == xs;
  }

  /** The first element of an ascending sequence is below all its elements. */
  lemma SortedHeadLeast(a: seq<string>, x: string)
    requires Sorted(a) && x in multiset(a)
    ensures LessEq(a[0], x)
  {
    var i :| 0 <= i < |a| && a[i] == x;
    if i > 0 {
      assert LessEq(a[0], a[i]);
    }
  }

  /** Dropping the first element of a non-empty sequence takes it out of its multiset. */
  lemma MultisetTail(a: seq<string>)
    requires a != []
    ensures multiset(a[1..]) == multiset(a) - multiset{a[0]}
  {
    assert a == [a[0]] + a[1..];
  }

  /** Two ascending sequences with the same elements are equal: sorting is canonical. */
  lemma {:induction false} SortedUnique(a: seq<string>, b: seq<string>)
    requires Sorted(a) && Sorted(b) && multiset(a) == multiset(b)
    ensures a == b
    decreases |a|
  {
    if a == [] {
      assert |b| == |multiset(b)| == 0;
    } else {
      assert a[0] in multiset(a);
      assert b != [];
      assert b[0] in multiset(b);
      SortedHeadLeast(b, a[0]);
      SortedHeadLeast(a, b[0]);
      LessEqAntisymmetric(a[0], b[0]);
      MultisetTail(a);
      MultisetTail(b);
      assert Sorted(a[1..]) && Sorted(b[1..]);
      SortedUnique(a[1..], b[1..]);
      assert a == [a[0]] + a[1..] && b == [b[0]] + b[1..];
    }
  }

  /** strings.Join: the elements separated by `glue`. */
  function Join(parts: seq<string>, glue: string): string
  {
    if parts == [] then ""
    else if |parts| == 1 then parts[0]
    else parts[0] + glue + Join(parts[1..], glue)
  }

  /** Each element followed by the glue. */
  function Leading(parts: seq<string>, glue: string): string
  {
    if parts == [] then "" else parts[0] + glue + Leading(parts[1..], glue)
  }

  /** Each element preceded by the glue. */
  function Trailing(parts: seq<string>, glue: string): string
  {
    if parts == [] then "" else glue + parts[0] + Trailing(parts[1..], glue)
  }

  /** Joining a non-empty sequence: its first element, then each later one preceded by the glue. */
  lemma {:induction false} JoinFrom(x: string, after: seq<string>, glue: string)
    ensures Join([x] + after, glue) == x + Trailing(after, glue)
    decreases |after|
  {
    if after != [] {
      assert ([x] + after)[1..] == after == [after[0]] + after[1..];
      JoinFrom(after[0], after[1..], glue);
    }
  }

  /** Joining splits around any element: what precedes it and what follows it. */
  lemma {:induction false} JoinAround(before: seq<string>, x: string, after: seq<string>, glue: string)
    ensures Join(before + [x] + after, glue) == Leading(before, glue) + x + Trailing(after, glue)
    decreases |before|
  {
    if before == [] {
      assert before + [x] + after == [x] + after;
      JoinFrom(x, after, glue);
    } else {
      JoinAround(before[1..], x, after, glue);
      assert (before + [x] + after)[1..] == before[1..] + [x] + after;
    }
  }

  predicate IsDigit(c: char) {
    '0' <= c <= '9'
  }

  predicate IsHexDigit(c: char) {
    IsDigit(c) || 'a' <= c <= 'f' || 'A' <= c <= 'F'
  }

  /** bson.IsObjectIdHex: exactly 24 hexadecimal digits (12 bytes). */
  predicate IsObjectIdHex(s: string) {
    |s| == 24 && forall i :: 0 <= i < |s| ==> IsHexDigit(s[i])
  }

  /** The value of a non-empty run of decimal digits. */
  function DigitsValue(s: string): (n: int)
    requires forall i :: 0 <= i < |s| ==> IsDigit(s[i])
    ensures n >= 0
  {
    if s == [] then 0
    else
      var last := s[|s| - 1];
      assert IsDigit(last);
      DigitsValue(s[..|s| - 1]) * 10 + (last as int - '0' as int)
  }

  function Pow2(n: nat): (r: int)
    ensures r >= 1
  {
    if n == 0 then 1 else 2 * Pow2(n - 1)
  }

  /** Powers of two multiply by adding their exponents. */
  lemma {:induction false} Pow2Add(a: nat, b: nat)
    ensures Pow2(a + b) == Pow2(a) * Pow2(b)
  {
    if a > 0 {
      Pow2Add(a - 1, b);
    }
  }

  /** The bound of a 32-bit signed integer, 2 to the 31st. */
  lemma Pow2Of31()
    ensures Pow2(31) == 0x8000_0000
  {
    assert Pow2(1) == 2;
    assert Pow2(2) == 4;
    Pow2Add(2, 2);
    Pow2Add(4, 4);
    Pow2Add(8, 8);
    Pow2Add(16, 8);
    Pow2Add(24, 4);
    Pow2Add(28, 2);
    Pow2Add(30, 1);
  }

  /**
    strconv.ParseInt(s, 10, bitSize): an optional sign followed by one or more
    decimal digits, whose value must fit a signed integer of `bitSize` bits;
    anything else is a syntax or range error (None).
   */
  function ParseInt(s: string, bitSize: nat): (r: Option<int>)
    requires bitSize > 0
    ensures r.Some? ==> -Pow2(bitSize - 1) <= r.value < Pow2(bitSize - 1)
    ensures r.Some? ==> |s| > 0 && (IsDigit(s[0]) || (|s| > 1 && (s[0] == '-' || s[0] == '+')))
    ensures r.Some? ==> forall i :: 0 < i < |s| ==> IsDigit(s[i])
  {
    var negative := |s| > 0 && s[0] == '-';
    var digits := if |s| > 0 && (s[0] == '-' || s[0] == '+') then s[1..] else s;
    if digits == [] || !(forall i :: 0 <= i < |digits| ==> IsDigit(digits[i])) then None
    else
      var v := if negative then -DigitsValue(digits) else DigitsValue(digits);
      if -Pow2(bitSize - 1) <= v < Pow2(bitSize - 1) then Some(v) else None
  }

  /** The decimal digits of a natural number, most significant first, without leading zeros. */
  function DecimalDigits(n: nat): (s: string)
    ensures |s| > 0 && forall i :: 0 <= i < |s| ==> IsDigit(s[i])
  {
    var d := [('0' as int + n % 10) as char];
    if n < 10 then d else DecimalDigits(n / 10) + d
  }

  /** strconv.FormatInt(n, 10): the decimal form of an integer, with a minus sign when negative. */
  function FormatInt(n: int): string
  {
    if n < 0 then "-" + DecimalDigits(-n) else DecimalDigits(n)
  }

  lemma {:induction false} DigitsValueOfDecimal(n: nat)
    ensures DigitsValue(DecimalDigits(n)) == n
  {
    var s := DecimalDigits(n);
    if n >= 10 {
      DigitsValueOfDecimal(n / 10);
      assert s[..|s| - 1] == DecimalDigits(n / 10);
    }
  }

  /**
    ParseInt reads back the decimal form of every integer that fits `bitSize`
    bits, and refuses the decimal form of every integer that does not.
   */
  lemma ParseIntFormatInt(n: int, bitSize: nat)
    requires bitSize > 0
    ensures ParseInt(FormatInt(n), bitSize)
      == if -Pow2(bitSize - 1) <= n < Pow2(bitSize - 1) then Some(n) else None
  {
    var s := FormatInt(n);
    if n < 0 {
      DigitsValueOfDecimal(-n);
      assert s[1..] == DecimalDigits(-n);
    } else {
      DigitsValueOfDecimal(n);
      assert IsDigit(s[0]);
    }
  }

  /** strconv.Atoi on a 64-bit platform. */
  function Atoi(s: string): Option<int>
  {
    ParseInt(s, 64)
  }

}
