/** Helpers shared by every module of the model: optional values, the
    JavaScript notion of a "truthy" value, decimal rendering of numbers,
    `String.prototype.split` on one character, and the `filter` by key that
    several screens use to drop entries from a list. */
module Common {

  datatype Option<T> = None | Some(value: T)

  /** `if (s)` on a `string | undefined`: undefined and '' are falsy. */
  predicate Truthy(s: Option<string>) {
    s.Some? && s.value != ""
  }

  /** `if (n)` on a `number | undefined`: undefined and 0 are falsy (NaN is
      not represented). */
  predicate TruthyInt(n: Option<int>) {
    n.Some? && n.value != 0
  }

  /** `a || b` on strings: the first one unless it is ''. */
  function OrElse(s: string, fallback: string): (r: string)
    ensures s != "" ==> r == s
    ensures s == "" ==> r == fallback
  {
    if s != "" then s else fallback
  }

  // ---------------------------------------------------------------------
  // Decimal digits

  predicate IsDigit(c: char) {
    '0' <= c <= '9'
  }

  predicate AllDigits(s: string) {
    |s| > 0 && forall i :: 0 <= i < |s| ==> IsDigit(s[i])
  }

  function DigitChar(d: nat): (c: char)
    requires d < 10
    ensures IsDigit(c) && c as int - '0' as int == d
  {
    ('0' as int + d) as char
  }

  /** The value of a string of decimal digits (`Number("0815") == 815`). */
  function DigitsValue(s: string): nat
    requires forall i :: 0 <= i < |s| ==> IsDigit(s[i])
    decreases |s|
  {
    if s == [] then 0
    else
      assert IsDigit(s[|s| - 1]);
      DigitsValue(s[..|s| - 1]) * 10 + (s[|s| - 1] as int - '0' as int)
  }

  /** `n.toString()` for a non-negative integer. */
  function NatToString(n: nat): (s: string)
    ensures |s| >= 1
    decreases n
  {
    if n < 10 then [DigitChar(n)] else NatToString(n / 10) + [DigitChar(n % 10)]
  }

  /** `n.toString()` for any integer. */
  function IntToString(n: int): (s: string)
    ensures |s| >= 1
  {
    if n < 0 then "-" + NatToString(-n) else NatToString(n)
  }

  /** `String(n).padStart(2, '0')` for a non-negative integer. */
  function Pad2(n: nat): string {
    if n < 10 then "0" + NatToString(n) else NatToString(n)
  }

  lemma {:induction false} NatToStringRoundTrip(n: nat)
    ensures AllDigits(NatToString(n))
    ensures DigitsValue(NatToString(n)) == n
    decreases n
  {
    if n >= 10 {
      NatToStringRoundTrip(n / 10);
      var s := NatToString(n);
      assert s[..|s| - 1] == NatToString(n / 10);
    }
  }

  /** Padding to two digits keeps the string a decimal numeral of the same
      value, at least two characters long. */
  lemma Pad2RoundTrip(n: nat)
    ensures AllDigits(Pad2(n)) && DigitsValue(Pad2(n)) == n
    ensures |Pad2(n)| >= 2
    ensures n < 100 ==> |Pad2(n)| == 2
  {
    NatToStringRoundTrip(n);
    if n < 10 {
      var s := Pad2(n);
      assert s == ['0', DigitChar(n)];
      assert s[..1] == ['0'];
    } else {
      assert NatToString(n) == NatToString(n / 10) + [DigitChar(n % 10)];
      assert n / 10 >= 1;
      if n < 100 {
        assert NatToString(n / 10) == [DigitChar(n / 10)];
      }
    }
  }

  // ---------------------------------------------------------------------
  // String.prototype.split with a one-character separator

  /** `s.split(sep)`: always at least one part; separators are dropped. */
  function Split(s: string, sep: char): (parts: seq<string>)
    ensures |parts| >= 1
    decreases |s|
  {
    if |s| == 0 then [""]
    else
      var rest := Split(s[1..], sep);
      if s[0] == sep then [""] + rest else [[s[0]] + rest[0]] + rest[1..]
  }

  lemma {:induction false} SplitNoSep(a: string, sep: char)
    requires sep !in a
    ensures Split(a, sep) == [a]
    decreases |a|
  {
    if |a| > 0 {
      SplitNoSep(a[1..], sep);
      assert [a[0]] + a[1..] == a;
    }
  }

  /** Splitting `a + sep + b` cuts at the first separator when `a` has none. */
  lemma {:induction false} SplitAt(a: string, sep: char, b: string)
    requires sep !in a
    ensures Split(a + [sep] + b, sep) == [a] + Split(b, sep)
    decreases |a|
  {
    if |a| == 0 {
      assert a + [sep] + b == [sep] + b;
      assert ([sep] + b)[1..] == b;
    } else {
      var s := a + [sep] + b;
      assert s[1..] == a[1..] + [sep] + b;
      SplitAt(a[1..], sep, b);
      assert [a[0]] + a[1..] == a;
    }
  }

  // ---------------------------------------------------------------------
  // Array.prototype.filter by key, as used to drop entries from a list

  /** `l.filter(x => key(x) !== k)`. */
  function Without<T, K(==)>(l: seq<T>, key: T -> K, k: K): seq<T>
    decreases |l|
  {
    if l == [] then []
    else if key(l[0]) == k then Without(l[1..], key, k)
    else [l[0]] + Without(l[1..], key, k)
  }

  /** Number of entries whose key is `k`. */
  function CountKey<T, K(==)>(l: seq<T>, key: T -> K, k: K): nat
    decreases |l|
  {
    if l == [] then 0 else (if key(l[0]) == k then 1 else 0) + CountKey(l[1..], key, k)
  }

  /** Exactly the entries with key `k` disappear; every other entry stays. */
  lemma {:induction false} WithoutMembers<T, K>(l: seq<T>, key: T -> K, k: K)
    ensures forall x :: x in Without(l, key, k) <==> x in l && key(x) != k
    ensures |Without(l, key, k)| == |l| - CountKey(l, key, k)
    ensures forall i :: 0 <= i < |Without(l, key, k)| ==> key(Without(l, key, k)[i]) != k
    decreases |l|
  {
    if l != [] {
      WithoutMembers(l[1..], key, k);
      assert l == [l[0]] + l[1..];
      var r, r' := Without(l, key, k), Without(l[1..], key, k);
      if key(l[0]) != k {
        assert forall i :: 1 <= i < |r| ==> r[i] == r'[i - 1];
      }
    }
  }

  /** The filter works piecewise, so the kept entries keep their order. */
  lemma {:induction false} WithoutConcat<T, K>(a: seq<T>, b: seq<T>, key: T -> K, k: K)
    ensures Without(a + b, key, k) == Without(a, key, k) + Without(b, key, k)
    decreases |a|
  {
    if a == [] {
      assert a + b == b;
    } else {
      assert (a + b)[0] == a[0];
      assert (a + b)[1..] == a[1..] + b;
      WithoutConcat(a[1..], b, key, k);
    }
  }

  /** Filtering out a key that no entry has changes nothing. */
  lemma {:induction false} WithoutAbsent<T, K>(l: seq<T>, key: T -> K, k: K)
    requires forall i :: 0 <= i < |l| ==> key(l[i]) != k
    ensures Without(l, key, k) == l
    decreases |l|
  {
    if l != [] {
      WithoutAbsent(l[1..], key, k);
      assert [l[0]] + l[1..] == l;
    }
  }

  /** Removing the same key twice is the same as removing it once. */
  lemma WithoutIdempotent<T, K>(l: seq<T>, key: T -> K, k: K)
    ensures Without(Without(l, key, k), key, k) == Without(l, key, k)
  {
    WithoutMembers(l, key, k);
    WithoutAbsent(Without(l, key, k), key, k);
  }
}
