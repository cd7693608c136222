/** The few pieces of JavaScript semantics the sign-in routes rely on:
    absent values, truthiness, `??`, `filter(Boolean)`, `join` and the
    decimal form of an integer inside a template literal. */
module Js {

  /** A value that may be `undefined` or `null` (None) or present (Some). */
  datatype Option<+T> = None | Some(value: T)

  /** Truthiness of a value that is a string or absent: `undefined`, `null`
      and `""` are falsy, every other string is truthy. */
  predicate Truthy(o: Option<string>) {
    o.Some? && o.value != ""
  }

  /** `a ?? b`: the fallback is taken only when `a` is `null` or
      `undefined`, so an empty string is kept. */
  function Coalesce<T>(a: Option<T>, b: T): T {
    if a.Some? then a.value else b
  }

  /** `String(v)` for a string or `undefined`, the conversion
      `URLSearchParams` applies to the values of its initialiser. */
  function StringOf(o: Option<string>): string {
    if o.Some? then o.value else "undefined"
  }

  /** `parts.filter(Boolean)` on an array of strings. */
  function FilterTruthy(parts: seq<string>): (r: seq<string>)
    ensures |r| <= |parts|
    ensures forall s :: s in r <==> s in parts && s != ""
  {
    if parts == [] then []
    else if parts[0] == "" then FilterTruthy(parts[1..])
    else [parts[0]] + FilterTruthy(parts[1..])
  }

  /** `parts.join(sep)`. */
  function Join(parts: seq<string>, sep: string): string {
    if parts == [] then ""
    else if |parts| == 1 then parts[0]
    else parts[0] + sep + Join(parts[1..], sep)
  }

  /** Filtering distributes over concatenation, so the order of the kept
      entries is the order of the input. */
  lemma {:induction false} FilterTruthyAppend(a: seq<string>, b: seq<string>)
    ensures FilterTruthy(a + b) == FilterTruthy(a) + FilterTruthy(b)
  {
    if a == [] {
      assert a + b == b;
    } else {
      assert (a + b)[0] == a[0];
      assert (a + b)[1..] == a[1..] + b;
      FilterTruthyAppend(a[1..], b);
    }
  }

  /** A list without empty entries passes the filter unchanged. */
  lemma {:induction false} FilterTruthyKeepsNonEmpty(parts: seq<string>)
    requires forall i :: 0 <= i < |parts| ==> parts[i] != ""
    ensures FilterTruthy(parts) == parts
  {
    if parts != [] {
      FilterTruthyKeepsNonEmpty(parts[1..]);
    }
  }

  /** Appending one entry to a non-empty list appends the separator and
      that entry to the joined string. */
  lemma {:induction false} JoinSnoc(parts: seq<string>, x: string, sep: string)
    requires parts != []
    ensures Join(parts + [x], sep) == Join(parts, sep) + sep + x
  {
    if |parts| == 1 {
      assert (parts + [x])[1..] == [x];
    } else {
      assert (parts + [x])[1..] == parts[1..] + [x];
      JoinSnoc(parts[1..], x, sep);
    }
  }

  /** Joining five entries puts the separator between each neighbouring pair. */
  lemma Join5(a: string, b: string, c: string, d: string, e: string, sep: string)
    ensures Join([a, b, c, d, e], sep) == a + sep + b + sep + c + sep + d + sep + e
  {
    assert [a, b, c, d, e][1..] == [b, c, d, e];
    assert [b, c, d, e][1..] == [c, d, e];
    assert [c, d, e][1..] == [d, e];
    assert [d, e][1..] == [e];
    assert Join([d, e], sep) == d + sep + e;
    assert Join([c, d, e], sep) == c + sep + (d + sep + e);
    assert Join([b, c, d, e], sep) == b + sep + (c + sep + (d + sep + e));
  }

  /** `filter(Boolean)` then `join` on a list whose only possibly empty
      entry is the last one: that entry and its separator appear only when
      it is non-empty. */
  lemma FilterJoinLast(fixed: seq<string>, last: string, sep: string)
    requires fixed != []
    requires forall i :: 0 <= i < |fixed| ==> fixed[i] != ""
    ensures Join(FilterTruthy(fixed + [last]), sep) == Join(fixed, sep) + (if last == "" then "" else sep + last)
  {
    FilterTruthyAppend(fixed, [last]);
    FilterTruthyKeepsNonEmpty(fixed);
    if last == "" {
      assert FilterTruthy([last]) == [];
      assert FilterTruthy(fixed + [last]) == fixed;
    } else {
      assert FilterTruthy([last]) == [last];
      JoinSnoc(fixed, last, sep);
    }
  }

  predicate IsDigit(c: char) {
    '0' <= c <= '9'
  }

  function DigitChar(d: int): (c: char)
    requires 0 <= d < 10
    ensures IsDigit(c) && c as int - '0' as int == d
  {
    ('0' as int + d) as char
  }

  /** The decimal digits of a natural number, without leading zeros. */
  function NatString(n: nat): (s: string)
    ensures s != [] && forall i :: 0 <= i < |s| ==> IsDigit(s[i])
  {
    if n < 10 then [DigitChar(n)] else NatString(n / 10) + [DigitChar(n % 10)]
  }

  /** `${n}` for an integer `n`: an optional minus sign and its digits. */
  function DecimalString(n: int): string {
    if n < 0 then "-" + NatString(-n) else NatString(n)
  }

  /** The value of a string of decimal digits. */
  function ParseNat(s: string): nat
    requires forall i :: 0 <= i < |s| ==> IsDigit(s[i])
  {
    if s == [] then 0
    else
      assert IsDigit(s[|s| - 1]);
      ParseNat(s[..|s| - 1]) * 10 + (s[|s| - 1] as int - '0' as int)
  }

  /** The strings `DecimalString` can produce. */
  predicate IsDecimal(s: string) {
    if s != [] && s[0] == '-' then
      |s| > 1 && forall i :: 1 <= i < |s| ==> IsDigit(s[i])
    else
      s != [] && forall i :: 0 <= i < |s| ==> IsDigit(s[i])
  }

  /** What a reader of `Max-Age=<n>` recovers from the digits. */
  function ParseDecimal(s: string): int
    requires IsDecimal(s)
  {
    if s[0] == '-' then 0 - ParseNat(s[1..]) as int else ParseNat(s)
  }

  lemma {:induction false} NatStringRoundTrip(n: nat)
    ensures ParseNat(NatString(n)) == n
  {
    if n >= 10 {
      var s := NatString(n);
      assert s[..|s| - 1] == NatString(n / 10);
      NatStringRoundTrip(n / 10);
    }
  }

  /** The decimal form of every integer reads back as that integer. */
  lemma DecimalRoundTrip(n: int)
    ensures IsDecimal(DecimalString(n))
    ensures ParseDecimal(DecimalString(n)) == n
  {
    if n < 0 {
      var s := DecimalString(n);
      assert s[1..] == NatString(-n);
      NatStringRoundTrip(-n);
    } else {
      NatStringRoundTrip(n);
    }
  }
}
