/** String helpers with the JavaScript semantics the cue interpreters rely
    on: `String.prototype.split` on a one-character separator, the
    `filter(p => p)` that drops empty parts, and the decimal rendering of an
    integer (`Number.prototype.toString`, Rust's `i32::to_string`). */
module Text {
  import opened Wrappers

  /** `s.split(c)`: the maximal runs between separators, in order. There is
      always at least one part; `"".split(c)` is `[""]`. */
  function Split(s: string, c: char): (parts: seq<string>)
    ensures |parts| >= 1
    ensures forall k :: 0 <= k < |parts| ==> c !in parts[k]
    ensures Join(parts, c) == s
    decreases |s|
  {
    if s == [] then [""]
    else
      var rest := Split(s[1..], c);
      if s[0] == c then [""] + rest
      else
        assert Join([[s[0]] + rest[0]] + rest[1..], c) == [s[0]] + Join(rest, c);
        [[s[0]] + rest[0]] + rest[1..]
  }

  /** The inverse of `Split`: the parts glued together with the separator. */
  function Join(parts: seq<string>, c: char): string
    requires |parts| >= 1
  {
    if |parts| == 1 then parts[0] else parts[0] + [c] + Join(parts[1..], c)
  }

  /** Splitting at a separator concatenates the splits of both sides. */
  lemma {:induction false} SplitAround(a: string, c: char, b: string)
    ensures Split(a + [c] + b, c) == Split(a, c) + Split(b, c)
    decreases |a|
  {
    if a == [] {
      assert a + [c] + b == [c] + b;
      assert ([c] + b)[1..] == b;
    } else {
      assert (a + [c] + b)[1..] == a[1..] + [c] + b;
      SplitAround(a[1..], c, b);
    }
  }

  /** A string without the separator splits into itself. */
  lemma {:induction false} SplitWithout(s: string, c: char)
    requires c !in s
    ensures Split(s, c) == [s]
    decreases |s|
  {
    if s != [] {
      assert c !in s[1..];
      SplitWithout(s[1..], c);
      assert [s[0]] + s[1..] == s;
    }
  }

  /** Every part is empty exactly when the string is made of separators only. */
  lemma {:induction false} SplitAllEmpty(s: string, c: char)
    ensures (forall k :: 0 <= k < |s| ==> s[k] == c) <==>
            (forall k :: 0 <= k < |Split(s, c)| ==> Split(s, c)[k] == "")
    decreases |s|
  {
    if s != [] {
      SplitAllEmpty(s[1..], c);
      var rest := Split(s[1..], c);
      if s[0] == c {
        assert Split(s, c) == [""] + rest;
        if forall k :: 0 <= k < |rest| ==> rest[k] == "" {
          assert forall k :: 0 <= k < |s[1..]| ==> s[1..][k] == c;
          assert forall k :: 0 < k < |s| ==> s[k] == s[1..][k - 1];
        }
      } else {
        assert Split(s, c)[0] == [s[0]] + rest[0];
      }
    }
  }

  /** `parts.filter(p => p)`: the non-empty parts, in order. */
  function NonEmpty(parts: seq<string>): (r: seq<string>)
    ensures forall k :: 0 <= k < |r| ==> r[k] != ""
    ensures |r| <= |parts|
  {
    if parts == [] then []
    else if parts[0] == "" then NonEmpty(parts[1..])
    else [parts[0]] + NonEmpty(parts[1..])
  }

  lemma {:induction false} NonEmptyAppend(xs: seq<string>, ys: seq<string>)
    ensures NonEmpty(xs + ys) == NonEmpty(xs) + NonEmpty(ys)
    decreases |xs|
  {
    if xs != [] {
      assert (xs + ys)[0] == xs[0] && (xs + ys)[1..] == xs[1..] + ys;
      NonEmptyAppend(xs[1..], ys);
      assert xs + ys != [];
      if xs[0] == "" {
        assert NonEmpty(xs + ys) == NonEmpty(xs[1..] + ys);
        assert NonEmpty(xs) == NonEmpty(xs[1..]);
      } else {
        assert NonEmpty(xs) == [xs[0]] + NonEmpty(xs[1..]);
        assert NonEmpty(xs + ys) == [xs[0]] + NonEmpty(xs[1..] + ys);
        assert [xs[0]] + (NonEmpty(xs[1..]) + NonEmpty(ys)) == ([xs[0]] + NonEmpty(xs[1..])) + NonEmpty(ys);
      }
    } else {
      assert xs + ys == ys;
    }
  }

  /** Nothing survives the filter exactly when every part is empty. */
  lemma {:induction false} NonEmptyNone(parts: seq<string>)
    ensures NonEmpty(parts) == [] <==> forall k :: 0 <= k < |parts| ==> parts[k] == ""
    decreases |parts|
  {
    if parts != [] {
      NonEmptyNone(parts[1..]);
      assert forall k :: 0 < k < |parts| ==> parts[k] == parts[1..][k - 1];
    }
  }

  function Last<T>(xs: seq<T>): T
    requires |xs| > 0
  {
    xs[|xs| - 1]
  }

  predicate IsDigit(ch: char) {
    '0' <= ch <= '9'
  }

  predicate AllDigits(t: string) {
    forall k :: 0 <= k < |t| ==> IsDigit(t[k])
  }

  /** Decimal digits of a natural number, most significant first, without
      leading zeros. */
  function NatToString(n: nat): (r: string)
    ensures |r| > 0 && AllDigits(r)
    ensures r[0] == '0' ==> n == 0
    decreases n
  {
    if n < 10 then ["0123456789"[n]]
    else NatToString(n / 10) + ["0123456789"[n % 10]]
  }

  /** The decimal text of an integer, as JavaScript's `toString` and Rust's
      `to_string` write it: a leading `-` for negative values. */
  function IntToString(i: int): (r: string)
    ensures |r| > 0 && (r[0] == '-' <==> i < 0)
    ensures i < 0 ==> |r| > 1 && AllDigits(r[1..]) && r[1] != '0'
    ensures i >= 0 ==> AllDigits(r) && (r[0] == '0' ==> i == 0)
  {
    if i < 0 then "-" + NatToString(-i) else NatToString(i)
  }

  function DigitsValue(t: string): nat
    requires AllDigits(t)
  {
    if t == [] then 0 else 10 * DigitsValue(t[..|t| - 1]) + (t[|t| - 1] - '0') as nat
  }

  /** A reference parser for optionally signed decimal integers. */
  function ParseInt(t: string): Option<int> {
    if |t| > 1 && t[0] == '-' && AllDigits(t[1..]) then Some(-(DigitsValue(t[1..]) as int))
    else if |t| > 0 && AllDigits(t) then Some(DigitsValue(t))
    else None
  }

  lemma {:induction false} NatToStringValue(n: nat)
    ensures DigitsValue(NatToString(n)) == n
    decreases n
  {
    if n >= 10 {
      NatToStringValue(n / 10);
      var r := NatToString(n);
      assert r[..|r| - 1] == NatToString(n / 10);
    }
  }

  /** Digits, with or without a leading `-`, parse to their value. */
  lemma ParseDigits(d: string)
    requires |d| > 0 && AllDigits(d)
    ensures ParseInt(d) == Some(DigitsValue(d))
    ensures ParseInt("-" + d) == Some(-(DigitsValue(d) as int))
  {
    assert IsDigit(d[0]);
    assert ("-" + d)[1..] == d;
  }

  /** The decimal text reads back as the same integer, and is never empty or
      the `"--"` sentinel. */
  lemma IntToStringRoundTrip(i: int)
    ensures ParseInt(IntToString(i)) == Some(i)
    ensures IntToString(i) != "" && IntToString(i) != "--"
  {
    var n: nat := if i < 0 then -i else i;
    var d := NatToString(n);
    NatToStringValue(n);
    ParseDigits(d);
    assert IsDigit(d[0]);
    if i < 0 {
      assert IntToString(i) == "-" + d;
      assert ("-" + d)[1] == d[0];
    } else {
      assert IntToString(i) == d;
    }
  }
}
