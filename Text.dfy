/** The Java library string operations the tool relies on: `String.contains`,
    `Integer.toString` / `Integer.valueOf`, `Boolean.toString` / `Boolean.valueOf`,
    and a comma/separator split used to state what composed strings contain. */
module Text {
  import opened Wrappers

  /** A Java `int`. */
  type Int32 = x: int | -0x8000_0000 <= x < 0x8000_0000

  // ---------------------------------------------------------------------------
  // Substring search (String.contains)
  // ---------------------------------------------------------------------------

  /** `t` occurs in `s` starting at index `i`. */
  predicate OccursAt(s: string, t: string, i: int)
  {
    0 <= i && i + |t| <= |s| && s[i..i + |t|] == t
  }

  lemma OccursAtShift(s: string, t: string)
    requires |s| > 0 && !OccursAt(s, t, 0)
    ensures (exists i :: OccursAt(s[1..], t, i)) <==> (exists i :: OccursAt(s, t, i))
  {
    forall i | OccursAt(s[1..], t, i)
      ensures OccursAt(s, t, i + 1)
    {
      assert s[1..][i..i + |t|] == s[i + 1..i + 1 + |t|];
    }
    forall i | OccursAt(s, t, i)
      ensures OccursAt(s[1..], t, i - 1)
    {
      assert s[1..][i - 1..i - 1 + |t|] == s[i..i + |t|];
    }
  }

  /** `s.contains(t)`: some position of `s` starts an occurrence of `t`. */
  function Contains(s: string, t: string): (r: bool)
    ensures r <==> exists i :: OccursAt(s, t, i)
    decreases |s|
  {
    if |s| < |t| then
      false
    else if s[..|t|] == t then
      assert OccursAt(s, t, 0);
      true
    else
      OccursAtShift(s, t);
      Contains(s[1..], t)
  }

  // ---------------------------------------------------------------------------
  // Decimal integers (Integer.toString, Integer.valueOf)
  // ---------------------------------------------------------------------------

  predicate IsDigit(c: char)
  {
    '0' <= c <= '9'
  }

  predicate AllDigits(s: string)
  {
    forall k :: 0 <= k < |s| ==> IsDigit(s[k])
  }

  /** The number a string of decimal digits denotes (leading zeros allowed). */
  function DigitsValue(s: string): nat
    requires AllDigits(s)
    decreases |s|
  {
    if s == [] then 0
    else DigitsValue(s[..|s| - 1]) * 10 + (s[|s| - 1] as int - '0' as int)
  }

  /** The decimal digits of `n`, most significant first, without leading zeros. */
  function DecimalDigits(n: nat): (r: string)
    ensures |r| > 0 && AllDigits(r) && DigitsValue(r) == n
    decreases n
  {
    var last := ('0' as int + n % 10) as char;
    if n < 10 then
      [last]
    else
      var high := DecimalDigits(n / 10);
      var r := high + [last];
      assert r[..|r| - 1] == high;
      r
  }

  /** `Integer.toString(n)`: an optional minus sign followed by the digits of |n|.
      Reading it back with `Integer.valueOf` gives `n` again. */
  function IntToString(n: Int32): (r: string)
    ensures ParseInt(r) == Some(n)
    ensures forall k :: 0 <= k < |r| ==> IsDigit(r[k]) || r[k] == '-'
  {
    if n < 0 then
      var magnitude: nat := -(n as int);
      var digits := DecimalDigits(magnitude);
      var r := "-" + digits;
      assert r[1..] == digits;
      r
    else
      DecimalDigits(n)
  }

  /** `Integer.valueOf(s)` for decimal text: an optional `-` or `+`, then at
      least one digit, denoting a value in the `int` range; anything else is a
      `NumberFormatException`, modelled as `None`. */
  function ParseInt(s: string): (r: Option<Int32>)
    ensures r.Some? ==> |s| > 0
    // unsigned text: accepted exactly when it is all digits denoting an int
    ensures |s| > 0 && s[0] != '-' && s[0] != '+' ==>
              (r.Some? <==> AllDigits(s) && DigitsValue(s) < 0x8000_0000) &&
              (r.Some? ==> r.value == DigitsValue(s))
    // `+digits`: the same value as the digits alone
    ensures |s| > 0 && s[0] == '+' ==>
              (r.Some? <==> |s| > 1 && AllDigits(s[1..]) && DigitsValue(s[1..]) < 0x8000_0000) &&
              (r.Some? ==> r.value == DigitsValue(s[1..]))
    // `-digits`: the negated value, down to -2^31
    ensures |s| > 0 && s[0] == '-' ==>
              (r.Some? <==> |s| > 1 && AllDigits(s[1..]) && DigitsValue(s[1..]) <= 0x8000_0000) &&
              (r.Some? ==> r.value == -(DigitsValue(s[1..]) as int))
  {
    if |s| == 0 then None
    else
      var digits := if s[0] == '-' || s[0] == '+' then s[1..] else s;
      if |digits| == 0 || !AllDigits(digits) then None
      else
        var v: int := if s[0] == '-' then -(DigitsValue(digits) as int) else DigitsValue(digits);
        if -0x8000_0000 <= v < 0x8000_0000 then Some(v) else None
  }

  // ---------------------------------------------------------------------------
  // Booleans (Boolean.toString, Boolean.valueOf)
  // ---------------------------------------------------------------------------

  function AsciiLower(c: char): char
  {
    if 'A' <= c <= 'Z' then (c as int + 32) as char else c
  }

  /** `Boolean.valueOf(s)`: true exactly when `s` is "true" ignoring case. */
  function ParseBool(s: string): (r: bool)
    ensures r <==> |s| == 4 && s[0] in "tT" && s[1] in "rR" && s[2] in "uU" && s[3] in "eE"
  {
    |s| == 4 && AsciiLower(s[0]) == 't' && AsciiLower(s[1]) == 'r'
              && AsciiLower(s[2]) == 'u' && AsciiLower(s[3]) == 'e'
  }

  /** `Boolean.toString(b)`; `Boolean.valueOf` reads it back. */
  function BoolToString(b: bool): (r: string)
    ensures ParseBool(r) == b
    ensures |r| > 0 && r[|r| - 1] == 'e'
  {
    if b then "true" else "false"
  }

  // ---------------------------------------------------------------------------
  // Splitting at a separator character
  // ---------------------------------------------------------------------------

  /** The pieces of `s` between occurrences of `sep`; empty pieces are kept,
      so there is always one more piece than there are separators. */
  function Split(s: string, sep: char): (r: seq<string>)
    ensures |r| >= 1
    decreases |s|
  {
    if s == [] then [""]
    else
      var rest := Split(s[1..], sep);
      if s[0] == sep then [""] + rest else [[s[0]] + rest[0]] + rest[1..]
  }

  /** A string without the separator is a single piece. */
  lemma {:induction false} SplitWithout(s: string, sep: char)
    requires sep !in s
    ensures Split(s, sep) == [s]
    decreases |s|
  {
    if s != [] {
      assert s[0] != sep;
      assert sep !in s[1..] by {
        forall k | 0 <= k < |s[1..]| ensures s[1..][k] != sep { assert s[1..][k] == s[k + 1]; }
      }
      SplitWithout(s[1..], sep);
      assert [s[0]] + s[1..] == s;
    }
  }

  /** Joining two strings with the separator joins their pieces. */
  lemma {:induction false} SplitJoin(a: string, b: string, sep: char)
    ensures Split(a + [sep] + b, sep) == Split(a, sep) + Split(b, sep)
    decreases |a|
  {
    var s := a + [sep] + b;
    if a == [] {
      assert s[0] == sep && s[1..] == b;
    } else {
      assert s[0] == a[0];
      assert s[1..] == a[1..] + [sep] + b;
      SplitJoin(a[1..], b, sep);
    }
  }
}
