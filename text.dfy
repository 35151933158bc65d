/** String helpers of the reporter: `strmul`, number-to-text conversion and `Array.join`. */
module Text {

  /** `s` repeated `n` times. */
  function Repeat(s: string, n: nat): string
  {
    if n == 0 then "" else Repeat(s, n - 1) + s
  }

  /** `s` repeated `n` times is `n` times as long as `s`. */
  lemma {:induction false} RepeatLength(s: string, n: nat)
    ensures |Repeat(s, n)| == n * |s|
  {
    if n > 0 {
      RepeatLength(s, n - 1);
    }
  }

  /** Repeating a string made of one character gives a string made of that character. */
  lemma {:induction false} RepeatUniform(s: string, n: nat, c: char)
    requires forall i | 0 <= i < |s| :: s[i] == c
    ensures forall i | 0 <= i < |Repeat(s, n)| :: Repeat(s, n)[i] == c
  {
    if n > 0 {
      RepeatUniform(s, n - 1, c);
      var r := Repeat(s, n);
      assert r == Repeat(s, n - 1) + s;
      forall i | 0 <= i < |r| ensures r[i] == c {
        if i < |Repeat(s, n - 1)| {
          assert r[i] == Repeat(s, n - 1)[i];
        } else {
          assert r[i] == s[i - |Repeat(s, n - 1)|];
        }
      }
    }
  }

  /** `strmul(s, n)`: concatenates `s` to an accumulator `n` times; a negative `n` runs the loop zero times. */
  method Strmul(s: string, n: int) returns (r: string)
    ensures n >= 0 ==> r == Repeat(s, n)
    ensures n < 0 ==> r == ""
  {
    r := "";
    var i := 0;
    while i < n
      invariant 0 <= i && (n >= 0 ==> i <= n) && (n < 0 ==> i == 0)
      invariant r == Repeat(s, i)
    {
      r := r + s;
      i := i + 1;
    }
  }

  lemma AppendAssoc<T>(a: seq<T>, b: seq<T>, c: seq<T>)
    ensures a + b + c == a + (b + c)
  {
  }

  /** Indexing into a sequence extended by two elements. */
  lemma PairAt<T>(pre: seq<T>, m: nat, a: T, b: T, i: nat)
    requires |pre| == 2 * m && i <= m
    ensures i < m ==> (pre + [a, b])[2 * i] == pre[2 * i] && (pre + [a, b])[2 * i + 1] == pre[2 * i + 1]
    ensures i == m ==> (pre + [a, b])[2 * i] == a && (pre + [a, b])[2 * i + 1] == b
  {
  }

  lemma SliceAfter<T>(pre: seq<T>, s: seq<T>, i: nat, j: nat)
    requires i <= j <= |s|
    ensures (pre + s)[|pre| + i..|pre| + j] == s[i..j]
  {
  }

  /**
   * `s.slice(0, end)`: a negative `end` counts back from the end of `s`, and the result
   * is clamped to `s`; it is always a prefix of `s`.
   */
  function SliceTo(s: string, end: int): (r: string)
    ensures |r| <= |s| && r == s[..|r|]
    ensures 0 <= end <= |s| ==> |r| == end
    ensures end > |s| ==> r == s
    ensures end < 0 ==> |r| == if |s| + end > 0 then |s| + end else 0
  {
    if end < 0 then (if |s| + end > 0 then s[..|s| + end] else "")
    else if end > |s| then s
    else s[..end]
  }

  function DigitChar(d: nat): char
    requires d < 10
  {
    "0123456789"[d]
  }

  function DigitValue(c: char): nat
  {
    if '0' <= c <= '9' then (c as int - '0' as int) as nat else 0
  }

  /** The decimal text JavaScript produces for a non-negative integer (`'' + n`). */
  function NatToString(n: nat): (r: string)
    ensures |r| > 0
    decreases n
  {
    if n < 10 then [DigitChar(n)] else NatToString(n / 10) + [DigitChar(n % 10)]
  }

  /** The decimal text consists of digits only. */
  lemma {:induction false} NatToStringDigits(n: nat)
    ensures forall i | 0 <= i < |NatToString(n)| :: '0' <= NatToString(n)[i] <= '9'
    decreases n
  {
    if n >= 10 {
      NatToStringDigits(n / 10);
    }
  }

  /** Reads a string of decimal digits back as a number. */
  function ParseNat(s: string): nat
  {
    if s == "" then 0 else ParseNat(s[..|s| - 1]) * 10 + DigitValue(s[|s| - 1])
  }

  /**
   * A property key that JavaScript treats as an array index: the canonical decimal text
   * (no leading zero) of an integer below 2^32 - 1. `Object.keys` lists these keys before
   * all others, in ascending numeric order.
   */
  predicate IsIndexKey(s: string)
  {
    && |s| > 0 && (forall i | 0 <= i < |s| :: '0' <= s[i] <= '9')
    && (s[0] != '0' || |s| == 1)
    && ParseNat(s) < 0xFFFF_FFFF
  }

  /** Reading the printed count gives back the count: the decimal text is faithful. */
  lemma {:induction false} NatToStringRoundTrip(n: nat)
    ensures ParseNat(NatToString(n)) == n
  {
    var s := NatToString(n);
    if n < 10 {
      assert s[..|s| - 1] == "";
    } else {
      NatToStringRoundTrip(n / 10);
      assert s[..|s| - 1] == NatToString(n / 10);
    }
  }

  /** `xs.join(sep)`. */
  function Join(xs: seq<string>, sep: string): string
  {
    if |xs| == 0 then ""
    else if |xs| == 1 then xs[0]
    else Join(xs[..|xs| - 1], sep) + sep + xs[|xs| - 1]
  }
}
