/**
 * The tool's two C-string helpers: appending a string into a bounded buffer
 * and printing an `int` in decimal. Character buffers are arrays of `char`
 * and a C string is the prefix before its first NUL.
 */
module TextUtil {
  const NUL: char := '\0'

  /** Length of the C string held in `s`: the index of the first NUL, or all
      of `s` when there is none. */
  function CStrLen(s: seq<char>): (n: nat)
    ensures n <= |s|
    ensures forall i | 0 <= i < n :: s[i] != NUL
    ensures n < |s| ==> s[n] == NUL
  {
    if s == [] || s[0] == NUL then 0 else 1 + CStrLen(s[1..])
  }

  /** Number of characters `concat_text` copies: the string, cut at `end`. */
  function CopyCount(dst: nat, end: nat, src: seq<char>): nat {
    if dst < end then
      if CStrLen(src) < end - dst then CStrLen(src) else end - dst
    else 0
  }

  /** Append the C string `src` at `buf[dst]`, stopping at its NUL or at `end`,
      whichever comes first; return the position after the last character
      written. No terminator is written and nothing at or past `end` changes. */
  method ConcatText(buf: array<char>, dst: nat, end: nat, src: seq<char>) returns (next: nat)
    requires end <= buf.Length
    modifies buf
    ensures next == dst + CopyCount(dst, end, src)
    ensures next == dst || next <= end
    ensures forall i | 0 <= i < next - dst :: buf[dst + i] == src[i]
    ensures forall i | 0 <= i < buf.Length && !(dst <= i < next) :: buf[i] == old(buf[i])
  {
    next := dst;
    var j := 0;
    while j < |src| && src[j] != NUL && next < end
      invariant 0 <= j <= CStrLen(src)
      invariant next == dst + j
      invariant j == 0 || next <= end
      invariant forall i | 0 <= i < j :: buf[dst + i] == src[i]
      invariant forall i | 0 <= i < buf.Length && !(dst <= i < next) :: buf[i] == old(buf[i])
    {
      buf[next] := src[j];
      next := next + 1;
      j := j + 1;
    }
  }

  /** ASCII digit of a value below ten. */
  function DigitChar(d: nat): char
    requires d < 10
  {
    ('0' as int + d) as char
  }

  predicate IsDigit(c: char) {
    '0' as int <= c as int <= '9' as int
  }

  /** Decimal digits of `n`, most significant first, without leading zeros. */
  function Digits(n: nat): (s: string)
    ensures |s| >= 1
    ensures forall i | 0 <= i < |s| :: IsDigit(s[i])
    ensures s[0] == '0' <==> n == 0
  {
    if n < 10 then [DigitChar(n)] else Digits(n / 10) + [DigitChar(n % 10)]
  }

  /** Text `t_itoa` produces for `x`: a '-' for a negative number, then the
      digits of its magnitude. */
  function DecimalText(x: int): (s: string)
    ensures |s| >= 1
    ensures s[0] == '-' <==> x < 0
  {
    (if x < 0 then "-" else "") + Digits(if x < 0 then -x else x)
  }

  /** Value of a string of decimal digits. */
  function DigitsValue(s: string): nat
    requires forall i | 0 <= i < |s| :: IsDigit(s[i])
  {
    if s == [] then 0
    else
      assert IsDigit(s[|s| - 1]);
      DigitsValue(s[..|s| - 1]) * 10 + (s[|s| - 1] as int - '0' as int)
  }

  /** Reading the digits back gives the number. */
  lemma {:induction false} DigitsRoundTrip(n: nat)
    ensures DigitsValue(Digits(n)) == n
  {
    if n >= 10 {
      DigitsRoundTrip(n / 10);
      var s := Digits(n);
      assert s[..|s| - 1] == Digits(n / 10);
    }
  }

  /** The decimal text is a faithful rendering: its sign says whether `x` is
      negative and its digits read back as the magnitude, so distinct numbers
      print differently. */
  lemma DecimalTextRoundTrip(x: int)
    ensures var s := DecimalText(x);
      var digits := if x < 0 then s[1..] else s;
      (forall i | 0 <= i < |digits| :: IsDigit(digits[i])) &&
      (if x < 0 then -(DigitsValue(digits) as int) else DigitsValue(digits) as int) == x
  {
    var s := DecimalText(x);
    var n := if x < 0 then -x else x;
    DigitsRoundTrip(n);
    if x < 0 {
      assert s[1..] == Digits(n);
    } else {
      assert s == Digits(n);
    }
  }

  lemma DecimalTextInjective(x: int, y: int)
    requires DecimalText(x) == DecimalText(y)
    ensures x == y
  {
    DecimalTextRoundTrip(x);
    DecimalTextRoundTrip(y);
  }

  /** `s` backwards. */
  function Reverse(s: string): (r: string)
    ensures |r| == |s|
    ensures forall i | 0 <= i < |s| :: r[i] == s[|s| - 1 - i]
  {
    seq(|s|, i requires 0 <= i < |s| => s[|s| - 1 - i])
  }

  /** Reversal undoes itself. */
  lemma ReverseInvolution(s: string)
    ensures Reverse(Reverse(s)) == s
  {
  }

  /** Reversal of a concatenation, part by part: the digits written least
      significant first, then the sign, come out of the final reversal as
      the sign followed by the digits in reading order. */
  lemma ReverseAppend(a: string, b: string)
    ensures Reverse(a + b) == Reverse(b) + Reverse(a)
  {
  }

  /** The swap loop that ends `t_itoa`: reverse `a[..len]` in place, leaving
      the rest of `a` alone. */
  method ReverseInPlace(a: array<char>, len: nat)
    requires len <= a.Length
    modifies a
    ensures a[..len] == Reverse(old(a[..len]))
    ensures forall j | len <= j < a.Length :: a[j] == old(a[j])
  {
    ghost var s := a[..len];
    var k := 0;
    while k < len / 2
      invariant 0 <= k <= len / 2
      invariant forall j | 0 <= j < k :: a[j] == s[len - 1 - j]
      invariant forall j | len - k <= j < len :: a[j] == s[len - 1 - j]
      invariant forall j | k <= j < len - k :: a[j] == s[j]
      invariant forall j | len <= j < a.Length :: a[j] == old(a[j])
    {
      a[k], a[len - k - 1] := a[len - k - 1], a[k];
      k := k + 1;
    }
  }

  /** The first loop of `t_itoa`: write the digits of `n > 0` least
      significant first from index 0, and return how many were written. */
  method WriteDigitsBackwards(dst: array<char>, n: nat) returns (len: nat)
    requires 0 < n && |Digits(n)| < dst.Length
    modifies dst
    ensures len == |Digits(n)|
    ensures dst[..len] == Reverse(Digits(n))
    ensures forall j | len <= j < dst.Length :: dst[j] == old(dst[j])
  {
    ghost var digits := Digits(n);
    var m: nat := n;
    len := 0;
    // `done` holds the digits written so far, most significant first.
    ghost var done: string := [];
    while m != 0
      invariant 0 <= len == |done| <= |digits|
      invariant m > 0 ==> digits == Digits(m) + done
      invariant m == 0 ==> digits == done
      decreases m
      invariant forall j | 0 <= j < len :: dst[j] == done[len - 1 - j]
      invariant forall j | len <= j < dst.Length :: dst[j] == old(dst[j])
    {
      var c := DigitChar(m % 10);
      dst[len] := c;
      done := [c] + done;
      m := m / 10;
      len := len + 1;
    }
  }

  /** Write `src` in decimal into `dst`, NUL-terminated. The digits are
      produced least significant first, the sign is appended, and the text
      is then reversed in place. Zero gives "0". */
  method TItoa(dst: array<char>, src: int)
    requires -0x8000_0000 <= src < 0x8000_0000
    requires |DecimalText(src)| < dst.Length
    modifies dst
    ensures dst[..|DecimalText(src)|] == DecimalText(src)
    ensures dst[|DecimalText(src)|] == NUL
    ensures forall i | |DecimalText(src)| < i < dst.Length :: dst[i] == old(dst[i])
  {
    ghost var text := DecimalText(src);
    var n: nat := if src < 0 then -src else src;
    if n == 0 {
      dst[0] := '0';
      dst[1] := NUL;
      return;
    }
    var i := WriteDigitsBackwards(dst, n);
    if src < 0 {
      dst[i] := '-';
      i := i + 1;
    }
    assert dst[..i] == Reverse(text);
    dst[i] := NUL;
    ReverseInPlace(dst, i);
    ReverseInvolution(text);
  }
}
