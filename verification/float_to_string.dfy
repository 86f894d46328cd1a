/**
  The integer half of the firmware's number formatting: `reverse` turns the
  first `len` characters of a buffer around in place, and `int_to_string`
  writes a non-negative `int` in decimal, zero-padded to a minimum width,
  followed by a NUL.
*/
module FloatToString {
  import opened Avr
  import Mcp7940m

  /** The sequence read backwards. */
  function Reversed<T>(s: seq<T>): (r: seq<T>)
    ensures |r| == |s|
    decreases |s|
  {
    if s == [] then [] else Reversed(s[1..]) + [s[0]]
  }

  lemma {:induction false} ReversedIndex<T>(s: seq<T>)
    ensures forall k :: 0 <= k < |s| ==> Reversed(s)[k] == s[|s| - 1 - k]
    decreases |s|
  {
    if s != [] {
      ReversedIndex(s[1..]);
    }
  }

  /** Reading backwards twice gives the sequence back. */
  lemma ReversedTwice<T>(s: seq<T>)
    ensures Reversed(Reversed(s)) == s
  {
    ReversedIndex(s);
    ReversedIndex(Reversed(s));
  }

  lemma ReversedConcat<T>(a: seq<T>, b: seq<T>)
    ensures Reversed(a + b) == Reversed(b) + Reversed(a)
  {
    ReversedIndex(a + b);
    ReversedIndex(a);
    ReversedIndex(b);
  }

  /** The buffer after `reverse(str, len)`: the first `len` characters backwards, the rest as they were. */
  function ReversedPrefix(s: seq<char>, len: int): (r: seq<char>)
    requires len <= |s|
    ensures |r| == |s|
  {
    if len <= 0 then s else Reversed(s[..len]) + s[len..]
  }

  /** Reversing the same prefix twice restores the buffer. */
  lemma ReversedPrefixTwice(s: seq<char>, len: int)
    requires len <= |s|
    ensures ReversedPrefix(ReversedPrefix(s, len), len) == s
  {
    if len > 0 {
      var r := ReversedPrefix(s, len);
      assert r[..len] == Reversed(s[..len]);
      assert r[len..] == s[len..];
      ReversedTwice(s[..len]);
    }
  }

  /**
    The buffer part-way through `reverse`: the outer `i` characters at each
    end of the first `len` are swapped, everything else is as it was.
  */
  function Swapped(s: seq<char>, len: int, i: int): (r: seq<char>)
    requires len <= |s|
    ensures |r| == |s|
  {
    seq(|s|, k requires 0 <= k < |s| =>
      if (0 <= k < i || len - i <= k < len) && 0 <= len - 1 - k then s[len - 1 - k] else s[k])
  }

  /** Once the outer halves are swapped, the buffer is the reversed prefix. */
  lemma SwappedAllIsReversed(s: seq<char>, len: int, i: int)
    requires len <= |s| && 0 <= i && (len <= 0 || len - 1 - i <= i)
    ensures Swapped(s, len, i) == ReversedPrefix(s, len)
  {
    var r := Swapped(s, len, i);
    if len > 0 {
      var rp := ReversedPrefix(s, len);
      assert rp == Reversed(s[..len]) + s[len..];
      ReversedIndex(s[..len]);
      forall k | 0 <= k < |r|
        ensures r[k] == rp[k]
      {
        if k >= len {
          assert rp[k] == s[len..][k - len] == s[k];
        } else {
          assert rp[k] == Reversed(s[..len])[k] == s[len - 1 - k];
        }
      }
      assert r == rp;
    } else {
      assert forall k :: 0 <= k < |r| ==> r[k] == s[k];
    }
  }

  /** Nothing is swapped before the first pass. */
  lemma SwappedNone(s: seq<char>, len: int)
    requires len <= |s|
    ensures Swapped(s, len, 0) == s
  {
  }

  /** One pass of the loop in `reverse` swaps the next pair inwards. */
  lemma SwapStep(s: seq<char>, len: int, i: int)
    requires len <= |s| && 0 <= i < len - 1 - i
    ensures var r, j := Swapped(s, len, i), len - 1 - i;
      r[i := r[j]][j := r[i]] == Swapped(s, len, i + 1)
  {
  }

  /** `reverse`: swaps `str[i]` and `str[j]` while `i < j`, with `i` from 0 up and `j` from `len - 1` down. */
  method Reverse(str: array<char>, len: int)
    requires len <= str.Length
    modifies str
    ensures str[..] == ReversedPrefix(old(str[..]), len)
  {
    ghost var original := str[..];
    SwappedNone(original, len);
    var i, j := 0, len - 1;
    while i < j
      invariant 0 <= i && j == len - 1 - i
      invariant len <= 0 ==> i == 0
      invariant len > 0 ==> i <= j + 1
      invariant str[..] == Swapped(original, len, i)
    {
      SwapStep(original, len, i);
      var temp := str[i];
      str[i] := str[j];
      str[j] := temp;
      i := i + 1;
      j := j - 1;
    }
    SwappedAllIsReversed(original, len, i);
  }

  /** The number of decimal digits `int_to_string` emits for x; none for 0. */
  function NumDigits(x: nat): nat {
    if x == 0 then 0 else 1 + NumDigits(x / 10)
  }

  /** The digits of x, least significant first, as the first loop emits them. */
  function LowDigits(x: nat): (s: string)
    ensures |s| == NumDigits(x)
  {
    if x == 0 then [] else [DigitChar(x % 10)] + LowDigits(x / 10)
  }

  /** x in decimal, most significant digit first; the empty string for 0. */
  function Decimal(x: nat): (s: string)
    ensures |s| == NumDigits(x)
    ensures forall k :: 0 <= k < |s| ==> IsDigitChar(s[k])
  {
    if x == 0 then [] else Decimal(x / 10) + [DigitChar(x % 10)]
  }

  function Max(a: int, b: int): int {
    if a < b then b else a
  }

  /** x in decimal, left-padded with '0' to at least `d` characters. */
  function Padded(x: nat, d: int): (s: string)
    ensures |s| == Max(NumDigits(x), d)
  {
    seq(Max(NumDigits(x), d) - NumDigits(x), _ => '0') + Decimal(x)
  }

  lemma {:induction false} LowDigitsReversed(x: nat)
    ensures Reversed(LowDigits(x)) == Decimal(x)
  {
    if x != 0 {
      LowDigitsReversed(x / 10);
      ReversedConcat([DigitChar(x % 10)], LowDigits(x / 10));
      assert Reversed([DigitChar(x % 10)]) == [DigitChar(x % 10)];
    }
  }

  lemma ReversedZeros(n: nat)
    ensures Reversed(seq(n, _ => '0')) == seq(n, _ => '0')
  {
    ReversedIndex(seq(n, _ => '0'));
  }

  /**
    `int_to_string`: writes x in decimal, zero-padded to width `d`, then a
    NUL, and returns the number of characters before the NUL. `x` is an AVR
    `int`, taken non-negative.
  */
  method IntToString(x: int16, str: array<char>, d: int16) returns (i: int)
    requires 0 <= x
    requires Max(NumDigits(x), d) < str.Length
    modifies str
    ensures i == Max(NumDigits(x), d)
    ensures str[..i] == Padded(x, d) && str[i] == Nul
    ensures str[i + 1..] == old(str[i + 1..])
  {
    i := EmitLowDigits(x, str);
    i := PadWithZeros(x, str, i, d);
    ghost var written := str[..];
    Reverse(str, i);
    assert str[..i] == Padded(x, d) by {
      ReversedPrefixOfWritten(written, str[..], i);
      ReversedDigitsArePadded(x, i - NumDigits(x));
    }
    str[i] := Nul;
  }

  /** The first loop of `int_to_string`: `str[i++] = x % 10 + '0'` while x is not zero. */
  method EmitLowDigits(x: nat, str: array<char>) returns (i: int)
    requires NumDigits(x) <= str.Length
    modifies str
    ensures i == NumDigits(x)
    ensures str[..i] == LowDigits(x)
    ensures forall k :: i <= k < str.Length ==> str[k] == old(str[k])
  {
    var n := x;
    i := 0;
    while n != 0
      invariant 0 <= n <= x
      invariant i + NumDigits(n) == NumDigits(x)
      invariant str[..i] + LowDigits(n) == LowDigits(x)
      invariant forall k :: i <= k < str.Length ==> str[k] == old(str[k])
      decreases n
    {
      ghost var emitted := str[..i];
      str[i] := DigitChar(n % 10);
      assert str[..i + 1] == emitted + [DigitChar(n % 10)];
      EmitOneDigit(emitted, n, LowDigits(x));
      i := i + 1;
      n := n / 10;
    }
  }

  /** One pass of the first loop: moving the lowest digit of n to the emitted prefix keeps the whole. */
  lemma EmitOneDigit(emitted: string, n: nat, all: string)
    requires n != 0 && emitted + LowDigits(n) == all
    ensures (emitted + [DigitChar(n % 10)]) + LowDigits(n / 10) == all
  {
    assert LowDigits(n) == [DigitChar(n % 10)] + LowDigits(n / 10);
  }

  /** The second loop of `int_to_string`: `str[i++] = '0'` while `i < d`. */
  method PadWithZeros(x: nat, str: array<char>, i0: int, d: int) returns (i: int)
    requires i0 == NumDigits(x) && Max(i0, d) <= str.Length
    requires str[..i0] == LowDigits(x)
    modifies str
    ensures i == Max(NumDigits(x), d)
    ensures str[..i] == LowDigits(x) + seq(i - NumDigits(x), _ => '0')
    ensures forall k :: i <= k < str.Length ==> str[k] == old(str[k])
  {
    i := i0;
    while i < d
      invariant NumDigits(x) <= i <= Max(NumDigits(x), d)
      invariant str[..i] == LowDigits(x) + seq(i - NumDigits(x), _ => '0')
      invariant forall k :: i <= k < str.Length ==> str[k] == old(str[k])
    {
      ghost var written := str[..i];
      str[i] := '0';
      assert str[..i + 1] == written + ['0'];
      assert seq(i + 1 - NumDigits(x), _ => '0') == seq(i - NumDigits(x), _ => '0') + ['0'];
      i := i + 1;
    }
  }

  lemma ReversedPrefixOfWritten(written: seq<char>, after: seq<char>, i: nat)
    requires i <= |written| && after == ReversedPrefix(written, i)
    ensures after[..i] == Reversed(written[..i])
  {
  }

  /** Reversing the low-first digits followed by the padding gives the padded decimal. */
  lemma ReversedDigitsArePadded(x: nat, pad: nat)
    ensures Reversed(LowDigits(x) + seq(pad, _ => '0')) == seq(pad, _ => '0') + Decimal(x)
  {
    ReversedConcat(LowDigits(x), seq(pad, _ => '0'));
    ReversedZeros(pad);
    LowDigitsReversed(x);
  }

  /** With x = 0 and no minimum width, `int_to_string` writes the empty string and returns 0. */
  lemma ZeroWithoutWidthIsEmpty()
    ensures Padded(0, 0) == "" && Max(NumDigits(0), 0) == 0
  {
  }

  /** For x > 0 the unpadded digits are what `"%d"` prints. */
  lemma {:induction false} DecimalIsPrintfDecimal(x: nat)
    requires x > 0
    ensures Decimal(x) == Mcp7940m.DecimalString(x)
  {
    if x >= 10 {
      DecimalIsPrintfDecimal(x / 10);
    }
  }

  lemma {:induction false} LeadingZerosAddNothing(n: nat, s: string)
    ensures DecimalValue(seq(n, _ => '0') + s) == DecimalValue(s)
    decreases |s|, n
  {
    var z := seq(n, _ => '0');
    if s == [] {
      assert z + s == z;
      if n > 0 {
        assert z[..n - 1] == seq(n - 1, _ => '0');
        LeadingZerosAddNothing(n - 1, []);
        assert seq(n - 1, _ => '0') + [] == seq(n - 1, _ => '0');
      }
    } else {
      var t := z + s;
      assert t[..|t| - 1] == z + s[..|s| - 1];
      LeadingZerosAddNothing(n, s[..|s| - 1]);
    }
  }

  /** Every character written is a digit, and the padded string reads back as x. */
  lemma PaddedReadsBack(x: nat, d: int)
    ensures forall k :: 0 <= k < |Padded(x, d)| ==> IsDigitChar(Padded(x, d)[k])
    ensures DecimalValue(Padded(x, d)) == x
  {
    var pad := Max(NumDigits(x), d) - NumDigits(x);
    var p := Padded(x, d);
    assert p == seq(pad, _ => '0') + Decimal(x);
    forall k | 0 <= k < |p|
      ensures IsDigitChar(p[k])
    {
      if k >= pad {
        assert p[k] == Decimal(x)[k - pad];
      }
    }
    LeadingZerosAddNothing(pad, Decimal(x));
    if x > 0 {
      DecimalIsPrintfDecimal(x);
      Mcp7940m.DecimalStringRoundTrip(x);
    }
  }
}
