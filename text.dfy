/**
 * The few C and C++ string services the settlement code relies on:
 * `std::atoi`, `std::to_string` on a non-negative value, the narrowing of an `int`
 * into an `unsigned short`, `std::string::find` for one character, and the
 * lexicographic `<=` of `std::string`.
 */
module Text {
  import opened Wrappers

  /** The characters C's isspace accepts in the "C" locale. */
  predicate IsSpace(c: char) {
    c == ' ' || c == '\t' || c == '\n' || c == '\U{B}' || c == '\U{C}' || c == '\r'
  }

  predicate IsDigit(c: char) {
    '0' <= c <= '9'
  }

  predicate AllDigits(s: string) {
    forall i :: 0 <= i < |s| ==> IsDigit(s[i])
  }

  function DigitValue(c: char): (n: nat)
    requires IsDigit(c)
    ensures n < 10
  {
    c as int - '0' as int
  }

  function DigitChar(n: nat): (c: char)
    requires n < 10
    ensures IsDigit(c) && DigitValue(c) == n
  {
    ('0' as int + n) as char
  }

  /**
   * The value of the digits at the start of s, read after `acc`: each digit
   * multiplies what was read so far by ten and adds itself; reading stops at the
   * first character that is not a digit.
   */
  function ReadDigits(s: string, acc: nat): nat {
    if s != [] && IsDigit(s[0]) then ReadDigits(s[1..], acc * 10 + DigitValue(s[0])) else acc
  }

  /** s without its leading white space. */
  function SkipSpaces(s: string): string {
    if s != [] && IsSpace(s[0]) then SkipSpaces(s[1..]) else s
  }

  /**
   * `std::atoi`: leading white space, an optional sign, then as many digits as
   * follow; 0 when no digit follows. (Overflow of `int` is undefined in C and is
   * not modelled: the value is unbounded.)
   */
  function Atoi(s: string): int {
    var t := SkipSpaces(s);
    if t != [] && t[0] == '-' then -(ReadDigits(t[1..], 0) as int)
    else if t != [] && t[0] == '+' then ReadDigits(t[1..], 0)
    else ReadDigits(t, 0)
  }

  /** The conversion of an `int` into an `unsigned short`: arithmetic modulo 2^16. */
  function ToUShort(n: int): (r: int)
    ensures 0 <= r < 0x1_0000
    ensures 0 <= n < 0x1_0000 ==> r == n
  {
    n % 0x1_0000
  }

  /** `std::to_string` of a non-negative value: decimal digits, no leading zero. */
  function NatToString(n: nat): (r: string)
    ensures r != [] && AllDigits(r)
    ensures |r| > 1 ==> r[0] != '0'
  {
    if n < 10 then [DigitChar(n)] else NatToString(n / 10) + [DigitChar(n % 10)]
  }

  /** Reading digits across a concatenation: first the leading all-digit part, then the rest. */
  lemma {:induction false} ReadDigitsAppend(a: string, b: string, acc: nat)
    requires AllDigits(a)
    ensures ReadDigits(a + b, acc) == ReadDigits(b, ReadDigits(a, acc))
  {
    if a != [] {
      assert (a + b)[0] == a[0] && (a + b)[1..] == a[1..] + b;
      ReadDigitsAppend(a[1..], b, acc * 10 + DigitValue(a[0]));
    } else {
      assert a + b == b;
    }
  }

  lemma {:induction false} ReadNatToString(n: nat)
    ensures ReadDigits(NatToString(n), 0) == n
  {
    var d := DigitChar(n % 10);
    if n >= 10 {
      ReadNatToString(n / 10);
      ReadDigitsAppend(NatToString(n / 10), [d], 0);
    }
    assert ReadDigits([d], n / 10) == n;
  }

  /** `std::atoi` reads back what `std::to_string` wrote, after any white space. */
  lemma {:induction false} AtoiNatToString(pad: string, n: nat)
    requires forall i :: 0 <= i < |pad| ==> IsSpace(pad[i])
    ensures Atoi(pad + NatToString(n)) == n
  {
    var s := NatToString(n);
    SkipPadding(pad, s);
    ReadNatToString(n);
    assert ReadDigits(s + [], 0) == ReadDigits([], ReadDigits(s, 0)) by {
      ReadDigitsAppend(s, [], 0);
    }
    assert s + [] == s;
  }

  lemma {:induction false} SkipPadding(pad: string, s: string)
    requires forall i :: 0 <= i < |pad| ==> IsSpace(pad[i])
    requires s != [] && !IsSpace(s[0])
    ensures SkipSpaces(pad + s) == s
  {
    if pad != [] {
      assert (pad + s)[1..] == pad[1..] + s;
      SkipPadding(pad[1..], s);
    } else {
      assert pad + s == s;
    }
  }

  /** `std::atoi` of text that does not start, after white space, with a sign or a digit is 0. */
  lemma {:induction false} AtoiNonNumeric(pad: string, s: string)
    requires forall i :: 0 <= i < |pad| ==> IsSpace(pad[i])
    requires s == [] || (!IsSpace(s[0]) && !IsDigit(s[0]) && s[0] != '-' && s[0] != '+')
    ensures Atoi(pad + s) == 0
  {
    if s == [] {
      SkipAllSpaces(pad);
      assert pad + s == pad;
    } else {
      SkipPadding(pad, s);
    }
  }

  lemma {:induction false} SkipAllSpaces(pad: string)
    requires forall i :: 0 <= i < |pad| ==> IsSpace(pad[i])
    ensures SkipSpaces(pad) == []
  {
    if pad != [] {
      SkipAllSpaces(pad[1..]);
    }
  }

  /** `std::string::find(c, from)`: the first position at or after `from` holding c, if any. */
  function Find(s: string, c: char, from: nat): (r: Option<nat>)
    ensures r.Some? ==> from <= r.value < |s| && s[r.value] == c
    ensures r.Some? ==> forall k :: from <= k < r.value ==> s[k] != c
    ensures r.None? ==> forall k :: from <= k < |s| ==> s[k] != c
    decreases |s| - from
  {
    if from >= |s| then None
    else if s[from] == c then Some(from)
    else Find(s, c, from + 1)
  }

  /** The `<=` of `std::string`: character by character, a prefix before its extensions. */
  predicate LexLe(a: string, b: string) {
    a == [] || (b != [] && (a[0] < b[0] || (a[0] == b[0] && LexLe(a[1..], b[1..]))))
  }

  lemma {:induction false} LexLeReflexive(a: string)
    ensures LexLe(a, a)
  {
    if a != [] {
      LexLeReflexive(a[1..]);
    }
  }

  lemma {:induction false} LexLeTransitive(a: string, b: string, c: string)
    requires LexLe(a, b) && LexLe(b, c)
    ensures LexLe(a, c)
  {
    if a != [] && b != [] && c != [] && a[0] == b[0] == c[0] {
      LexLeTransitive(a[1..], b[1..], c[1..]);
    }
  }

  lemma {:induction false} LexLeTotal(a: string, b: string)
    ensures LexLe(a, b) || LexLe(b, a)
  {
    if a != [] && b != [] && a[0] == b[0] {
      LexLeTotal(a[1..], b[1..]);
    }
  }

  lemma {:induction false} LexLeAntisymmetric(a: string, b: string)
    requires LexLe(a, b) && LexLe(b, a)
    ensures a == b
  {
    if a != [] && b != [] {
      LexLeAntisymmetric(a[1..], b[1..]);
      assert a == [a[0]] + a[1..];
      assert b == [b[0]] + b[1..];
    }
  }
}
