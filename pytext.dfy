/** The handful of Python `str` operations the three scripts rely on, with
    the semantics CPython gives them on ASCII text: `lower()`, `strip()`,
    `split(sep)`, `startswith`/`endswith`, substring search, `isdigit()`,
    `int(s)`, `str(n)` and the `'{:c>w}'` padding of `str.format`. */
module PyText {
  import opened Wrappers

  /** `base` to the power `e`. */
  function Pow(base: nat, e: nat): nat
  {
    if e == 0 then 1 else base * Pow(base, e - 1)
  }

  // ---------------------------------------------------------------- case

  /** `str.isspace()` on one ASCII character: \t \n \v \f \r, \x1c-\x1f and ' '. */
  predicate IsSpace(c: char)
  {
    (9 <= c as int <= 13) || (28 <= c as int <= 32)
  }

  predicate IsUpper(c: char)
  {
    'A' <= c <= 'Z'
  }

  function LowerChar(c: char): char
  {
    if IsUpper(c) then (c as int + 32) as char else c
  }

  /** `str.lower()`: ASCII upper-case letters become lower-case, nothing else moves. */
  function Lower(s: string): (r: string)
    ensures |r| == |s|
    ensures forall i :: 0 <= i < |r| ==> !IsUpper(r[i])
    ensures forall i :: 0 <= i < |s| && !IsUpper(s[i]) ==> r[i] == s[i]
    ensures forall i :: 0 <= i < |s| && IsUpper(s[i]) ==> r[i] as int == s[i] as int + 32
  {
    seq(|s|, i requires 0 <= i < |s| => LowerChar(s[i]))
  }

  lemma LowerIdempotent(s: string)
    ensures Lower(Lower(s)) == Lower(s)
  {
  }

  /** Text without upper-case letters is its own lower-case form. */
  lemma LowerKeeps(s: string)
    requires forall i :: 0 <= i < |s| ==> !IsUpper(s[i])
    ensures Lower(s) == s
  {
  }

  // --------------------------------------------------------------- strip

  /** `str.lstrip()`: drops exactly the leading whitespace. */
  function LStrip(s: string): (r: string)
    ensures |r| <= |s| && r == s[|s| - |r|..]
    ensures r == [] || !IsSpace(r[0])
    ensures forall k :: 0 <= k < |s| - |r| ==> IsSpace(s[k])
    decreases |s|
  {
    if s != [] && IsSpace(s[0]) then LStrip(s[1..]) else s
  }

  /** `str.rstrip()`: drops exactly the trailing whitespace. */
  function RStrip(s: string): (r: string)
    ensures |r| <= |s| && r == s[..|r|]
    ensures r == [] || !IsSpace(r[|r| - 1])
    ensures forall k :: |r| <= k < |s| ==> IsSpace(s[k])
    decreases |s|
  {
    if s != [] && IsSpace(s[|s| - 1]) then RStrip(s[..|s| - 1]) else s
  }

  /** `r` is the slice `s[i..j]` and only whitespace lies outside it. */
  predicate Trimmed(s: string, r: string, i: nat, j: nat)
  {
    && i <= j <= |s| && r == s[i..j]
    && (forall k :: 0 <= k < i ==> IsSpace(s[k]))
    && (forall k :: j <= k < |s| ==> IsSpace(s[k]))
  }

  /** Dropping whitespace at the front of `s` and then at the back of
      what is left trims `s`. */
  lemma TrimmedTwice(s: string, l: string, r: string)
    requires |l| <= |s| && l == s[|s| - |l|..]
    requires forall k :: 0 <= k < |s| - |l| ==> IsSpace(s[k])
    requires |r| <= |l| && r == l[..|r|]
    requires forall k :: |r| <= k < |l| ==> IsSpace(l[k])
    ensures Trimmed(s, r, |s| - |l|, |s| - |l| + |r|)
    ensures exists i: nat, j: nat :: Trimmed(s, r, i, j)
    ensures forall c :: c in r ==> c in s
  {
    var i := |s| - |l|;
    assert s[i..][..|r|] == s[i..i + |r|];
    forall k | i + |r| <= k < |s|
      ensures IsSpace(s[k])
    {
      assert s[k] == l[k - i];
    }
    assert Trimmed(s, r, i, i + |r|);
    forall c | c in r
      ensures c in s
    {
      var m :| 0 <= m < |r| && r[m] == c;
      assert s[i + m] == c;
    }
  }

  /** `str.strip()`: what is left is the run of `s` between its leading
      and its trailing whitespace, and it neither starts nor ends with
      whitespace. */
  function Strip(s: string): (r: string)
    ensures |r| <= |s|
    ensures forall c :: c in r ==> c in s
    ensures exists i: nat, j: nat :: Trimmed(s, r, i, j)
    ensures r == [] || (!IsSpace(r[0]) && !IsSpace(r[|r| - 1]))
  {
    var l := LStrip(s);
    var r := RStrip(l);
    TrimmedTwice(s, l, r);
    r
  }

  lemma StripKeeps(s: string)
    requires s != [] && !IsSpace(s[0]) && !IsSpace(s[|s| - 1])
    ensures Strip(s) == s
  {
  }

  // --------------------------------------------------------------- split

  /** `s.split(sep)` for a one-character separator: the pieces between
      separators, empty pieces included. */
  function Split(s: string, sep: char): (parts: seq<string>)
    ensures |parts| >= 1
    ensures forall i :: 0 <= i < |parts| ==> sep !in parts[i]
    decreases |s|
  {
    if s == [] then [[]]
    else
      var rest := Split(s[1..], sep);
      if s[0] == sep then [[]] + rest
      else [[s[0]] + rest[0]] + rest[1..]
  }

  /** `sep.join(parts)`. */
  function JoinWith(parts: seq<string>, sep: char): string
    requires |parts| >= 1
    decreases |parts|
  {
    if |parts| == 1 then parts[0] else parts[0] + [sep] + JoinWith(parts[1..], sep)
  }

  /** Splitting loses nothing: joining the pieces gives the string back. */
  lemma {:induction false} JoinSplit(s: string, sep: char)
    ensures JoinWith(Split(s, sep), sep) == s
    decreases |s|
  {
    if s != [] {
      var rest := Split(s[1..], sep);
      JoinSplit(s[1..], sep);
      if s[0] == sep {
        assert ([[]] + rest)[1..] == rest;
      } else if |rest| > 1 {
        var parts := [[s[0]] + rest[0]] + rest[1..];
        assert parts[1..] == rest[1..];
        assert JoinWith(rest, sep) == rest[0] + [sep] + JoinWith(rest[1..], sep);
      }
    }
  }

  /** The first piece of `s.split(sep)` is everything before the first `sep`. */
  lemma {:induction false} SplitFirst(s: string, sep: char, k: nat)
    requires k <= |s| && sep !in s[..k] && (k == |s| || s[k] == sep)
    ensures Split(s, sep)[0] == s[..k]
    decreases |s|
  {
    if s != [] && k > 0 {
      assert s[0] == s[..k][0];
      assert s[1..][..k - 1] == s[..k][1..];
      SplitFirst(s[1..], sep, k - 1);
    }
  }

  // ------------------------------------------------------ prefix / search

  predicate StartsWith(s: string, p: string)
  {
    |p| <= |s| && s[..|p|] == p
  }

  predicate EndsWith(s: string, p: string)
  {
    |p| <= |s| && s[|s| - |p|..] == p
  }

  /** `p in s` (also what `re.search(p, s)` finds for a pattern without
      special characters). */
  predicate Contains(s: string, p: string)
    decreases |s|
  {
    StartsWith(s, p) || (s != [] && Contains(s[1..], p))
  }

  /** `p` is the slice of `s` at offset `i`. */
  predicate OccursAt(s: string, p: string, i: nat)
  {
    i + |p| <= |s| && s[i..i + |p|] == p
  }

  /** `p` occurs in `s` iff it is the slice of `s` at some offset. */
  lemma {:induction false} ContainsAt(s: string, p: string)
    ensures Contains(s, p) <==> exists i: nat :: OccursAt(s, p, i)
    decreases |s|
  {
    if StartsWith(s, p) {
      assert OccursAt(s, p, 0);
    } else if s != [] {
      ContainsAt(s[1..], p);
      if Contains(s[1..], p) {
        var i: nat :| OccursAt(s[1..], p, i);
        assert s[i + 1..i + 1 + |p|] == s[1..][i..i + |p|];
        assert OccursAt(s, p, i + 1);
      }
      if exists i: nat :: OccursAt(s, p, i) {
        var i: nat :| OccursAt(s, p, i);
        assert i != 0 by { assert s[..|p|] == s[0..0 + |p|]; }
        assert s[1..][i - 1..i - 1 + |p|] == s[i..i + |p|];
        assert OccursAt(s[1..], p, i - 1);
      }
    } else {
      assert forall i: nat :: !OccursAt(s, p, i);
    }
  }

  /** `s.replace(c, '')` for a single character. */
  function Remove(s: string, c: char): (r: string)
    ensures c !in r
    ensures multiset(r) == multiset(s)[c := 0]
    ensures |r| == |s| - multiset(s)[c]
  {
    if s == [] then []
    else
      assert s == [s[0]] + s[1..];
      if s[0] == c then Remove(s[1..], c)
      else [s[0]] + Remove(s[1..], c)
  }

  /** Removal works piece by piece, so the kept characters keep their order. */
  lemma {:induction false} RemoveAppend(a: string, b: string, c: char)
    ensures Remove(a + b, c) == Remove(a, c) + Remove(b, c)
    decreases |a|
  {
    if a == [] {
      assert a + b == b;
    } else {
      assert (a + b)[0] == a[0] && (a + b)[1..] == a[1..] + b;
      RemoveAppend(a[1..], b, c);
    }
  }

  // -------------------------------------------------------------- digits

  predicate IsDigit(c: char)
  {
    '0' <= c <= '9'
  }

  predicate AllDigits(s: string)
  {
    forall i :: 0 <= i < |s| ==> IsDigit(s[i])
  }

  /** `str.isdigit()` on ASCII: non-empty and nothing but digits. */
  predicate IsDigitString(s: string)
  {
    |s| > 0 && AllDigits(s)
  }

  /** The value of a string of decimal digits. */
  function DigitsValue(s: string): nat
    requires AllDigits(s)
    decreases |s|
  {
    if s == [] then 0 else DigitsValue(s[..|s| - 1]) * 10 + (s[|s| - 1] as int - '0' as int)
  }

  /** `int(s)` for a str: surrounding whitespace, an optional sign, then
      decimal digits; `None` where Python raises `ValueError`. */
  function PyInt(s: string): Option<int>
  {
    var t := Strip(s);
    if t != [] && (t[0] == '+' || t[0] == '-') then
      if IsDigitString(t[1..]) then
        var v: int := DigitsValue(t[1..]);
        Some(if t[0] == '-' then -v else v)
      else None
    else if IsDigitString(t) then Some(DigitsValue(t))
    else None
  }

  /** `int()` of a string of digits is its decimal value. */
  lemma PyIntDigits(s: string)
    requires IsDigitString(s)
    ensures PyInt(s) == Some(DigitsValue(s))
  {
    StripKeeps(s);
  }

  function DigitChar(d: nat): char
    requires d < 10
  {
    (48 + d) as char
  }

  /** `str(n)` for `n >= 0`: its decimal digits, read back to `n`. */
  function FormatNat(n: nat): (s: string)
    ensures IsDigitString(s) && DigitsValue(s) == n
    ensures n > 0 ==> s[0] != '0'
    ensures s[0] != '0' || |s| == 1
    decreases n
  {
    if n < 10 then [DigitChar(n)]
    else
      var p := FormatNat(n / 10);
      var s := p + [DigitChar(n % 10)];
      assert s[..|s| - 1] == p;
      s
  }

  /** `str(i)` for any integer. */
  function FormatInt(i: int): (s: string)
  {
    if i < 0 then "-" + FormatNat(-i) else FormatNat(i)
  }

  /** `int(str(i)) == i`. */
  lemma PyIntFormatInt(i: int)
    ensures PyInt(FormatInt(i)) == Some(i)
  {
    var s := FormatInt(i);
    StripKeeps(s);
    if i < 0 {
      assert s[1..] == FormatNat(-i);
    }
  }

  /** A number below 10^k has at most k digits. */
  lemma {:induction false} FormatNatLength(n: nat, k: nat)
    requires k > 0 && n < Pow(10, k)
    ensures |FormatNat(n)| <= k
    decreases k
  {
    if n >= 10 {
      assert k > 1;
      assert n / 10 < Pow(10, k - 1);
      FormatNatLength(n / 10, k - 1);
    }
  }

  lemma AllDigitsAppend(a: string, b: string)
    requires AllDigits(a) && AllDigits(b)
    ensures AllDigits(a + b)
  {
    forall i | 0 <= i < |a + b| ensures IsDigit((a + b)[i]) {
      if i < |a| { assert (a + b)[i] == a[i]; } else { assert (a + b)[i] == b[i - |a|]; }
    }
  }

  /** Digits put in front weigh by the length of what follows. */
  lemma {:induction false} DigitsValueAppend(a: string, b: string)
    requires AllDigits(a) && AllDigits(b)
    ensures AllDigits(a + b)
    ensures DigitsValue(a + b) == DigitsValue(a) * Pow(10, |b|) + DigitsValue(b)
    decreases |b|
  {
    AllDigitsAppend(a, b);
    if b == [] {
      assert a + b == a;
    } else {
      var b' := b[..|b| - 1];
      assert (a + b)[..|a + b| - 1] == a + b' && (a + b)[|a + b| - 1] == b[|b| - 1];
      DigitsValueAppend(a, b');
      ShiftDigit(DigitsValue(a), Pow(10, |b'|), DigitsValue(b'), b[|b| - 1] as int - '0' as int);
    }
  }

  /** `(x * p + v) * 10 + d == x * (p * 10) + (v * 10 + d)`. */
  lemma ShiftDigit(x: int, p: int, v: int, d: int)
    ensures (x * p + v) * 10 + d == x * (p * 10) + (v * 10 + d)
  {
  }

  // ------------------------------------------------------------- padding

  function Repeat(c: char, n: nat): (r: string)
    ensures |r| == n && forall i :: 0 <= i < n ==> r[i] == c
  {
    seq(n, _ => c)
  }

  /** `'{:c>w}'.format(s)`: `s` right-aligned in a field `w` wide, filled on
      the left with `c`; a longer `s` is not cut. */
  function PadLeft(s: string, w: nat, c: char): (r: string)
    ensures |r| == if |s| >= w then |s| else w
    ensures r[|r| - |s|..] == s
    ensures forall i :: 0 <= i < |r| - |s| ==> r[i] == c
  {
    if |s| >= w then s else Repeat(c, w - |s|) + s
  }

  /** Leading zeros do not change a decimal value. */
  lemma {:induction false} ZeroPadValue(s: string, w: nat)
    requires AllDigits(s)
    ensures AllDigits(PadLeft(s, w, '0'))
    ensures DigitsValue(PadLeft(s, w, '0')) == DigitsValue(s)
  {
    if |s| < w {
      var z := Repeat('0', w - |s|);
      ZerosValue(w - |s|);
      DigitsValueAppend(z, s);
    }
  }

  lemma {:induction false} ZerosValue(n: nat)
    ensures AllDigits(Repeat('0', n)) && DigitsValue(Repeat('0', n)) == 0
  {
    if n > 0 {
      assert Repeat('0', n)[..n - 1] == Repeat('0', n - 1);
      ZerosValue(n - 1);
    }
  }
}
