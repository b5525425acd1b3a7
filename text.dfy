/** Characters as both lexer drafts see them, and the position-indexed scanning
    primitives their `read` loops are built from.

    The input is a string of ASCII characters: each byte the reader delivers is
    the char it casts to (`as char`), and positions past the end read as the
    NUL sentinel, which is what both drafts' character sources return there. */
module Text {

  /** The model's restriction on input: every byte is ASCII. */
  predicate IsAscii(s: string)
  {
    forall i :: 0 <= i < |s| ==> (s[i] as int) < 0x80
  }

  /** The character at position p, or the NUL sentinel at and past the end. */
  function At(s: string, p: nat): char
  {
    if p < |s| then s[p] else '\0'
  }

  /** Characters the whitespace loop of `read` consumes without a token. */
  predicate IsBlank(c: char)
  {
    c == ' ' || c == '\t' || c == '\n'
  }

  /** `is_numeric` restricted to ASCII. */
  predicate IsDigit(c: char)
  {
    '0' <= c <= '9'
  }

  /** `is_alphabetic` restricted to ASCII. */
  predicate IsAlpha(c: char)
  {
    'a' <= c <= 'z' || 'A' <= c <= 'Z'
  }

  /** `is_alphanumeric` restricted to ASCII. */
  predicate IsAlnum(c: char)
  {
    IsDigit(c) || IsAlpha(c)
  }

  /** Characters a `//` comment runs over: anything but the newline and the sentinel. */
  predicate InLine(c: char)
  {
    c != '\n' && c != '\0'
  }

  predicate AllDigits(ds: string)
  {
    forall i :: 0 <= i < |ds| ==> IsDigit(ds[i])
  }

  /** The first position at or after p whose character is not in the run.
      The sentinel ends every run, so no run reaches past the end of s. */
  function RunEnd(s: string, p: nat, inRun: char -> bool): (e: nat)
    requires !inRun('\0')
    ensures p <= e
    ensures forall k :: p <= k < e ==> inRun(At(s, k))
    ensures forall k :: p <= k < e ==> k < |s| && inRun(s[k])
    ensures !inRun(At(s, e))
    ensures e == p || e <= |s|
    decreases |s| - p
  {
    if inRun(At(s, p)) then RunEnd(s, p + 1, inRun) else p
  }

  /** Where the whitespace loop of `read` stops: the first non-blank position. */
  function SkipBlank(s: string, p: nat): nat
  {
    RunEnd(s, p, IsBlank)
  }

  /** Where a `//` comment stops: on its newline, or on the sentinel. */
  function LineEnd(s: string, p: nat): nat
  {
    RunEnd(s, p, InLine)
  }

  /** The number of newlines among positions p .. q-1. */
  function Newlines(s: string, p: nat, q: nat): nat
    decreases q
  {
    if q <= p then 0 else Newlines(s, p, q - 1) + (if At(s, q - 1) == '\n' then 1 else 0)
  }

  /** Counting newlines from p + 1 instead of p drops exactly the one at p, if any. */
  lemma {:induction false} NewlinesFromNext(s: string, p: nat, q: nat)
    requires p < q
    ensures Newlines(s, p, q) == (if At(s, p) == '\n' then 1 else 0) + Newlines(s, p + 1, q)
    decreases q
  {
    if q > p + 1 {
      NewlinesFromNext(s, p, q - 1);
    }
  }

  /** Counting over p .. r splits at any q between. */
  lemma {:induction false} NewlinesSplit(s: string, p: nat, q: nat, r: nat)
    requires p <= q <= r
    ensures Newlines(s, p, r) == Newlines(s, p, q) + Newlines(s, q, r)
    decreases r
  {
    if q < r {
      NewlinesSplit(s, p, q, r - 1);
    }
  }

  /** Newlines are counted only at positions that hold one. */
  lemma {:induction false} NoNewlines(s: string, p: nat, q: nat)
    requires forall k :: p <= k < q ==> At(s, k) != '\n'
    ensures Newlines(s, p, q) == 0
    decreases q
  {
    if q > p {
      NoNewlines(s, p, q - 1);
    }
  }

  function DigitValue(c: char): (d: nat)
    requires IsDigit(c)
    ensures d < 10
  {
    (c as int) - ('0' as int)
  }

  /** The value `read` accumulates over a digit run: `val = 10 * val + digit`,
      left to right. A run of k digits folds to a value below 10^k. */
  function Horner(ds: string): (v: int)
    requires AllDigits(ds)
    ensures 0 <= v < Pow10(|ds|)
  {
    if ds == [] then 0 else 10 * Horner(ds[..|ds| - 1]) + DigitValue(ds[|ds| - 1])
  }

  /** One more digit on the right multiplies the value so far by ten and adds the digit. */
  lemma HornerSnoc(ds: string, c: char)
    requires AllDigits(ds) && IsDigit(c)
    ensures AllDigits(ds + [c])
    ensures Horner(ds + [c]) == 10 * Horner(ds) + DigitValue(c)
  {
    assert (ds + [c])[..|ds|] == ds;
  }

  /** Extending a slice of s by one position appends that position's character. */
  lemma SliceSnoc(s: string, q: nat, k: nat)
    requires q <= k < |s|
    ensures s[q..k + 1] == s[q..k] + [s[k]]
  {
  }

  /** The fold over a digit slice of s, extended by one more digit. */
  lemma HornerExtend(s: string, q: nat, k: nat)
    requires q <= k < |s| && AllDigits(s[q..k]) && IsDigit(s[k])
    ensures AllDigits(s[q..k + 1])
    ensures Horner(s[q..k + 1]) == 10 * Horner(s[q..k]) + DigitValue(s[k])
  {
    SliceSnoc(s, q, k);
    HornerSnoc(s[q..k], s[k]);
  }

  function Pow10(n: nat): (r: nat)
    ensures r >= 1
  {
    if n == 0 then 1 else 10 * Pow10(n - 1)
  }

  /** The decimal value of a digit string by place value: each digit times the
      power of ten of its position, counted from the right. */
  function Positional(ds: string): nat
    requires AllDigits(ds)
  {
    if ds == [] then 0 else DigitValue(ds[0]) * Pow10(|ds| - 1) + Positional(ds[1..])
  }

  /** The decimal rendering of a natural number, most significant digit first. */
  function Decimal(n: nat): (ds: string)
    ensures |ds| > 0 && AllDigits(ds)
  {
    if n < 10 then [('0' as int + n) as char]
    else Decimal(n / 10) + [('0' as int + n % 10) as char]
  }

  /** The decimal rendering of a natural number is ASCII. */
  lemma DecimalIsAscii(n: nat)
    ensures IsAscii(Decimal(n))
  {
    var s := Decimal(n);
    assert forall i :: 0 <= i < |s| ==> IsDigit(s[i]);
  }

  lemma {:induction false} PositionalSnoc(ds: string, c: char)
    requires AllDigits(ds) && IsDigit(c)
    ensures AllDigits(ds + [c])
    ensures Positional(ds + [c]) == 10 * Positional(ds) + DigitValue(c)
    decreases |ds|
  {
    if ds != [] {
      assert (ds + [c])[1..] == ds[1..] + [c];
      PositionalSnoc(ds[1..], c);
      var d, m := DigitValue(ds[0]), Pow10(|ds| - 1);
      assert Pow10(|ds|) == 10 * m;
      ShiftTen(d, m);
    }
  }

  lemma ShiftTen(d: int, m: int)
    ensures d * (10 * m) == 10 * (d * m)
  {
  }

  /** The source's left-to-right fold computes the place-value meaning of the digits. */
  lemma {:induction false} HornerIsPositional(ds: string)
    requires AllDigits(ds)
    ensures Horner(ds) == Positional(ds)
    decreases |ds|
  {
    if ds != [] {
      var init, last := ds[..|ds| - 1], ds[|ds| - 1];
      assert ds == init + [last];
      HornerIsPositional(init);
      PositionalSnoc(init, last);
    }
  }

  /** Folding the digits of n gives back n. */
  lemma {:induction false} HornerDecimal(n: nat)
    ensures Horner(Decimal(n)) == n
  {
    if n >= 10 {
      var ds := Decimal(n);
      assert ds[..|ds| - 1] == Decimal(n / 10);
      HornerDecimal(n / 10);
    }
  }

  lemma {:induction false} Pow10Monotone(m: nat, n: nat)
    requires m <= n
    ensures Pow10(m) <= Pow10(n)
    decreases n
  {
    if m < n {
      Pow10Monotone(m, n - 1);
    }
  }

  const I64_MAX: int := 0x7fff_ffff_ffff_ffff

  /** The source folds into an `i64` without an overflow check; every literal of
      at most 18 digits stays within range, so the fold is exact there. */
  lemma FitsInI64(ds: string)
    requires AllDigits(ds) && |ds| <= 18
    ensures 0 <= Horner(ds) <= I64_MAX
  {
    Pow10Monotone(|ds|, 18);
    assert Pow10(6) == 1_000_000;
    assert Pow10(12) == 1_000_000_000_000;
    assert Pow10(18) == 1_000_000_000_000_000_000;
  }

  /** Starting a run later, at a position still inside it, ends it at the same place. */
  lemma {:induction false} RunEndSkip(s: string, p: nat, q: nat, inRun: char -> bool)
    requires !inRun('\0') && p <= q
    requires forall k :: p <= k < q ==> inRun(At(s, k))
    ensures RunEnd(s, p, inRun) == RunEnd(s, q, inRun)
    decreases q - p
  {
    if p < q {
      RunEndSkip(s, p + 1, q, inRun);
    }
  }

  /** Skipping blanks from p or from a later q inside the same blank run stops
      at the same place, and the newlines counted from p are those before q plus
      those counted from q. */
  lemma BlankRunFrom(s: string, p: nat, q: nat)
    requires p <= q
    requires forall k :: p <= k < q ==> IsBlank(At(s, k))
    ensures SkipBlank(s, p) == SkipBlank(s, q)
    ensures Newlines(s, p, SkipBlank(s, p)) == Newlines(s, p, q) + Newlines(s, q, SkipBlank(s, q))
  {
    RunEndSkip(s, p, q, IsBlank);
    NewlinesSplit(s, p, q, SkipBlank(s, p));
  }

  /** A blank at k is skipped: the blank skip from k + 1 stops where the one
      from k does, and the count of newlines since p0 grows by one exactly when
      the blank is a newline. */
  lemma BlankStep(s: string, p0: nat, k: nat)
    requires p0 <= k && IsBlank(At(s, k))
    ensures k < SkipBlank(s, k) && SkipBlank(s, k + 1) == SkipBlank(s, k)
    ensures Newlines(s, p0, k + 1) == Newlines(s, p0, k) + if At(s, k) == '\n' then 1 else 0
  {
  }

  /** The blank skip stops at once on a character that is not blank. */
  lemma NoBlankStep(s: string, k: nat)
    requires !IsBlank(At(s, k))
    ensures SkipBlank(s, k) == k
  {
  }

  /** A run ends at the first position whose character is outside it. */
  lemma {:induction false} RunEndAt(s: string, p: nat, e: nat, inRun: char -> bool)
    requires !inRun('\0') && p <= e
    requires forall k :: p <= k < e ==> inRun(At(s, k))
    requires !inRun(At(s, e))
    ensures RunEnd(s, p, inRun) == e
    decreases e - p
  {
    if p < e {
      RunEndAt(s, p + 1, e, inRun);
    }
  }
}
