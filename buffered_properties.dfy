// What one call of the current draft's `read` returns on inputs of a known
// shape, stated on the specification function `ScanFrom` that the `Read`
// method is proved against. Positions count the characters `next_char` has
// handed out; past the input it hands out NUL.
module BufferedProperties {
  import opened Text
  import opened Tokens
  import opened BufferedLexer

  /** A run of blanks is skipped, the line counter rising by its newlines. */
  lemma BlanksSkipped(s: string, p: nat, q: nat, ln: nat)
    requires p <= q <= |s|
    requires forall k :: p <= k < q ==> IsBlank(s[k])
    ensures ScanFrom(s, p, ln) == ScanFrom(s, q, ln + Newlines(s, p, q))
  {
    BlankRunFrom(s, p, q);
  }

  /** A newline is skipped and raises the line counter by exactly one ... */
  lemma NewlineSkipped(s: string, p: nat, ln: nat)
    requires p < |s| && s[p] == '\n'
    ensures ScanFrom(s, p, ln) == ScanFrom(s, p + 1, ln + 1)
  {
    assert Newlines(s, p, p + 1) == 1;
    BlanksSkipped(s, p, p + 1, ln);
  }

  /** ... while a space or a tab is skipped and leaves it alone. */
  lemma SpaceSkipped(s: string, p: nat, ln: nat)
    requires p < |s| && (s[p] == ' ' || s[p] == '\t')
    ensures ScanFrom(s, p, ln) == ScanFrom(s, p + 1, ln)
  {
    assert Newlines(s, p, p + 1) == 0;
    BlanksSkipped(s, p, p + 1, ln);
  }

  /** A digit run from p to e yields NUM with the decimal value of the digits,
      and the character after the run is spent too, even at the end of the
      input, where it is the NUL that follows. */
  lemma NumberScan(s: string, p: nat, e: nat, ln: nat)
    requires p < e <= |s|
    requires forall k :: p <= k < e ==> IsDigit(s[k])
    requires !IsDigit(At(s, e))
    ensures AllDigits(s[p..e])
    ensures ScanFrom(s, p, ln) == Scan(Num(NUM, Positional(s[p..e])), e + 1, ln)
  {
    RunEndAt(s, p, e, IsDigit);
    NoBlankStep(s, p);
    HornerIsPositional(s[p..e]);
  }

  /** A word from p to e yields its table entry: TRUE or FALSE for the reserved
      words, an ID carrying the exact lexeme otherwise; the character after it
      is spent too. */
  lemma WordScan(s: string, p: nat, e: nat, ln: nat)
    requires p < e <= |s| && IsAlpha(s[p])
    requires forall k :: p <= k < e ==> IsAlnum(s[k])
    requires !IsAlnum(At(s, e))
    ensures ScanFrom(s, p, ln) == Scan(Lookup(s[p..e]), e + 1, ln)
  {
    RunEndAt(s, p, e, IsAlnum);
    NoBlankStep(s, p);
  }

  /** Any other character, NUL included, is a one-character operator tagged
      with its code, and only it is spent. */
  lemma OpScan(s: string, p: nat, ln: nat)
    requires !IsBlank(At(s, p)) && !IsAlnum(At(s, p))
    ensures ScanFrom(s, p, ln) == Scan(Op(At(s, p) as int, At(s, p)), p + 1, ln)
  {
    NoBlankStep(s, p);
  }

  /** Once the input is spent, every call returns the NUL operator (tag 0) and
      spends one more NUL: the scanner never signals the end. */
  lemma Exhausted(s: string, p: nat, ln: nat)
    requires |s| <= p
    ensures ScanFrom(s, p, ln) == Scan(Op(0, '\0'), p + 1, ln)
  {
    OpScan(s, p, ln);
  }

  /** The decimal rendering of any natural number reads back as that number,
      spending the NUL after it. */
  lemma NumberRoundTrip(n: nat, ln: nat)
    ensures var s := Decimal(n);
      ScanFrom(s, 0, ln) == Scan(NumToken(n), |s| + 1, ln)
  {
    var s := Decimal(n);
    NumberScan(s, 0, |s|, ln);
    assert s[0..|s|] == s;
    HornerIsPositional(s);
    HornerDecimal(n);
  }
}
