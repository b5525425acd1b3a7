// What one call of the backup draft's `read` returns on inputs of a known
// shape, stated on the specification function `ScanFrom` that the `Read`
// method is proved against. Each lemma describes the input by what its
// positions hold.
module BackupProperties {
  import opened Text
  import opened Tokens
  import opened BackupLexer

  /** A call that starts on a non-blank character goes straight to its pass:
      a pass that restarts hands over to the call from where it stopped ... */
  lemma ScanFromRestart(s: string, p: nat, ln: nat, p': nat)
    requires p <= |s| && !IsBlank(At(s, p))
    requires PassAt(s, p, ln) == Restart(p', ln)
    ensures p' <= |s| && ScanFrom(s, p, ln) == ScanFrom(s, p', ln)
  {
    assert SkipBlank(s, p) == p;
    assert ReadPass(s, p, ln) == Restart(p', ln);
  }

  /** ... and a pass that is done is the whole call. */
  lemma ScanFromDone(s: string, p: nat, ln: nat)
    requires p <= |s| && !IsBlank(At(s, p))
    requires PassAt(s, p, ln).Done?
    ensures ScanFrom(s, p, ln) == PassAt(s, p, ln).result
  {
    assert SkipBlank(s, p) == p;
  }

  /** A run of blanks is skipped, the line counter rising by its newlines. */
  lemma BlanksSkipped(s: string, p: nat, q: nat, ln: nat)
    requires p <= q <= |s|
    requires forall k :: p <= k < q ==> IsBlank(s[k])
    ensures ScanFrom(s, p, ln) == ScanFrom(s, q, ln + Newlines(s, p, q))
  {
    BlankRunFrom(s, p, q);
    var e := SkipBlank(s, p);
    var m := ln + Newlines(s, p, e);
    assert ReadPass(s, p, ln) == PassAt(s, e, m);
    assert ReadPass(s, q, ln + Newlines(s, p, q)) == PassAt(s, e, m);
  }

  /** A newline is skipped and raises the line counter by exactly one ... */
  lemma NewlineSkipped(s: string, p: nat, ln: nat)
    requires p < |s| && s[p] == '\n'
    ensures ScanFrom(s, p, ln) == ScanFrom(s, p + 1, ln + 1)
  {
    assert Newlines(s, p, p + 1) == 1;
    BlanksSkipped(s, p, p + 1, ln);
  }

  /** ... while a space or a tab is skipped and leaves it alone. */
  lemma SpaceSkipped(s: string, p: nat, ln: nat)
    requires p < |s| && (s[p] == ' ' || s[p] == '\t')
    ensures ScanFrom(s, p, ln) == ScanFrom(s, p + 1, ln)
  {
    BlankStep(s, p, p);
    NewlinesSplit(s, p, p + 1, SkipBlank(s, p));
    assert ReadPass(s, p, ln) == ReadPass(s, p + 1, ln);
  }

  /** A digit run from p to e yields NUM with the decimal value of the digits;
      the character that ends the run is consumed as well, unless it is the end. */
  lemma NumberScan(s: string, p: nat, e: nat, ln: nat)
    requires p < e <= |s|
    requires forall k :: p <= k < e ==> IsDigit(s[k])
    requires !IsDigit(At(s, e))
    ensures AllDigits(s[p..e])
    ensures ScanFrom(s, p, ln) == Scan(Got(Num(NUM, Positional(s[p..e]))), Step(s, e), ln)
  {
    RunEndAt(s, p, e, IsDigit);
    assert PassAt(s, p, ln) == Done(NumberAt(s, p, ln));
    ScanFromDone(s, p, ln);
    HornerIsPositional(s[p..e]);
  }

  /** A word is well formed: a letter, then letters and digits. */
  predicate IsWord(w: string)
  {
    |w| > 0 && IsAlpha(w[0]) && forall i :: 0 <= i < |w| ==> IsAlnum(w[i])
  }

  /** A word from p to e yields its table entry: TRUE or FALSE for the reserved
      words, an ID carrying the exact lexeme otherwise; its terminator is
      consumed too, unless it is the end. */
  lemma WordScan(s: string, p: nat, e: nat, ln: nat)
    requires p < e <= |s| && IsAlpha(s[p])
    requires forall k :: p <= k < e ==> IsAlnum(s[k])
    requires !IsAlnum(At(s, e))
    ensures IsWord(s[p..e])
    ensures ScanFrom(s, p, ln) == Scan(Got(Lookup(s[p..e])), Step(s, e), ln)
  {
    RunEndAt(s, p, e, IsAlnum);
    assert PassAt(s, p, ln) == Done(WordAt(s, p, ln));
    ScanFromDone(s, p, ln);
  }

  /** A line comment from p to e yields no token: the call goes on from the
      end of the line, in front of its newline, which the blank skip counts. */
  lemma LineCommentScan(s: string, p: nat, e: nat, ln: nat)
    requires p + 2 <= e <= |s| && s[p] == '/' && s[p + 1] == '/'
    requires forall k :: p + 2 <= k < e ==> InLine(s[k])
    requires !InLine(At(s, e))
    ensures ScanFrom(s, p, ln) == ScanFrom(s, e, ln)
  {
    RunEndAt(s, p + 2, e, InLine);
    assert PassAt(s, p, ln) == Restart(e, ln);
    ScanFromRestart(s, p, ln, e);
  }

  /** The block-comment skip passes over positions holding neither the sentinel
      nor the start of a closer. */
  lemma {:induction false} BlockEndPast(s: string, p: nat, q: nat)
    requires p <= q
    requires forall k :: p <= k < q ==> At(s, k) != '\0' && !ClosesAt(s, k)
    ensures BlockEnd(s, p) == BlockEnd(s, q)
    decreases q - p
  {
    if p < q {
      BlockEndPast(s, p + 1, q);
    }
  }

  /** A block comment from p to e, whose first closer is the one ending at e,
      yields no token: the call goes on after the closer. */
  lemma BlockCommentScan(s: string, p: nat, e: nat, ln: nat)
    requires p + 4 <= e <= |s| && s[p] == '/' && s[p + 1] == '*'
    requires s[e - 2] == '*' && s[e - 1] == '/'
    requires forall k :: p + 2 <= k < e - 2 ==> s[k] != '\0' && !ClosesAt(s, k)
    ensures ScanFrom(s, p, ln) == ScanFrom(s, e, ln)
  {
    BlockEndPast(s, p + 2, e - 2);
    assert PassAt(s, p, ln) == Restart(e, ln);
    ScanFromRestart(s, p, ln, e);
  }

  /** A block comment never closed makes `read` spin (the source's loop keeps
      calling `next` on the sentinel): no token is ever returned. */
  lemma OpenCommentHangs(s: string, p: nat, ln: nat)
    requires p + 2 <= |s| && s[p] == '/' && s[p + 1] == '*'
    requires forall k :: p + 2 <= k < |s| ==> s[k] != '\0' && !ClosesAt(s, k)
    ensures ScanFrom(s, p, ln).outcome == Hangs
  {
    BlockEndPast(s, p + 2, |s|);
    assert PassAt(s, p, ln) == Done(Scan(Hangs, |s|, ln));
    ScanFromDone(s, p, ln);
  }

  /** Any other character is a one-character operator tagged with its code;
      the cursor moves past it alone. */
  lemma OpScan(s: string, p: nat, ln: nat)
    requires p < |s| && s[p] != '\0' && s[p] != '/' && !IsBlank(s[p]) && !IsAlnum(s[p])
    ensures ScanFrom(s, p, ln) == Scan(Got(Op(s[p] as int, s[p])), p + 1, ln)
  {
    ScanFromDone(s, p, ln);
  }

  /** A slash that opens no comment is an operator, and the character after it,
      already consumed to look for a comment, is lost. */
  lemma SlashScan(s: string, p: nat, ln: nat)
    requires p < |s| && s[p] == '/' && At(s, p + 1) != '/' && At(s, p + 1) != '*'
    ensures ScanFrom(s, p, ln) == Scan(Got(Op('/' as int, '/')), Step(s, p + 1), ln)
    ensures At(s, p + 1) != '\0' ==> ScanFrom(s, p, ln).pos == p + 2
  {
    ScanFromDone(s, p, ln);
  }

  /** At the end of the input `read` returns None and leaves the cursor where
      it is, so every further call returns None again. */
  lemma EndIsFinal(s: string, p: nat, ln: nat)
    requires p <= |s|
    requires ScanFrom(s, p, ln).outcome == Got(None)
    ensures var r := ScanFrom(s, p, ln);
      ScanFrom(s, r.pos, r.line) == r
  {
    var r := ScanFrom(s, p, ln);
    ScanFromDone(s, r.pos, r.line);
  }

  /** The exhausted input yields None without moving. */
  lemma Exhausted(s: string, ln: nat)
    ensures ScanFrom(s, |s|, ln) == Scan(Got(None), |s|, ln)
  {
    ScanFromDone(s, |s|, ln);
  }

  /** The decimal rendering of any natural number reads back as that number. */
  lemma NumberRoundTrip(n: nat, ln: nat)
    ensures var s := Decimal(n);
      ScanFrom(s, 0, ln) == Scan(Got(NumToken(n)), |s|, ln)
  {
    var s := Decimal(n);
    NumberScan(s, 0, |s|, ln);
    assert s[0..|s|] == s;
    HornerIsPositional(s);
    HornerDecimal(n);
  }
}
