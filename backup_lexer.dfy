// The backup draft of the scanner (2.6/src/lexer_BACKUP_25031.rs): the whole
// input is read into `content` up front, a cursor `bufIndex` walks it, the NUL
// character stands for the end, line and block comments are skipped, and an
// exhausted input yields the `None` token.
module BackupLexer {
  import opened Text
  import opened Tokens

  /** What one call of `read` does: returns a token, or never returns (the
      source's block-comment loop spins forever on an unterminated comment). */
  datatype Outcome = Got(token: Token) | Hangs

  /** One call of `read`: its outcome and the cursor and line counter it leaves. */
  datatype Scan = Scan(outcome: Outcome, pos: nat, line: nat)

  /** Where `next` leaves a cursor at p: one further, unless it reads the sentinel. */
  function Step(s: string, p: nat): (r: nat)
    ensures r == p || r == p + 1
    ensures r == p <==> At(s, p) == '\0'
    ensures p <= |s| ==> r <= |s|
  {
    if At(s, p) != '\0' then p + 1 else p
  }

  // Whether a comment closer (star, slash) starts at position k.
  predicate ClosesAt(s: string, k: nat)
  {
    At(s, k) == '*' && At(s, k + 1) == '/'
  }

  // How a block comment whose body starts at p ends: just after its closer,
  // or stuck on the sentinel when no closer comes first.
  datatype Close = Closed(after: nat) | Open(stuck: nat)

  // The block-comment skip as the source's own comment describes it:
  // everything up to the first closer.
  function BlockEnd(s: string, p: nat): (r: Close)
    ensures r.Closed? ==>
      p + 2 <= r.after <= |s| && ClosesAt(s, r.after - 2) &&
      forall k :: p <= k < r.after - 2 ==> At(s, k) != '\0' && !ClosesAt(s, k)
    ensures r.Open? ==>
      p <= r.stuck && (p <= |s| ==> r.stuck <= |s|) && At(s, r.stuck) == '\0' &&
      forall k :: p <= k < r.stuck ==> At(s, k) != '\0' && !ClosesAt(s, k)
    decreases |s| - p
  {
    if At(s, p) == '\0' then Open(p)
    else if ClosesAt(s, p) then Closed(p + 2)
    else BlockEnd(s, p + 1)
  }

  // The block-comment skip as the source writes it: a loop whose condition
  // calls `next` once, and a second time only when the first call gave a star.
  // A star thus swallows the character after it, so a closer whose star is that
  // swallowed character is missed. When it does stop, it stops just after a
  // real closer.
  function BlockEndAsWritten(s: string, p: nat): (r: Close)
    ensures r.Closed? ==> p + 2 <= r.after <= |s| && ClosesAt(s, r.after - 2)
    ensures r.Open? ==> p <= r.stuck && At(s, r.stuck) == '\0'
    decreases |s| - p
  {
    if At(s, p) == '\0' then Open(p)
    else if At(s, p) != '*' then BlockEndAsWritten(s, p + 1)
    else if At(s, p + 1) == '/' then Closed(p + 2)
    else if At(s, p + 1) == '\0' then Open(p + 1)
    else BlockEndAsWritten(s, p + 2)
  }

  // On the five characters slash, star, star, star, slash the loop as written
  // pairs the second star with the third and then runs past the final slash,
  // never stopping, although the comment is closed. A comment ending in two
  // stars and a slash is missed the same way.
  lemma AsWrittenMissesClose()
    ensures BlockEnd("/***/", 2) == Closed(5)
    ensures BlockEndAsWritten("/***/", 2) == Open(5)
    ensures BlockEnd("/* a **/", 2) == Closed(8)
    ensures BlockEndAsWritten("/* a **/", 2) == Open(8)
  {
    var s := "/***/";
    assert BlockEndAsWritten(s, 4) == BlockEndAsWritten(s, 5);
    assert BlockEnd(s, 2) == BlockEnd(s, 3);
    var t := "/* a **/";
    assert BlockEndAsWritten(t, 5) == BlockEndAsWritten(t, 7);
    assert BlockEndAsWritten(t, 2) == BlockEndAsWritten(t, 5);
    assert BlockEnd(t, 2) == BlockEnd(t, 6);
  }

  /** One pass of `read` from cursor p with line counter ln: blanks, then either
      a token (or a hang), or a comment after which `read` calls itself again
      from where the comment ended. */
  datatype Pass = Done(result: Scan) | Restart(pos: nat, line: nat)

  function ReadPass(s: string, p: nat, ln: nat): (r: Pass)
    requires p <= |s|
    ensures r.Restart? ==> p < r.pos <= |s| && ln <= r.line
    ensures r.Done? ==> p <= r.result.pos <= |s| && ln <= r.result.line
    ensures r.Done? && r.result.outcome == Got(None) ==> At(s, r.result.pos) == '\0'
    ensures r.Done? && r.result.outcome.Got? && r.result.outcome.token.Op? ==>
      !IsBlank(r.result.outcome.token.ch)
  {
    var q := SkipBlank(s, p);
    PassAt(s, q, ln + Newlines(s, p, q))
  }

  /** The rest of a pass once the blanks are behind: q is the first other position. */
  function PassAt(s: string, q: nat, ln: nat): (r: Pass)
    requires q <= |s| && !IsBlank(At(s, q))
    ensures r.Restart? ==> q < r.pos <= |s| && ln == r.line
    ensures r.Done? ==> q <= r.result.pos <= |s| && ln == r.result.line
    ensures r.Done? && r.result.outcome == Got(None) ==> At(s, r.result.pos) == '\0'
    ensures r.Done? && r.result.outcome.Got? && r.result.outcome.token.Op? ==>
      !IsBlank(r.result.outcome.token.ch)
  {
    var c := At(s, q);
    if c == '\0' then Done(Scan(Got(None), q, ln))
    else if c == '/' && At(s, q + 1) == '/' then Restart(LineEnd(s, q + 2), ln)
    else if c == '/' && At(s, q + 1) == '*' then
      match BlockEnd(s, q + 2)
      case Closed(e) => Restart(e, ln)
      case Open(k) => Done(Scan(Hangs, k, ln))
    else if c == '/' then Done(Scan(Got(OpToken('/')), Step(s, q + 1), ln))
    else if IsDigit(c) then Done(NumberAt(s, q, ln))
    else if IsAlpha(c) then Done(WordAt(s, q, ln))
    else Done(Scan(Got(OpToken(c)), q + 1, ln))
  }

  /** A number starting at q: the value of its digit run, and the cursor just
      after the character that ends the run (which is consumed). */
  function NumberAt(s: string, q: nat, ln: nat): (r: Scan)
    requires q < |s| && IsDigit(s[q])
    ensures q < r.pos <= |s| && r.line == ln && r.outcome.Got? && r.outcome.token.Num?
  {
    var e := RunEnd(s, q, IsDigit);
    Scan(Got(NumToken(Horner(s[q..e]))), Step(s, e), ln)
  }

  /** A word starting at q: the table entry of its alphanumeric run, and the
      cursor just after the character that ends the run (which is consumed). */
  function WordAt(s: string, q: nat, ln: nat): (r: Scan)
    requires q < |s| && IsAlpha(s[q])
    ensures q < r.pos <= |s| && r.line == ln && r.outcome.Got? && r.outcome.token.Word?
  {
    var e := RunEnd(s, q, IsAlnum);
    Scan(Got(Lookup(s[q..e])), Step(s, e), ln)
  }

  /** One call of `read`: passes repeat while they skip comments (the source's
      recursive `return self.read()`). The cursor never leaves the input, an end
      marker is only ever returned on the sentinel, and no blank becomes a token. */
  function ScanFrom(s: string, p: nat, ln: nat): (r: Scan)
    requires p <= |s|
    ensures p <= r.pos <= |s| && ln <= r.line
    ensures r.outcome == Got(None) ==> At(s, r.pos) == '\0'
    ensures r.outcome.Got? && r.outcome.token.Op? ==> !IsBlank(r.outcome.token.ch)
    decreases |s| - p
  {
    match ReadPass(s, p, ln)
    case Done(r) => r
    case Restart(p', ln') => ScanFrom(s, p', ln')
  }

  class Lexer {
    var bufIndex: nat
    var line: nat
    const content: string
    const words: map<string, Token>

    ghost predicate Valid()
      reads this
    {
      bufIndex <= |content| && words == Keywords() && IsAscii(content)
    }

    // `Lexer::new`: the keyword table, then the whole input read into `content`.
    constructor (input: string)
      requires IsAscii(input)
      ensures Valid()
      ensures content == input && bufIndex == 0 && line == 0
    {
      bufIndex := 0;
      line := 0;
      content := input;
      words := Keywords();
    }

    // `char_at` tests the cursor, not i, against the length, so callers must
    // keep i in range whenever the cursor is; at the cursor it reads the input
    // or the sentinel.
    function CharAt(i: nat): (c: char)
      reads this
      requires bufIndex < |content| ==> i < |content|
      ensures bufIndex < |content| ==> c == content[i]
      ensures |content| <= bufIndex ==> c == '\0'
      ensures i == bufIndex ==> c == At(content, i)
    {
      if bufIndex < |content| then content[i] else '\0'
    }

    // `see_next`: the character at the cursor, without moving it.
    function SeeNext(): (c: char)
      reads this
      ensures c == At(content, bufIndex)
      ensures c == '\0' <==> bufIndex >= |content| || content[bufIndex] == '\0'
    {
      CharAt(bufIndex)
    }

    // `next`: the character `see_next` shows, and the cursor moves past it
    // unless it is the sentinel.
    method Next() returns (c: char)
      requires Valid()
      modifies this`bufIndex
      ensures Valid()
      ensures c == old(SeeNext())
      ensures bufIndex == if c == '\0' then old(bufIndex) else old(bufIndex) + 1
    {
      c := CharAt(bufIndex);
      if c != '\0' {
        bufIndex := bufIndex + 1;
      }
    }

    // The whitespace loop at the head of `read`: it consumes blanks, counting
    // newlines, and then the first other character, which it returns.
    method SkipBlanks() returns (peek: char)
      requires Valid()
      modifies this`bufIndex, this`line
      ensures Valid()
      ensures var q := SkipBlank(content, old(bufIndex));
        peek == At(content, q) && bufIndex == Step(content, q) &&
        line == old(line) + Newlines(content, old(bufIndex), q)
    {
      ghost var k := bufIndex;
      peek := Next();
      while peek == ' ' || peek == '\t' || peek == '\n'
        invariant Valid()
        invariant old(bufIndex) <= k && SkipBlank(content, k) == SkipBlank(content, old(bufIndex))
        invariant peek == At(content, k) && bufIndex == Step(content, k)
        invariant line == old(line) + Newlines(content, old(bufIndex), k)
        decreases |content| - k
      {
        if peek == '\n' {
          line := line + 1;
        }
        k := bufIndex;
        peek := Next();
      }
    }

    // The line-comment loop of `read`, entered with both slashes consumed
    // (`next` is the second one): it stops in front of the newline, or on the
    // sentinel.
    method SkipLineComment(next: char)
      requires Valid() && next != '\0'
      modifies this`bufIndex
      ensures Valid()
      ensures bufIndex == LineEnd(content, old(bufIndex))
    {
      var next := next;
      while !(SeeNext() == '\n' || next == '\0')
        invariant Valid()
        invariant old(bufIndex) <= bufIndex
        invariant LineEnd(content, bufIndex) == LineEnd(content, old(bufIndex))
        invariant next == '\0' ==> At(content, bufIndex) == '\0'
        decreases |content| - bufIndex, if next == '\0' then 0 else 1
      {
        next := Next();
      }
    }

    // The block-comment loop of `read`, entered with the opening slash and star
    // consumed: it stops just after the first closer, or reports that it would
    // spin on the sentinel forever.
    method SkipBlockComment() returns (closed: bool)
      requires Valid()
      modifies this`bufIndex
      ensures Valid()
      ensures BlockEnd(content, old(bufIndex)) == if closed then Closed(bufIndex) else Open(bufIndex)
    {
      while true
        invariant Valid()
        invariant BlockEnd(content, bufIndex) == BlockEnd(content, old(bufIndex))
        decreases |content| - bufIndex
      {
        var star := Next();
        if star == '\0' {
          return false;
        }
        if star == '*' && SeeNext() == '/' {
          star := Next();
          return true;
        }
      }
    }

    // The digit loop of `read`, entered with the first digit consumed:
    // `val = 10 * val + digit` up to the first non-digit, which it consumes too.
    method ScanNumber(first: char) returns (val: int)
      requires Valid() && 1 <= bufIndex && first == At(content, bufIndex - 1) && IsDigit(first)
      modifies this`bufIndex
      ensures Valid()
      ensures var q := old(bufIndex) - 1; var e := RunEnd(content, q, IsDigit);
        val == Horner(content[q..e]) && bufIndex == Step(content, e)
    {
      ghost var q := bufIndex - 1;
      ghost var e := RunEnd(content, q, IsDigit);
      ghost var k := q;
      var peek := first;
      val := 0;
      while IsDigit(peek)
        invariant Valid()
        invariant q <= k <= e && RunEnd(content, k, IsDigit) == e
        invariant peek == At(content, k) && bufIndex == Step(content, k)
        invariant AllDigits(content[q..k]) && val == Horner(content[q..k])
        decreases e - k
      {
        HornerExtend(content, q, k);
        val := 10 * val + DigitValue(peek);
        k := bufIndex;
        peek := Next();
      }
    }

    // The word loop of `read`, entered with the first letter consumed: it
    // collects letters and digits up to the first other character, which it
    // consumes too.
    method ScanWord(first: char) returns (lexeme: string)
      requires Valid() && 1 <= bufIndex && first == At(content, bufIndex - 1) && IsAlpha(first)
      modifies this`bufIndex
      ensures Valid()
      ensures var q := old(bufIndex) - 1; var e := RunEnd(content, q, IsAlnum);
        lexeme == content[q..e] && bufIndex == Step(content, e)
    {
      ghost var q := bufIndex - 1;
      ghost var e := RunEnd(content, q, IsAlnum);
      ghost var k := q;
      var peek := first;
      lexeme := "";
      while IsAlnum(peek)
        invariant Valid()
        invariant q <= k <= e && RunEnd(content, k, IsAlnum) == e
        invariant peek == At(content, k) && bufIndex == Step(content, k)
        invariant lexeme == content[q..k]
        decreases e - k
      {
        SliceSnoc(content, q, k);
        lexeme := lexeme + [peek];
        k := bufIndex;
        peek := Next();
      }
    }

    // What `read` does with the first character after the blanks, `peek`,
    // read from position q.
    method ScanAt(ghost q: nat, peek: char) returns (r: Pass)
      requires Valid() && q <= |content| && !IsBlank(peek)
      requires peek == At(content, q) && bufIndex == Step(content, q)
      modifies this`bufIndex
      ensures Valid()
      ensures r == PassAt(content, q, line)
      ensures r == if r.Restart? then Restart(bufIndex, line) else Done(Scan(r.result.outcome, bufIndex, line))
    {
      if peek == '\0' {
        return Done(Scan(Got(None), bufIndex, line));
      }

      if peek == '/' {
        var next := Next();
        if next == '/' {
          SkipLineComment(next);
          return Restart(bufIndex, line);
        } else if next == '*' {
          var closed := SkipBlockComment();
          return if closed then Restart(bufIndex, line) else Done(Scan(Hangs, bufIndex, line));
        }
        // a lone slash is neither a digit nor a letter: an operator
      } else if IsDigit(peek) {
        var val := ScanNumber(peek);
        return Done(Scan(Got(NumToken(val)), bufIndex, line));
      } else if IsAlpha(peek) {
        var lexeme := ScanWord(peek);
        return Done(Scan(Got(Resolve(words, lexeme)), bufIndex, line));
      }
      return Done(Scan(Got(OpToken(peek)), bufIndex, line));
    }

    // One pass of `read`: skip blanks, then scan a token, or skip a comment
    // and report (`Restart`) that `read` calls itself once more.
    method ReadOnce() returns (r: Pass)
      requires Valid()
      modifies this`bufIndex, this`line
      ensures Valid()
      ensures r == ReadPass(content, old(bufIndex), old(line))
      ensures r == if r.Restart? then Restart(bufIndex, line) else Done(Scan(r.result.outcome, bufIndex, line))
    {
      ghost var q := SkipBlank(content, bufIndex);
      var peek := SkipBlanks();
      r := ScanAt(q, peek);
    }

    // `read`: passes repeat while they skip comments, which is the source's
    // recursive `return self.read()`.
    method Read() returns (r: Outcome)
      requires Valid()
      modifies this`bufIndex, this`line
      ensures Valid()
      ensures Scan(r, bufIndex, line) == ScanFrom(content, old(bufIndex), old(line))
    {
      ghost var goal := ScanFrom(content, bufIndex, line);
      var pass := ReadOnce();
      while pass.Restart?
        invariant Valid()
        invariant pass.Restart? ==> ScanFrom(content, bufIndex, line) == goal
        invariant pass.Done? ==> Scan(pass.result.outcome, bufIndex, line) == goal
        decreases |content| - bufIndex, pass.Restart?
      {
        pass := ReadOnce();
      }
      r := pass.result.outcome;
    }
  }
}
