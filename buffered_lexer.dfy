// The current draft of the scanner (src/lexer.rs): bytes come from a reader
// into a ten-byte buffer, `next_char` hands them out one at a time, zeroing
// each slot it reads and refilling the buffer when all ten are used, and `read`
// skips blanks and scans a number, a word or a one-character operator. There
// are no comments and no end marker: past the input the buffer holds only zero
// bytes, so the scanner goes on returning the NUL operator.
module BufferedLexer {
  import opened Text
  import opened Tokens

  /** A `u8`. */
  newtype byte = b: int | 0 <= b < 0x100

  /** The length of the `[u8; 10]` buffer. */
  const BUF_LEN: nat := 10

  function Min(a: nat, b: nat): nat
  {
    if a <= b then a else b
  }

  /** The characters the bytes cast to (`as char`), one for one. */
  function Chars(bs: seq<byte>): (s: string)
    ensures |s| == |bs| && forall i :: 0 <= i < |bs| ==> s[i] == bs[i] as char
  {
    seq(|bs|, i requires 0 <= i < |bs| => bs[i] as char)
  }

  /** The byte at position p of the input, or zero at and past its end. */
  function ByteAt(bs: seq<byte>, p: nat): byte
  {
    if p < |bs| then bs[p] else 0
  }

  /** The buffer a lexer holds when slot 0 stands for input position base and
      the first i slots are spent: zeros, then the input's next bytes (zeros
      past its end). */
  function Window(bs: seq<byte>, base: nat, i: nat): (w: seq<byte>)
    ensures |w| == BUF_LEN
    ensures forall k :: 0 <= k < BUF_LEN ==> w[k] == if k < i then 0 else ByteAt(bs, base + k)
  {
    seq(BUF_LEN, k => if k < i then 0 else ByteAt(bs, base + k))
  }

  /** The characters are the bytes cast one for one, and all are ASCII. */
  ghost predicate Decodes(bs: seq<byte>, s: string)
  {
    |s| == |bs| && forall i {:trigger bs[i]} :: 0 <= i < |bs| ==> bs[i] < 0x80 && s[i] == bs[i] as char
  }

  /** One call of `read`: the token, how many characters `next_char` has handed
      out by its end, and the line counter. */
  datatype Scan = Scan(token: Token, pos: nat, line: nat)

  /** What `read` returns when the first p characters of the stream s are spent
      and the line counter is ln. `next_char` never runs dry (past the input it
      yields NUL), so every run ends, and the character that ends a number or a
      word is spent too. */
  function ScanFrom(s: string, p: nat, ln: nat): (r: Scan)
    ensures p < r.pos && ln <= r.line && !r.token.None?
    ensures r.token.Word? ==> r.token == Lookup(r.token.lexeme)
    ensures r.token.Op? ==> r.token == OpToken(r.token.ch) && !IsBlank(r.token.ch)
  {
    var q := SkipBlank(s, p);
    var l := ln + Newlines(s, p, q);
    var c := At(s, q);
    if IsDigit(c) then
      var e := RunEnd(s, q, IsDigit);
      Scan(NumToken(Horner(s[q..e])), e + 1, l)
    else if IsAlpha(c) then
      var e := RunEnd(s, q, IsAlnum);
      Scan(Lookup(s[q..e]), e + 1, l)
    else
      Scan(OpToken(c), q + 1, l)
  }

  class Lexer {
    var peek: char
    const buf: array<byte>
    var bufIndex: nat
    /** The bytes the reader has not delivered yet. */
    var reader: seq<byte>
    const words: map<string, Token>
    var line: nat
    /** Everything the reader delivers, as characters. */
    ghost const stream: string
    /** How many characters `next_char` has handed out. */
    ghost var pos: nat
    /** Everything the reader delivers. */
    ghost const input: seq<byte>

    /** Slot k of the buffer stands for input position pos - bufIndex + k: the
        slots already handed out are zero, the others hold their byte (zero
        past the input), and the reader holds what follows the buffer. */
    ghost predicate Valid()
      reads this`bufIndex, this`pos, this`reader, buf
    {
      buf.Length == BUF_LEN && bufIndex <= BUF_LEN && bufIndex <= pos &&
      words == Keywords() && Decodes(input, stream) &&
      buf[..] == Window(input, pos - bufIndex, bufIndex) &&
      reader == input[Min(pos - bufIndex + BUF_LEN, |input|)..]
    }

    /** `Lexer::new`: the keyword table, a zeroed buffer, then a first refill. */
    constructor (input: seq<byte>)
      requires forall i :: 0 <= i < |input| ==> input[i] < 0x80
      ensures Valid() && fresh(buf)
      ensures this.input == input && stream == Chars(input) && IsAscii(stream) && pos == 0 && bufIndex == 0 && line == 0 && peek == ' '
      ensures forall k :: 0 <= k < BUF_LEN ==> buf[k] == if k < |input| then input[k] else 0
    {
      peek := ' ';
      buf := new byte[BUF_LEN](_ => 0);
      bufIndex := 0;
      reader := input;
      words := Keywords();
      line := 0;
      stream := Chars(input);
      pos := 0;
      this.input := input;
      new;
      ReadToBuf();
    }

    /** `read_to_buf`: the reader copies as many bytes as it has, at most ten,
        to the front of the buffer; the slots behind them keep their bytes. */
    method ReadToBuf()
      requires buf.Length == BUF_LEN
      modifies this`reader, buf
      ensures var n := Min(BUF_LEN, |old(reader)|);
        reader == old(reader)[n..] &&
        (forall k :: 0 <= k < n ==> buf[k] == old(reader)[k]) &&
        (forall k :: n <= k < BUF_LEN ==> buf[k] == old(buf[k]))
    {
      var n := Min(BUF_LEN, |reader|);
      for i := 0 to n
        invariant reader == old(reader)
        invariant forall k :: 0 <= k < i ==> buf[k] == reader[k]
        invariant forall k :: i <= k < BUF_LEN ==> buf[k] == old(buf[k])
      {
        buf[i] := reader[i];
      }
      reader := reader[n..];
    }

    /** `next_char`: the next character of the stream. A slot still in the
        buffer is handed out and zeroed, and no other slot changes; when all ten
        are spent the index goes back to zero, the buffer is refilled, and the
        first refilled slot is handed out. */
    method NextChar() returns (c: char)
      requires Valid()
      modifies this`peek, this`bufIndex, this`reader, this`pos, buf
      ensures Valid()
      ensures c == At(stream, old(pos)) && peek == c && pos == old(pos) + 1
      ensures |stream| <= old(pos) ==> c == '\0'
      ensures old(bufIndex) < BUF_LEN ==>
        c == old(buf[bufIndex]) as char && bufIndex == old(bufIndex) + 1 &&
        reader == old(reader) && buf[old(bufIndex)] == 0 &&
        forall k :: 0 <= k < BUF_LEN && k != old(bufIndex) ==> buf[k] == old(buf[k])
      ensures old(bufIndex) == BUF_LEN ==>
        var n := Min(BUF_LEN, |old(reader)|);
        c == ByteAt(old(reader), 0) as char && bufIndex == 1 &&
        reader == old(reader)[n..] && buf[0] == 0 &&
        forall k :: 1 <= k < BUF_LEN ==> buf[k] == ByteAt(old(reader), k)
      decreases if bufIndex < BUF_LEN then 0 else 1
    {
      if bufIndex < BUF_LEN {
        peek := buf[bufIndex] as char;
        buf[bufIndex] := 0;
        bufIndex := bufIndex + 1;
        pos := pos + 1;
        return peek;
      } else {
        bufIndex := 0;
        ReadToBuf();
        c := NextChar();
      }
    }

    /** The whitespace loop at the head of `read`: it spends blanks, counting
        newlines, and then the first other character, which it returns. */
    method SkipBlanks() returns (ch: char)
      requires Valid()
      modifies this`peek, this`bufIndex, this`reader, this`pos, this`line, buf
      ensures Valid()
      ensures var q := SkipBlank(stream, old(pos));
        ch == At(stream, q) && pos == q + 1 && line == old(line) + Newlines(stream, old(pos), q)
      ensures peek == ch
    {
      ghost var q := SkipBlank(stream, pos);
      while true
        invariant Valid()
        invariant old(pos) <= pos <= q && SkipBlank(stream, pos) == q
        invariant line == old(line) + Newlines(stream, old(pos), pos)
        decreases q - pos
      {
        ghost var k := pos;
        ch := NextChar();
        if IsBlank(ch) {
          BlankStep(stream, old(pos), k);
        } else {
          NoBlankStep(stream, k);
        }
        if ch == ' ' || ch == '\t' {
          continue;
        } else if ch == '\n' {
          line := line + 1;
        } else {
          break;
        }
      }
    }

    /** The digit loop of `read`, entered with the first digit spent:
        `val = 10 * val + digit` up to the first non-digit, which is spent too. */
    method ScanNumber(first: char) returns (val: int)
      requires Valid() && 1 <= pos && first == At(stream, pos - 1) && IsDigit(first)
      requires peek == first
      modifies this`peek, this`bufIndex, this`reader, this`pos, buf
      ensures Valid()
      ensures var q := old(pos) - 1; var e := RunEnd(stream, q, IsDigit);
        val == Horner(stream[q..e]) && pos == e + 1
      ensures peek == At(stream, pos - 1)
    {
      ghost var q := pos - 1;
      ghost var e := RunEnd(stream, q, IsDigit);
      ghost var k := q;
      ghost var digits := "";
      var ch := first;
      val := 0;
      while IsDigit(ch)
        invariant Valid()
        invariant q <= k <= e && RunEnd(stream, k, IsDigit) == e
        invariant ch == At(stream, k) && pos == k + 1
        invariant digits == stream[q..k] && AllDigits(digits) && val == Horner(digits)
        invariant peek == ch
        decreases e - k
      {
        SliceSnoc(stream, q, k);
        HornerSnoc(digits, ch);
        val := 10 * val + DigitValue(ch);
        digits := digits + [ch];
        k := pos;
        ch := NextChar();
      }
    }

    /** The word loop of `read`, entered with the first letter spent: it
        collects letters and digits up to the first other character, which is
        spent too. */
    method ScanWord(first: char) returns (lexeme: string)
      requires Valid() && 1 <= pos && first == At(stream, pos - 1) && IsAlpha(first)
      requires peek == first
      modifies this`peek, this`bufIndex, this`reader, this`pos, buf
      ensures Valid()
      ensures var q := old(pos) - 1; var e := RunEnd(stream, q, IsAlnum);
        lexeme == stream[q..e] && pos == e + 1
      ensures peek == At(stream, pos - 1)
    {
      ghost var q := pos - 1;
      ghost var e := RunEnd(stream, q, IsAlnum);
      ghost var k := q;
      var ch := first;
      lexeme := "";
      while IsAlnum(ch)
        invariant Valid()
        invariant q <= k <= e && RunEnd(stream, k, IsAlnum) == e
        invariant ch == At(stream, k) && pos == k + 1
        invariant lexeme == stream[q..k]
        invariant peek == ch
        decreases e - k
      {
        SliceSnoc(stream, q, k);
        lexeme := lexeme + [ch];
        k := pos;
        ch := NextChar();
      }
    }

    /** `read`: blanks, then a number, a word, or a one-character operator;
        it always returns a token, the NUL operator once the input is spent. */
    method Read() returns (t: Token)
      requires Valid()
      modifies this`peek, this`bufIndex, this`reader, this`pos, this`line, buf
      ensures Valid()
      ensures Scan(t, pos, line) == ScanFrom(stream, old(pos), old(line))
      ensures peek == At(stream, pos - 1)
    {
      var ch := SkipBlanks();
      if IsDigit(ch) {
        var val := ScanNumber(ch);
        return NumToken(val);
      }
      if IsAlpha(ch) {
        var s := ScanWord(ch);
        t := Resolve(words, s);
        return;
      }
      t := OpToken(ch);
    }
  }
}
