// The unit tests of the backup draft (2.6/src/lexer_BACKUP_25031.rs, module
// `tests`), each as a method that builds a lexer on the test's input, calls it
// as the test does, and promises the result the test asserts; `TestEnd` is an
// added example of the end of input, which no test of the draft covers.
module BackupTests {
  import opened Text
  import opened Tokens
  import opened BackupLexer
  import opened BackupProperties

  /** The first `read` of a lexer on the decimal rendering of n. */
  method ReadNumber(n: nat) returns (r: Outcome)
    ensures r == Got(NumToken(n))
  {
    DecimalIsAscii(n);
    var l := new Lexer(Decimal(n));
    r := l.Read();
    NumberRoundTrip(n, 0);
  }

  /** `test_num`: each literal reads back as its value. */
  method TestNum() returns (a: Outcome, b: Outcome, c: Outcome, d: Outcome, e: Outcome, f: Outcome)
    ensures a == Got(Num(NUM, 123)) && b == Got(Num(NUM, 1234)) && c == Got(Num(NUM, 12345))
    ensures d == Got(Num(NUM, 123456)) && e == Got(Num(NUM, 12345678912))
    ensures f == Got(Num(NUM, 56789032312))
  {
    a := ReadNumber(123);
    b := ReadNumber(1234);
    c := ReadNumber(12345);
    d := ReadNumber(123456);
    e := ReadNumber(12345678912);
    f := ReadNumber(56789032312);
  }

  /** The first `read` of a lexer on a word alone. */
  method ReadWord(w: string) returns (r: Outcome)
    requires IsAscii(w) && IsWord(w)
    ensures r == Got(Lookup(w))
  {
    var l := new Lexer(w);
    r := l.Read();
    WordScan(w, 0, |w|, 0);
    assert w[0..|w|] == w;
  }

  /** `test_true`, `test_false`, `test_word`. */
  method TestWords() returns (a: Outcome, b: Outcome, c: Outcome)
    ensures a == Got(Word(TRUE, "true")) && b == Got(Word(FALSE, "false"))
    ensures c == Got(Word(ID, "example"))
  {
    a := ReadWord("true");
    b := ReadWord("false");
    c := ReadWord("example");
  }

  /** Blanks from c to b and a word from b to the end: that word is the first
      token, and the line counter has risen by the newlines among the blanks. */
  lemma BlanksThenWord(s: string, c: nat, b: nat, ln: nat)
    requires c <= b < |s| && forall k :: c <= k < b ==> IsBlank(s[k])
    requires IsAlpha(s[b]) && forall k :: b <= k < |s| ==> IsAlnum(s[k])
    ensures ScanFrom(s, c, ln) == Scan(Got(Lookup(s[b..])), |s|, ln + Newlines(s, c, b))
  {
    BlanksSkipped(s, c, b, ln);
    WordScan(s, b, |s|, ln + Newlines(s, c, b));
    assert s[b..|s|] == s[b..];
  }

  /** A line comment from 0 to c, then blanks and a word up to the end: that
      word is the first token. */
  lemma LineCommentThenWord(s: string, c: nat, b: nat)
    requires 2 <= c < b < |s| && s[0] == '/' && s[1] == '/'
    requires forall k :: 2 <= k < c ==> InLine(s[k])
    requires s[c] == '\n' && forall k :: c <= k < b ==> IsBlank(s[k])
    requires IsAlpha(s[b]) && forall k :: b <= k < |s| ==> IsAlnum(s[k])
    ensures ScanFrom(s, 0, 0) == Scan(Got(Lookup(s[b..])), |s|, Newlines(s, c, b))
  {
    BlanksThenWord(s, c, b, 0);
    LineCommentScan(s, 0, c, 0);
  }

  /** A block comment from 0 to c, then blanks and a word up to the end: that
      word is the first token. */
  lemma BlockCommentThenWord(s: string, c: nat, b: nat)
    requires 4 <= c <= b < |s| && s[0] == '/' && s[1] == '*'
    requires s[c - 2] == '*' && s[c - 1] == '/'
    requires forall k :: 2 <= k < c - 2 ==> s[k] != '\0' && !ClosesAt(s, k)
    requires forall k :: c <= k < b ==> IsBlank(s[k])
    requires IsAlpha(s[b]) && forall k :: b <= k < |s| ==> IsAlnum(s[k])
    ensures ScanFrom(s, 0, 0) == Scan(Got(Lookup(s[b..])), |s|, Newlines(s, c, b))
  {
    BlanksThenWord(s, c, b, 0);
    BlockCommentScan(s, 0, c, 0);
  }

  /** A newline followed by spaces holds one newline. */
  lemma OneNewline(s: string, c: nat, b: nat)
    requires c < b <= |s| && s[c] == '\n' && forall k :: c < k < b ==> s[k] == ' '
    ensures forall k :: c <= k < b ==> IsBlank(s[k])
    ensures Newlines(s, c, b) == 1
  {
    NewlinesFromNext(s, c, b);
    NoNewlines(s, c + 1, b);
  }

  /** n spaces: the indentation inside the tests' multi-line raw strings. */
  function Indent(n: nat): (s: string)
    ensures |s| == n && forall i :: 0 <= i < n ==> s[i] == ' '
  {
    seq(n, _ => ' ')
  }

  /** The input of `test_singleline_comment` and `test_char_at`. */
  function Singleline(): string
  {
    "//" + " comment" + "\n" + Indent(12) + "token"
  }

  lemma SinglelineAscii()
    ensures IsAscii(Singleline())
  {
  }

  lemma SinglelineComment()
    ensures var s := Singleline();
      |s| == 28 && s[0] == '/' && s[1] == '/' && forall k :: 2 <= k < 10 ==> InLine(s[k])
  {
  }

  lemma SinglelineBlanks()
    ensures var s := Singleline();
      |s| == 28 && s[10] == '\n' && (forall k :: 10 <= k < 23 ==> IsBlank(s[k])) &&
      Newlines(s, 10, 23) == 1
  {
    var s := Singleline();
    assert forall k :: 11 <= k < 23 ==> s[k] == ' ';
    NewlinesFromNext(s, 10, 23);
    NoNewlines(s, 11, 23);
  }

  lemma SinglelineWord()
    ensures var s := Singleline();
      |s| == 28 && IsAlpha(s[23]) && (forall k :: 23 <= k < 28 ==> IsAlnum(s[k])) && s[23..] == "token"
  {
  }

  /** The first `read` on the comment test's input returns the word after the
      comment, on the second line. */
  lemma SinglelineScan()
    ensures ScanFrom(Singleline(), 0, 0) == Scan(Got(Word(ID, "token")), 28, 1)
  {
    SinglelineComment();
    SinglelineBlanks();
    SinglelineWord();
    OneNewline(Singleline(), 10, 23);
    LineCommentThenWord(Singleline(), 10, 23);
  }

  /** `test_singleline_comment`: the comment is skipped, then the newline and
      the indentation, and the word after them is the first token. */
  method TestSinglelineComment() returns (r: Outcome)
    ensures r == Got(Word(ID, "token"))
  {
    SinglelineAscii();
    var l := new Lexer(Singleline());
    r := l.Read();
    SinglelineScan();
  }

  /** Text with no NUL, no slash and only ASCII characters, so it can neither
      end a block comment early nor complete a closer. */
  predicate Plain(t: string)
  {
    forall i :: 0 <= i < |t| ==> t[i] != '\0' && t[i] != '/' && (t[i] as int) < 0x80
  }

  lemma PlainConcat(a: string, b: string)
    requires Plain(a) && Plain(b)
    ensures Plain(a + b)
  {
  }

  /** The body of the comment in `test_multilined_comment`. */
  function CommentText(): string
  {
    " comment" + "\n" + Indent(20) + "* here" + "\n" + Indent(20) + "* and here" + "\n" + Indent(20)
  }

  lemma CommentTextPlain()
    ensures |CommentText()| == 87 && Plain(CommentText())
  {
    var nl := "\n";
    assert Plain(" comment") && Plain(nl) && Plain(Indent(20));
    assert Plain("* here") && Plain("* and here");
    PlainConcat(" comment", nl);
    PlainConcat(" comment" + nl, Indent(20));
    PlainConcat(" comment" + nl + Indent(20), "* here");
    PlainConcat(" comment" + nl + Indent(20) + "* here", nl);
    PlainConcat(" comment" + nl + Indent(20) + "* here" + nl, Indent(20));
    PlainConcat(" comment" + nl + Indent(20) + "* here" + nl + Indent(20), "* and here");
    PlainConcat(" comment" + nl + Indent(20) + "* here" + nl + Indent(20) + "* and here", nl);
    PlainConcat(" comment" + nl + Indent(20) + "* here" + nl + Indent(20) + "* and here" + nl, Indent(20));
  }

  /** The input of `test_multilined_comment`. */
  function Multilined(): string
  {
    "/*" + CommentText() + "*/" + "\n" + Indent(20) + "token"
  }

  lemma MultilinedComment()
    ensures var s := Multilined();
      |s| == 117 && s[0] == '/' && s[1] == '*' && s[89] == '*' && s[90] == '/' &&
      forall k :: 2 <= k < 89 ==> s[k] != '\0' && !ClosesAt(s, k)
  {
    var s := Multilined();
    CommentTextPlain();
    assert forall k :: 2 <= k < 89 ==> s[k] == CommentText()[k - 2];
  }

  lemma MultilinedTail()
    ensures var s := Multilined();
      |s| == 117 && s[91] == '\n' && (forall k :: 91 < k < 112 ==> s[k] == ' ') &&
      IsAlpha(s[112]) && (forall k :: 112 <= k < 117 ==> IsAlnum(s[k])) && s[112..] == "token"
  {
    CommentTextPlain();
  }

  lemma MultilinedAscii()
    ensures IsAscii(Multilined())
  {
    var s := Multilined();
    CommentTextPlain();
    assert forall k :: 2 <= k < 89 ==> s[k] == CommentText()[k - 2];
  }

  /** The first `read` on the multi-line comment test's input returns the word
      after the comment. */
  lemma MultilinedScan()
    ensures ScanFrom(Multilined(), 0, 0) == Scan(Got(Word(ID, "token")), 117, 1)
  {
    MultilinedComment();
    MultilinedTail();
    OneNewline(Multilined(), 91, 112);
    BlockCommentThenWord(Multilined(), 91, 112);
  }

  /** `test_multilined_comment`: a comment over four lines is skipped, then the
      blanks after it, and the word after them is the first token. */
  method TestMultilinedComment() returns (r: Outcome)
    ensures r == Got(Word(ID, "token"))
  {
    MultilinedAscii();
    var l := new Lexer(Multilined());
    r := l.Read();
    MultilinedScan();
  }

  /** The first `read` of a lexer on an input that starts with an operator. */
  method ReadOp(s: string) returns (r: Outcome)
    requires IsAscii(s) && |s| > 0 && s[0] != '\0' && !IsBlank(s[0]) && !IsAlnum(s[0])
    requires s[0] == '/' ==> At(s, 1) != '/' && At(s, 1) != '*'
    ensures r == Got(OpToken(s[0]))
  {
    var l := new Lexer(s);
    r := l.Read();
    if s[0] == '/' {
      SlashScan(s, 0, 0);
    } else {
      OpScan(s, 0, 0);
    }
  }

  /** `test_operator` and `test_op`: a lone operator character, and a slash
      that opens no comment. */
  method TestOp() returns (a: Outcome, b: Outcome, c: Outcome, d: Outcome)
    ensures a == Got(Op('+' as int, '+')) && b == Got(Op('-' as int, '-'))
    ensures c == Got(Op('/' as int, '/')) && d == Got(Op('/' as int, '/'))
  {
    a := ReadOp("+");
    b := ReadOp("-");
    c := ReadOp("/");
    d := ReadOp("/ some other stuff");
  }

  /** `test_char_at`: position 10 of the comment test's input is its newline. */
  method TestCharAt() returns (c: char)
    ensures c == '\n'
  {
    SinglelineAscii();
    SinglelineBlanks();
    var l := new Lexer(Singleline());
    c := l.CharAt(10);
  }

  /** Added example, not one of the draft's tests: after the last token every
      `read` returns None and the cursor stays put. */
  method TestEnd() returns (a: Outcome, b: Outcome, c: Outcome, stay: bool)
    ensures a == Got(Word(ID, "x")) && b == Got(None) && c == Got(None) && stay
  {
    var l := new Lexer("x");
    a := l.Read();
    WordScan("x", 0, 1, 0);
    var at := l.bufIndex;
    b := l.Read();
    Exhausted("x", l.line);
    c := l.Read();
    Exhausted("x", l.line);
    stay := l.bufIndex == at;
  }
}
