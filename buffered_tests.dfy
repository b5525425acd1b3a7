// The unit tests of the current draft (src/lexer.rs, module `tests`), each as
// a method that builds a lexer on the test's bytes, calls `read` as the test
// does, and promises the token the test asserts; `TestEnd` is an added example
// of the end of input, which no test of the draft covers.
module BufferedTests {
  import opened Text
  import opened Tokens
  import opened BufferedLexer
  import opened BufferedProperties

  /** The bytes of an ASCII string (`as_bytes`). */
  function Encode(s: string): (bs: seq<byte>)
    requires IsAscii(s)
    ensures |bs| == |s|
    ensures forall i :: 0 <= i < |s| ==> bs[i] < 0x80 && bs[i] as char == s[i]
  {
    seq(|s|, i requires 0 <= i < |s| && (s[i] as int) < 0x80 => s[i] as int as byte)
  }

  /** A lexer on the encoded string sees that string. */
  lemma EncodeDecodes(s: string)
    requires IsAscii(s)
    ensures Chars(Encode(s)) == s
  {
  }

  /** The first `read` of a lexer on the decimal rendering of n. Renderings
      longer than the buffer are read across a refill. */
  method ReadNumber(n: nat) returns (t: Token)
    ensures t == NumToken(n)
  {
    DecimalIsAscii(n);
    EncodeDecodes(Decimal(n));
    var l := new Lexer(Encode(Decimal(n)));
    t := l.Read();
    NumberRoundTrip(n, 0);
  }

  /** `test_num`: each literal reads back as its value; the last one has eleven
      digits, one more than the buffer holds. */
  method TestNum() returns (a: Token, b: Token, c: Token, d: Token, e: Token)
    ensures a == Num(NUM, 123) && b == Num(NUM, 1234) && c == Num(NUM, 12345)
    ensures d == Num(NUM, 123456) && e == Num(NUM, 12345678912)
  {
    a := ReadNumber(123);
    b := ReadNumber(1234);
    c := ReadNumber(12345);
    d := ReadNumber(123456);
    e := ReadNumber(12345678912);
  }

  /** The first `read` of a lexer on a word alone. */
  method ReadWord(w: string) returns (t: Token)
    requires IsAscii(w) && |w| > 0 && IsAlpha(w[0])
    requires forall i :: 0 <= i < |w| ==> IsAlnum(w[i])
    ensures t == Lookup(w)
  {
    EncodeDecodes(w);
    var l := new Lexer(Encode(w));
    t := l.Read();
    WordScan(w, 0, |w|, 0);
    assert w[0..|w|] == w;
  }

  /** `test_true`, `test_false`, `test_word`. */
  method TestWords() returns (a: Token, b: Token, c: Token)
    ensures a == Word(TRUE, "true") && b == Word(FALSE, "false")
    ensures c == Word(ID, "example")
  {
    a := ReadWord("true");
    b := ReadWord("false");
    c := ReadWord("example");
  }

  /** Added example, not one of the draft's tests: on an empty reader every
      `read` returns the NUL operator. */
  method TestEnd() returns (a: Token, b: Token)
    ensures a == Op(0, '\0') && b == Op(0, '\0')
  {
    var l := new Lexer([]);
    a := l.Read();
    Exhausted(l.stream, 0, 0);
    b := l.Read();
    Exhausted(l.stream, 1, 0);
  }
}
