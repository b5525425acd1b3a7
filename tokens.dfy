/** The tokens both lexer drafts produce, their tag constants, and the
    reserved-word table `Lexer::new` builds.

    The source wraps the tag in a one-field `TokenDesc`; here the tag is a field
    of each token variant. `None` is the end-of-input marker of the backup draft;
    the current draft's `Token` has no such variant, and its scanner never
    produces it. */
module Tokens {

  const NUM: int := 256
  const TRUE: int := 257
  const FALSE: int := 258
  const ID: int := 259

  datatype Token =
    | Num(tag: int, value: int)
    | Word(tag: int, lexeme: string)
    | Op(tag: int, ch: char)
    | None

  /** `Token::num`. */
  function NumToken(val: int): (t: Token)
    ensures t.Num? && t.tag == NUM && t.value == val
  {
    Num(NUM, val)
  }

  /** `Token::word`. */
  function WordToken(tag: int, lexeme: string): (t: Token)
    ensures t.Word? && t.tag == tag && t.lexeme == lexeme
  {
    Word(tag, lexeme)
  }

  /** `Token::id`. */
  function IdToken(lexeme: string): (t: Token)
    ensures t.Word? && t.tag == ID && t.lexeme == lexeme
  {
    Word(ID, lexeme)
  }

  /** `Token::op`: the tag of a one-character operator is its character code. */
  function OpToken(c: char): (t: Token)
    ensures t.Op? && t.ch == c && t.tag == c as int
    ensures (c as int) < 0x80 ==> t.tag < NUM
  {
    Op(c as int, c)
  }

  /** The table `Lexer::new` fills with `reserve_word!`. */
  function Keywords(): (words: map<string, Token>)
    ensures words.Keys == {"true", "false"}
    ensures forall w <- words :: words[w].Word? && words[w].lexeme == w && words[w].tag != ID
    ensures words["true"].tag == TRUE && words["false"].tag == FALSE
  {
    map["true" := WordToken(TRUE, "true"), "false" := WordToken(FALSE, "false")]
  }

  /** What `read` does with a scanned word and the lexer's table: the table's
      token when the lexeme is in it, otherwise an identifier carrying the lexeme. */
  function Resolve(words: map<string, Token>, lexeme: string): Token
  {
    if lexeme in words then words[lexeme] else IdToken(lexeme)
  }

  /** The token a word becomes with the table `Lexer::new` builds: the reserved
      token for `true` and `false`, an ID for every other lexeme, each carrying
      the exact text. */
  function Lookup(lexeme: string): (t: Token)
    ensures t.Word? && t.lexeme == lexeme
    ensures t.tag == (if lexeme == "true" then TRUE else if lexeme == "false" then FALSE else ID)
    ensures lexeme != "true" && lexeme != "false" ==> t == IdToken(lexeme)
  {
    Resolve(Keywords(), lexeme)
  }

  /** The tokens the constructors above can build from input characters. */
  ghost predicate Constructed(t: Token)
  {
    match t
    case Num(tag, _) => tag == NUM
    case Word(tag, w) => t == Lookup(w)
    case Op(tag, c) => t == OpToken(c) && (c as int) < 0x80
    case None => true
  }

  /** The tag alone tells which kind of token the scanner built: operators on
      ASCII characters sit below NUM, and the two reserved words and ID above it. */
  lemma TagDeterminesKind(t: Token, u: Token)
    requires Constructed(t) && Constructed(u) && !t.None? && !u.None?
    requires t.tag == u.tag
    ensures t.Num? == u.Num? && t.Word? == u.Word? && t.Op? == u.Op?
    ensures t.Op? ==> t == u
    ensures t.Word? && t.tag != ID ==> t == u
  {
  }
}
