# Lexer model

A Dafny model of the hand-written scanner in this repository. The scanner follows the lexer of section 2.6 of Aho et al., *Compilers*, and the repository holds two drafts of it.

Both drafts do the same basic job:
- skip spaces, tabs and newlines, counting the newlines in `line`;
- fold a digit run into a number with `val = 10 * val + digit`;
- read a letter followed by letters and digits, and look the word up in a two-entry table: `true` gives 257, `false` gives 258, anything else gives `ID` = 259;
- turn any other character into a one-character operator tagged with its character code.

**The backup draft** (`2.6/src/lexer_BACKUP_25031.rs`) reads the whole input into `content` and walks it with a cursor `buf_index` (`next`, `see_next`, `char_at`).
- NUL stands for the end of input. At the end, `read` returns `Token::None`.
- It skips `//` and `/* */` comments by calling itself again.

**The current draft** (`src/lexer.rs`) keeps a ten-byte buffer.
- `next_char` hands out a slot, zeroes it and advances the index.
- When all ten slots are spent, it refills the buffer from the reader.
- It has no comments and no end token. Past the input the buffer holds only zeros, so `read` goes on returning the NUL operator.

Layout:
- `text.dfy` (module `Text`): character classes, and `At`, the input with a NUL sentinel past its end. Also the run and blank scanning primitives, and the digit fold `Horner` with its place-value meaning `Positional`.
- `tokens.dfy` (module `Tokens`): the token type, its tags and constructors, and the keyword table.
- `backup_lexer.dfy` (module `BackupLexer`): the backup draft. `ScanFrom` is the specification function, and the `Lexer` class is proved against it.
- `backup_properties.dfy`, `backup_tests.dfy`: what `read` returns on inputs of each shape, and the draft's unit tests.
- `buffered_lexer.dfy` (module `BufferedLexer`): the current draft. The `Lexer` class keeps the buffer as an `array<byte>`, and `ScanFrom` is the specification function.
- `buffered_properties.dfy`, `buffered_tests.dfy`: the same for the current draft.

Behaviours of the source that the model keeps as written:
- Newlines inside a block comment do not count towards `line`.
- In the backup draft, a NUL byte inside the input stops `next`, because it tests the character and not the length, exactly as it does at the end.
- A slash that opens no comment is an operator, and the character after it is consumed.
- In the current draft, the character that ends a number or a word is always consumed, even the NUL after the input.

## Model

| member | source | states |
|---|---|---|
| Tokens.NumToken | 2.6/src/lexer_BACKUP_25031.rs:28-30 | a number token carries the tag NUM (256) and exactly the given value |
| Tokens.WordToken | 2.6/src/lexer_BACKUP_25031.rs:32-34 | a word token carries exactly the given tag and text |
| Tokens.IdToken | 2.6/src/lexer_BACKUP_25031.rs:36-38 | an identifier is a word token with the tag ID (259) and exactly the given text |
| Tokens.OpToken | 2.6/src/lexer_BACKUP_25031.rs:40-42 | an operator token carries its character and that character's code as its tag, which for ASCII lies below NUM |
| Tokens.Keywords | 2.6/src/lexer_BACKUP_25031.rs:56-67 | the table maps exactly `true` to a word tagged TRUE (257) and `false` to a word tagged FALSE (258), each with its own text |
| Tokens.Lookup | 2.6/src/lexer_BACKUP_25031.rs:134-137 | a scanned word becomes a Word token with exactly its text, tagged TRUE for `true`, FALSE for `false` and ID for everything else, and for everything else it is the `Token::id` fallback |
| Tokens.TagDeterminesKind | 2.6/src/lexer_BACKUP_25031.rs:171-181 | the tag alone tells the token kind apart: ASCII operators lie below NUM and the reserved words above it, so equal tags mean the same operator or the same reserved word |
| Text.RunEnd | 2.6/src/lexer_BACKUP_25031.rs:120-133 | a scanning loop stops at the first position outside the run; every position before it is inside the run and within the input, and the end sentinel stops every run |
| Text.BlankRunFrom | 2.6/src/lexer_BACKUP_25031.rs:82-91 | skipping blanks from any point inside a blank run stops at the same place, and the newline count splits at that point |
| Text.BlankStep | src/lexer.rs:83-92 | one blank is skipped; the count of newlines grows by one exactly when that blank is a newline |
| Text.HornerIsPositional | 2.6/src/lexer_BACKUP_25031.rs:119-124 | the fold `val = 10 * val + digit` over a digit run equals the place-value decimal meaning of the digits |
| Text.HornerDecimal | 2.6/src/lexer_BACKUP_25031.rs:119-124 | folding the decimal digits of n gives back n |
| Text.Horner | 2.6/src/lexer_BACKUP_25031.rs:119-124 | the fold `val = 10 * val + digit` over a run of k digits is never negative and stays below 10^k |
| Text.FitsInI64 | 2.6/src/lexer_BACKUP_25031.rs:119-122 | a literal of at most 18 digits folds to a value within the `i64` range, so the source's unchecked fold is exact there |
| BackupLexer.Step | 2.6/src/lexer_BACKUP_25031.rs:145-151 | the cursor move of `next`: it stays put exactly on the sentinel, otherwise it moves by one, and it never leaves the input |
| BackupLexer.BlockEnd | 2.6/src/lexer_BACKUP_25031.rs:110-114 | a block comment ends just after its first closer, and nothing before it is NUL or a closer; with no closer it is stuck on the sentinel |
| BackupLexer.BlockEndAsWritten | 2.6/src/lexer_BACKUP_25031.rs:113 | the loop as written, which pairs characters: when it stops it is just after a real closer, and otherwise it is stuck on a NUL |
| BackupLexer.AsWrittenMissesClose | 2.6/src/lexer_BACKUP_25031.rs:113 | on `/***/` and on `/* a **/` the intended rule finds the closer, while the loop as written runs past it to the end |
| BackupLexer.PassAt | 2.6/src/lexer_BACKUP_25031.rs:95-140 | one pass from the first non-blank: it stays within the input and keeps the line counter; it returns None only on the sentinel, never a blank operator |
| BackupLexer.ReadPass | 2.6/src/lexer_BACKUP_25031.rs:80-141 | one pass of `read`: the cursor moves forward within the input and the line counter never falls; a restart moves strictly forward |
| BackupLexer.NumberAt | 2.6/src/lexer_BACKUP_25031.rs:118-126 | a number token is a Num, and its scan consumes at least the first digit without leaving the input |
| BackupLexer.WordAt | 2.6/src/lexer_BACKUP_25031.rs:128-139 | a word token is a Word, and its scan consumes at least the first letter without leaving the input |
| BackupLexer.ScanFrom | 2.6/src/lexer_BACKUP_25031.rs:80-141 | a whole call of `read`, with its recursion after a comment: the cursor stays within the input, None appears only on the sentinel, and no blank is ever a token |
| BackupLexer.Lexer.constructor | 2.6/src/lexer_BACKUP_25031.rs:56-78 | a new lexer holds the input and the keyword table, with the cursor and the line counter at 0 |
| BackupLexer.Lexer.CharAt | 2.6/src/lexer_BACKUP_25031.rs:159-164 | while the cursor is inside the input it reads position i, whatever i is, and once the cursor has reached the end it gives the sentinel for every i |
| BackupLexer.Lexer.SeeNext | 2.6/src/lexer_BACKUP_25031.rs:155-157 | it shows the character at the cursor, and it is NUL exactly at the end or on a NUL byte |
| BackupLexer.Lexer.Next | 2.6/src/lexer_BACKUP_25031.rs:145-151 | it returns what `see_next` shows; it advances the cursor by exactly one unless that is NUL, and then the cursor stays |
| BackupLexer.Lexer.SkipBlanks | 2.6/src/lexer_BACKUP_25031.rs:82-91 | it consumes the blank run and the first character after it, which it returns; the line counter rises by the newlines in the run |
| BackupLexer.Lexer.SkipLineComment | 2.6/src/lexer_BACKUP_25031.rs:102-108 | it stops in front of the comment's newline, or on the sentinel |
| BackupLexer.Lexer.SkipBlockComment | 2.6/src/lexer_BACKUP_25031.rs:110-113 | it stops just after the first closer, or reports that it would spin on the sentinel |
| BackupLexer.Lexer.ScanNumber | 2.6/src/lexer_BACKUP_25031.rs:118-125 | it returns the fold of the digit run and consumes the character that ends the run |
| BackupLexer.Lexer.ScanWord | 2.6/src/lexer_BACKUP_25031.rs:128-133 | it returns exactly the alphanumeric run and consumes the character that ends it |
| BackupLexer.Lexer.ScanAt | 2.6/src/lexer_BACKUP_25031.rs:95-140 | from the first non-blank it does what PassAt prescribes: a token, a hang, or a restart after a comment |
| BackupLexer.Lexer.ReadOnce | 2.6/src/lexer_BACKUP_25031.rs:80-141 | one pass updates the cursor and the line counter as ReadPass prescribes |
| BackupLexer.Lexer.Read | 2.6/src/lexer_BACKUP_25031.rs:80-141 | the returned outcome, cursor and line counter are those of ScanFrom on the old cursor and line |
| BackupProperties.ScanFromRestart | 2.6/src/lexer_BACKUP_25031.rs:109 | after a skipped comment, `read` goes on as a fresh call from where the comment ended |
| BackupProperties.ScanFromDone | 2.6/src/lexer_BACKUP_25031.rs:95-140 | a pass that yields a token is the whole call |
| BackupProperties.BlanksSkipped | 2.6/src/lexer_BACKUP_25031.rs:82-91 | a run of blanks yields no token; the call goes on after it with the line counter raised by the run's newlines |
| BackupProperties.NewlineSkipped | 2.6/src/lexer_BACKUP_25031.rs:86-87 | a skipped newline raises the line counter by exactly one |
| BackupProperties.SpaceSkipped | 2.6/src/lexer_BACKUP_25031.rs:84-85 | a skipped space or tab leaves the line counter alone and yields no token |
| BackupProperties.NumberScan | 2.6/src/lexer_BACKUP_25031.rs:118-125 | a digit run yields Num(256, its decimal value), and the cursor lands past the character that ends the run |
| BackupProperties.WordScan | 2.6/src/lexer_BACKUP_25031.rs:128-139 | a word yields its table entry with its exact text, and the cursor lands past the character that ends it |
| BackupProperties.LineCommentScan | 2.6/src/lexer_BACKUP_25031.rs:102-109 | a `//` comment yields no token; the call goes on from its newline |
| BackupProperties.BlockEndPast | 2.6/src/lexer_BACKUP_25031.rs:113 | the comment skip passes over positions that hold neither NUL nor the start of a closer |
| BackupProperties.BlockCommentScan | 2.6/src/lexer_BACKUP_25031.rs:110-114 | a closed `/* */` comment yields no token; the call goes on just after its closer |
| BackupProperties.OpenCommentHangs | 2.6/src/lexer_BACKUP_25031.rs:113 | a comment that is never closed makes `read` never return |
| BackupProperties.OpScan | 2.6/src/lexer_BACKUP_25031.rs:140 | any other character yields Op(its code, itself), and only it is consumed |
| BackupProperties.SlashScan | 2.6/src/lexer_BACKUP_25031.rs:100-101 | a slash that opens no comment yields Op('/'), and the character after it is consumed as well |
| BackupProperties.EndIsFinal | 2.6/src/lexer_BACKUP_25031.rs:95-97 | once `read` has returned None, calling it again returns None with the cursor and the line counter unchanged |
| BackupProperties.Exhausted | 2.6/src/lexer_BACKUP_25031.rs:95-97 | at the end of the input `read` returns None without moving |
| BackupProperties.NumberRoundTrip | 2.6/src/lexer_BACKUP_25031.rs:118-125 | the decimal rendering of any natural number reads back as that number and consumes the whole input |
| BackupTests.ReadNumber | 2.6/src/lexer_BACKUP_25031.rs:188-205 | a lexer on the digits of n returns Num(256, n) |
| BackupTests.TestNum | 2.6/src/lexer_BACKUP_25031.rs:188-205 | `test_num`: 123, 1234, 12345, 123456, 12345678912 and 56789032312 read back as their values |
| BackupTests.ReadWord | 2.6/src/lexer_BACKUP_25031.rs:207-212 | a lexer on a word alone returns that word's table entry |
| BackupTests.TestWords | 2.6/src/lexer_BACKUP_25031.rs:214-227 | `test_true`, `test_false`, `test_word`: Word(257, "true"), Word(258, "false"), Word(259, "example") |
| BackupTests.BlanksThenWord | 2.6/src/lexer_BACKUP_25031.rs:82-91 | blanks and then a word up to the end yield that word, with the line counter raised by the blanks' newlines |
| BackupTests.LineCommentThenWord | 2.6/src/lexer_BACKUP_25031.rs:100-109 | a line comment, blanks and a word: the word is the first token, read on the line after the comment |
| BackupTests.BlockCommentThenWord | 2.6/src/lexer_BACKUP_25031.rs:110-114 | a block comment, blanks and a word: the word is the first token |
| BackupTests.SinglelineScan | 2.6/src/lexer_BACKUP_25031.rs:230-235 | on the single-line comment test's input, `read` returns Word(ID, "token") on line 1 |
| BackupTests.TestSinglelineComment | 2.6/src/lexer_BACKUP_25031.rs:230-235 | `test_singleline_comment`: the first token is Word(ID, "token") |
| BackupTests.MultilinedScan | 2.6/src/lexer_BACKUP_25031.rs:250-258 | on the four-line comment test's input, `read` returns Word(ID, "token") |
| BackupTests.TestMultilinedComment | 2.6/src/lexer_BACKUP_25031.rs:250-258 | `test_multilined_comment`: the first token is Word(ID, "token") |
| BackupTests.ReadOp | 2.6/src/lexer_BACKUP_25031.rs:260-265 | a lexer on an input starting with an operator character returns Op of that character |
| BackupTests.TestOp | 2.6/src/lexer_BACKUP_25031.rs:239-274 | `test_operator`, `test_op`: "+", "-", "/" and "/ some other stuff" each give the operator of their first character |
| BackupTests.TestCharAt | 2.6/src/lexer_BACKUP_25031.rs:276-282 | `test_char_at`: position 10 of the comment test's input is the newline |
| BackupTests.TestEnd | 2.6/src/lexer_BACKUP_25031.rs:95-97 | an added example, not one of the draft's tests: after the last token, two more calls return None and leave the cursor where it was |
| BufferedLexer.Chars | src/lexer.rs:125 | each byte becomes the character with its code, one for one |
| BufferedLexer.Window | src/lexer.rs:121-135 | the buffer a lexer holds: zeros in the spent slots, then the input's next bytes, and zeros past the input |
| BufferedLexer.ScanFrom | src/lexer.rs:81-118 | a whole call of `read`: at least one character is spent, the line counter never falls, and the token is never an end marker; a word is its table entry and an operator is never a blank |
| BufferedLexer.Lexer.constructor | src/lexer.rs:55-79 | a new lexer has the keyword table, the index and the line counter at 0 and `peek` a space; its buffer holds the first ten input bytes, zeros after them |
| BufferedLexer.Lexer.ReadToBuf | src/lexer.rs:137-139 | the reader copies min(10, what it has left) bytes to the front of the buffer; the other slots keep their bytes and the reader loses what it copied |
| BufferedLexer.Lexer.NextChar | src/lexer.rs:120-136 | it hands out the next character of the input, NUL past its end, and stores it in `peek`. With a slot left, it zeroes that slot, advances the index by one and changes no other slot. With all ten spent, it refills, hands out the first refilled byte, and leaves the index at 1 |
| BufferedLexer.Lexer.SkipBlanks | src/lexer.rs:82-92 | it spends the blank run and the first character after it, which it returns and leaves in `peek`; the line counter rises by the newlines in the run |
| BufferedLexer.Lexer.ScanNumber | src/lexer.rs:95-102 | it returns the fold of the digit run and spends the character that ends it, which `peek` then holds |
| BufferedLexer.Lexer.ScanWord | src/lexer.rs:105-110 | it returns exactly the alphanumeric run and spends the character that ends it, which `peek` then holds |
| BufferedLexer.Lexer.Read | src/lexer.rs:81-118 | the returned token, the characters spent and the line counter are those of ScanFrom on the old position and line, and `peek` holds the last character spent |
| BufferedProperties.BlanksSkipped | src/lexer.rs:83-92 | a run of blanks yields no token; the call goes on after it with the line counter raised by the run's newlines |
| BufferedProperties.NewlineSkipped | src/lexer.rs:87-88 | a skipped newline raises the line counter by exactly one |
| BufferedProperties.SpaceSkipped | src/lexer.rs:85-86 | a skipped space or tab leaves the line counter alone and yields no token |
| BufferedProperties.NumberScan | src/lexer.rs:95-103 | a digit run yields Num(256, its decimal value), and the character after the run is spent, even at the end of the input |
| BufferedProperties.WordScan | src/lexer.rs:105-116 | a word yields its table entry with its exact text, and the character after it is spent |
| BufferedProperties.OpScan | src/lexer.rs:117 | any other character, NUL included, yields Op(its code, itself), and only it is spent |
| BufferedProperties.Exhausted | src/lexer.rs:117 | once the input is spent, every call returns Op(0, NUL): this draft has no end token |
| BufferedProperties.NumberRoundTrip | src/lexer.rs:95-103 | the decimal rendering of any natural number reads back as that number, spending the NUL after it |
| BufferedTests.ReadNumber | src/lexer.rs:159-168 | a lexer on the bytes of n's digits returns Num(256, n), across a refill when there are more than ten digits |
| BufferedTests.TestNum | src/lexer.rs:159-176 | `test_num`: 123, 1234, 12345, 123456 and the eleven-digit 12345678912 read back as their values |
| BufferedTests.ReadWord | src/lexer.rs:179-188 | a lexer on a word alone returns that word's table entry |
| BufferedTests.TestWords | src/lexer.rs:178-214 | `test_true`, `test_false`, `test_word`: Word(257, "true"), Word(258, "false"), Word(259, "example") |
| BufferedTests.TestEnd | src/lexer.rs:117 | an added example, not one of the draft's tests: on an empty reader, two calls of `read` both return Op(0, NUL) |

## Left out

- Reader I/O.
  - The backup draft's input is the string `read_to_string` produces. Its UTF-8 check and the `unwrap` that would panic on invalid input are not modelled.
  - The current draft's reader is the sequence of bytes not yet delivered. A read copies min(10, what is left), as a byte-slice reader does. Short reads and I/O errors of other readers are not modelled.
- The `println!` debug output of both `read`s is pure output and is not modelled.
- Unicode classification: the input is restricted to ASCII, a precondition of both constructors.
  - On ASCII, `is_numeric`, `is_alphabetic` and `is_alphanumeric` are the digit and letter tests of `Text`.
  - Bytes of 0x80 and above are not modelled. Cast to characters, some of them are letters or numerals to Rust's `is_alphabetic` and `is_numeric`, and `to_digit(10).unwrap()` would panic on such a numeral.
- BackupLexer.Lexer.ScanNumber: the fold is over unbounded integers and does not model the `i64` overflow of long literals. `Text.FitsInI64` shows it is exact for every literal of at most 18 digits.
- BufferedLexer.Lexer.ScanNumber: as above, no `i64` overflow; exact up to 18 digits.
- BackupLexer.Lexer.CharAt: `char_at` checks the cursor and not `i` against the length, and would panic for an `i` out of range. The model instead requires `i` in range whenever the cursor is.
- BackupLexer.Lexer.SkipBlockComment: where the source loops forever on an unterminated comment, the method reports that it would. `read` then yields the `Hangs` outcome instead of never returning.
- BackupLexer.Lexer.SkipBlockComment: it finds the first closer, as the source's own comment intends. It does not copy the pairwise loop, which misses some closers (see Findings; the loop as written is `BackupLexer.BlockEndAsWritten`).
- `HashMap` is a two-entry `map`. `TokenDesc` is flattened into a `tag` field of each token. The one `Token` type carries the backup draft's `None`, which the current draft's scanner is proved never to return.
- The recursive `return self.read()` after a comment is a loop over passes in `BackupLexer.Lexer.Read`.
- The merge-conflict markers in the backup draft's tests are not code. The tests on both sides (`test_operator`, and `test_multilined_comment` with `test_op`) are modelled.
- Two-character operators, floating-point literals and error reporting do not exist in either draft.

## Findings

| source | as written | input that shows it | evidently intended | confidence | as-written member | corrected member |
|---|---|---|---|---|---|---|
| 2.6/src/lexer_BACKUP_25031.rs:113 | `while !(self.next() == '*' && self.next() == '/')` consumes a second character after each star, so a star that is that second character is never checked as the start of a closer | `/***/`: the second star is paired with the third, the final slash is read alone, and the loop runs on past the end of the input; the common ending `/* a **/` hangs the same way | skip to just after the first `*/` (the comment on lines 111-112) | not executed | BackupLexer.AsWrittenMissesClose | BackupLexer.BlockEnd |
