/**
 * The toy lexer of package hr.fer.zemris.java.hw03.prob1 as pure functions:
 * the token one call of nextToken produces in BASIC and in EXTENDED mode,
 * where the cursor ends up, and how a BASIC word rewrites the char array
 * (every escaping backslash is overwritten with a space). Prob1Class.Lexer
 * is the imperative lexer proved against these functions.
 */
module Prob1Scan {
  import opened Wrappers
  import opened Chars
  import opened Longs

  /** TokenType. */
  datatype TokenType = Eof | Word | Number | Symbol

  /** The token's Object value: null, a String, a Long or a Character. */
  datatype Value = Null | Str(s: string) | Long(n: int) | Chr(c: char)

  /** Token. */
  datatype Token = Token(kind: TokenType, value: Value)

  /** LexerState. */
  datatype LexerState = Basic | Extended

  /** The causes of the LexerException nextToken can throw. */
  datatype LexError =
    | Exhausted      // a token was asked for after EOF
    | InvalidEscape  // a backslash at the end of the input or before a letter
    | NumberTooBig   // Long.parseLong refused the digit run

  const EOF_TOKEN: Token := Token(Eof, Null)

  /** The fields of a Lexer: the char array, currentIndex, token (null = None) and state. */
  datatype LexState = LexState(data: seq<char>, index: nat, token: Option<Token>, mode: LexerState)

  /** What one scan leaves behind: the token or the exception, the char array and the cursor. */
  datatype Scan = Scan(result: Result<Token, LexError>, data: seq<char>, next: nat)

  /** The token and the new fields after one call of nextToken. */
  datatype StepResult = StepResult(result: Result<Token, LexError>, after: LexState)

  predicate AtEof(ls: LexState) {
    ls.token.Some? && ls.token.value.kind == Eof
  }

  /** new Lexer(text), for a non-null text. */
  function Initial(text: string): LexState {
    LexState(text, 0, None, Basic)
  }

  /** b is a with some of its backslashes overwritten by spaces. */
  predicate Rewritten(a: seq<char>, b: seq<char>) {
    |a| == |b| && forall k :: 0 <= k < |a| ==> b[k] == a[k] || (a[k] == '\\' && b[k] == ' ')
  }

  // ---------------------------------------------------------------------------
  // BASIC mode.

  /** Where the word loop of setCurrentToken stopped, whether it threw, and the char array it left. */
  datatype WordRun = WordRun(ok: bool, data: seq<char>, end: nat)

  /**
   * The word loop: letters are taken; a backslash must be followed by a
   * character that is not a letter, is overwritten with a space, and takes
   * that character with it; anything else ends the word.
   */
  function WordLoop(data: seq<char>, i: nat): (r: WordRun)
    requires i <= |data|
    decreases |data| - i
    ensures i <= r.end <= |data| && |r.data| == |data|
    ensures !r.ok ==> r.end < |data| && data[r.end] == '\\'
  {
    if i >= |data| then WordRun(true, data, i)
    else if data[i] == '\\' then
      if i >= |data| - 1 || IsLetter(data[i + 1]) then WordRun(false, data, i)
      else WordLoop(data[i := ' '], i + 2)
    else if !IsLetter(data[i]) then WordRun(true, data, i)
    else WordLoop(data, i + 1)
  }

  /**
   * The word loop only overwrites backslashes with spaces, and only inside
   * the run it reads.
   */
  lemma {:induction false} WordLoopFrame(data: seq<char>, i: nat)
    requires i <= |data|
    ensures var w := WordLoop(data, i);
      Rewritten(data, w.data) && w.data[..i] == data[..i] && w.data[w.end..] == data[w.end..]
    decreases |data| - i
  {
    if i < |data| && data[i] == '\\' && i < |data| - 1 && !IsLetter(data[i + 1]) {
      var d := data[i := ' '];
      WordLoopFrame(d, i + 2);
      var w := WordLoop(d, i + 2);
      assert w.data[..i] == w.data[..i + 2][..i];
    } else if i < |data| && data[i] != '\\' && IsLetter(data[i]) {
      WordLoopFrame(data, i + 1);
      var w := WordLoop(data, i + 1);
      assert w.data[..i] == w.data[..i + 1][..i];
    }
  }

  /** String.replace(" ", ""). */
  function RemoveSpaces(s: string): (r: string)
    ensures |r| <= |s| && ' ' !in r
  {
    if s == [] then [] else (if s[0] == ' ' then [] else [s[0]]) + RemoveSpaces(s[1..])
  }

  /** The word branch: the word loop, then the overwritten run without its spaces. */
  function ScanWord(data: seq<char>, j: nat): (r: Scan)
    requires j <= |data|
    ensures |r.data| == |data| && j <= r.next <= |data|
  {
    var w := WordLoop(data, j);
    if !w.ok then Scan(Err(InvalidEscape), w.data, w.end)
    else Scan(Ok(Token(Word, Str(RemoveSpaces(w.data[j..w.end])))), w.data, w.end)
  }

  /** The number branch: the run of digits, read by Long.parseLong. */
  function ScanNumber(data: seq<char>, j: nat): (r: Scan)
    requires j <= |data|
    ensures r.data == data && j <= r.next <= |data|
  {
    var e := DigitsEnd(data, j);
    match ParseLong(data[j..e])
    case None => Scan(Err(NumberTooBig), data, e)
    case Some(n) => Scan(Ok(Token(Number, Long(n))), data, e)
  }

  /** setCurrentToken after its EOF check: whitespace, then a word, a number, or one symbol. */
  function ScanBasic(data: seq<char>, i: nat): (r: Scan)
    requires i <= |data|
    ensures |r.data| == |data| && r.next <= |data|
  {
    var j := SkipWs(data, i);
    if j >= |data| then Scan(Ok(EOF_TOKEN), data, j)
    else if IsLetter(data[j]) || data[j] == '\\' then ScanWord(data, j)
    else if IsDigit(data[j]) then ScanNumber(data, j)
    else Scan(Ok(Token(Symbol, Chr(data[j]))), data, j + 1)
  }

  // ---------------------------------------------------------------------------
  // EXTENDED mode.

  /** Whitespace and '#' end an EXTENDED word. */
  predicate IsBreak(c: char) {
    IsWhitespace(c) || c == '#'
  }

  /** The inner loop of setCurrentTokenExtendedMode: over a run of characters other than breaks. */
  function WordEnd(data: seq<char>, i: nat): (j: nat)
    requires i <= |data|
    decreases |data| - i
    ensures i <= j <= |data|
    ensures forall k :: i <= k < j ==> !IsBreak(data[k])
    ensures j == |data| || IsBreak(data[j])
  {
    if i < |data| && !IsBreak(data[i]) then WordEnd(data, i + 1) else i
  }

  /**
   * The outer loop of setCurrentTokenExtendedMode: an empty run is the end,
   * a '#', or a whitespace character to step over; a run is a WORD, after
   * which one more character is consumed unless it is '#' or there is none.
   */
  function ScanExtended(data: seq<char>, i: nat): (r: Scan)
    requires i <= |data|
    decreases |data| - i
    ensures r.data == data && r.next <= |data|
  {
    var e := WordEnd(data, i);
    if e == i then
      if i >= |data| then Scan(Ok(EOF_TOKEN), data, i)
      else if data[i] == '#' then Scan(Ok(Token(Symbol, Chr('#'))), data, i + 1)
      else ScanExtended(data, i + 1)
    else Scan(Ok(Token(Word, Str(data[i..e]))), data, if e < |data| && data[e] != '#' then e + 1 else e)
  }

  // ---------------------------------------------------------------------------
  // One call of nextToken.

  /**
   * nextToken: after EOF it throws and changes nothing; otherwise it scans in
   * the current mode, and the token is replaced unless the scan threw.
   */
  function Step(ls: LexState): (r: StepResult)
    requires ls.index <= |ls.data|
    ensures r.after.mode == ls.mode && r.after.index <= |r.after.data|
    ensures AtEof(ls) ==> r.result == Err(Exhausted) && r.after == ls
    ensures r.result.Ok? ==> r.after.token == Some(r.result.value)
    ensures r.result.Err? ==> r.after.token == ls.token
  {
    if AtEof(ls) then StepResult(Err(Exhausted), ls)
    else
      var sc := if ls.mode == Basic then ScanBasic(ls.data, ls.index) else ScanExtended(ls.data, ls.index);
      StepResult(sc.result, Advance(ls, sc))
  }

  /** The fields after a scan: its char array and cursor, and its token unless it threw. */
  function Advance(ls: LexState, sc: Scan): LexState {
    LexState(sc.data, sc.next, if sc.result.Ok? then Some(sc.result.value) else ls.token, ls.mode)
  }

  // ---------------------------------------------------------------------------
  // What the words mean.

  /** A run of letters and escape pairs, an escape pair being a backslash and a character other than a letter. */
  predicate EscapedWord(s: string)
    decreases |s|
  {
    if s == [] then true
    else if s[0] == '\\' then |s| >= 2 && !IsLetter(s[1]) && EscapedWord(s[2..])
    else IsLetter(s[0]) && EscapedWord(s[1..])
  }

  /** The characters an escaped word stands for: each escape pair gives its second character. */
  function Unescape(s: string): (r: string)
    requires EscapedWord(s)
    decreases |s|
  {
    if s == [] then []
    else if s[0] == '\\' then [s[1]] + Unescape(s[2..])
    else [s[0]] + Unescape(s[1..])
  }

  /**
   * The word loop reads the longest run of letters and escape pairs from i;
   * it throws exactly at a backslash that is last or comes before a letter;
   * and the run it overwrote, without spaces, is the unescaped run without
   * spaces.
   */
  lemma WordLoopMeaning(data: seq<char>, i: nat)
    requires i <= |data|
    ensures var w := WordLoop(data, i);
      EscapedWord(data[i..w.end]) &&
      (w.ok ==> w.end == |data| || (data[w.end] != '\\' && !IsLetter(data[w.end]))) &&
      (!w.ok ==> w.end == |data| - 1 || IsLetter(data[w.end + 1])) &&
      RemoveSpaces(w.data[i..w.end]) == RemoveSpaces(Unescape(data[i..w.end]))
  {
    WordLoopStops(data, i);
    WordLoopText(data, i);
  }

  lemma {:induction false} WordLoopStops(data: seq<char>, i: nat)
    requires i <= |data|
    ensures var w := WordLoop(data, i);
      EscapedWord(data[i..w.end]) &&
      (w.ok ==> w.end == |data| || (data[w.end] != '\\' && !IsLetter(data[w.end]))) &&
      (!w.ok ==> w.end == |data| - 1 || IsLetter(data[w.end + 1]))
    decreases |data| - i
  {
    var w := WordLoop(data, i);
    if i < |data| && data[i] == '\\' && i < |data| - 1 && !IsLetter(data[i + 1]) {
      var d := data[i := ' '];
      WordLoopStops(d, i + 2);
      assert d[i + 2..w.end] == data[i..w.end][2..];
    } else if i < |data| && data[i] != '\\' && IsLetter(data[i]) {
      WordLoopStops(data, i + 1);
      assert data[i + 1..w.end] == data[i..w.end][1..];
    }
  }

  lemma {:induction false} WordLoopText(data: seq<char>, i: nat)
    requires i <= |data|
    ensures var w := WordLoop(data, i);
      EscapedWord(data[i..w.end]) &&
      RemoveSpaces(w.data[i..w.end]) == RemoveSpaces(Unescape(data[i..w.end]))
    decreases |data| - i
  {
    WordLoopStops(data, i);
    var w := WordLoop(data, i);
    if i < |data| && data[i] == '\\' && i < |data| - 1 && !IsLetter(data[i + 1]) {
      var d := data[i := ' '];
      WordLoopText(d, i + 2);
      EscapeText(data, i, w);
    } else if i < |data| && data[i] != '\\' && IsLetter(data[i]) {
      WordLoopText(data, i + 1);
      LetterText(data, i, w);
    }
  }

  /** One escape pair: the backslash becomes a space and the escaped character stays. */
  lemma EscapeText(data: seq<char>, i: nat, w: WordRun)
    requires i + 1 < |data| && data[i] == '\\' && !IsLetter(data[i + 1])
    requires w == WordLoop(data[i := ' '], i + 2) && EscapedWord(data[i..w.end])
    requires RemoveSpaces(w.data[i + 2..w.end]) == RemoveSpaces(Unescape(data[i := ' '][i + 2..w.end]))
    ensures RemoveSpaces(w.data[i..w.end]) == RemoveSpaces(Unescape(data[i..w.end]))
  {
    var d := data[i := ' '];
    WordLoopFrame(d, i + 2);
    assert w.data[i] == w.data[..i + 2][i] == d[i];
    assert w.data[i + 1] == w.data[..i + 2][i + 1] == d[i + 1];
    var raw := data[i..w.end];
    assert d[i + 2..w.end] == raw[2..];
    var s := w.data[i..w.end];
    assert s[0] == ' ' && s[1..][0] == data[i + 1] && s[1..][1..] == w.data[i + 2..w.end];
    assert ([raw[1]] + Unescape(raw[2..]))[1..] == Unescape(raw[2..]);
  }

  /** One letter: it stays where it is. */
  lemma LetterText(data: seq<char>, i: nat, w: WordRun)
    requires i < |data| && IsLetter(data[i])
    requires w == WordLoop(data, i + 1) && EscapedWord(data[i..w.end])
    requires RemoveSpaces(w.data[i + 1..w.end]) == RemoveSpaces(Unescape(data[i + 1..w.end]))
    ensures RemoveSpaces(w.data[i..w.end]) == RemoveSpaces(Unescape(data[i..w.end]))
  {
    WordLoopFrame(data, i + 1);
    var raw := data[i..w.end];
    assert raw[1..] == data[i + 1..w.end];
    var s := w.data[i..w.end];
    assert s[0] == data[i] && s[1..] == w.data[i + 1..w.end];
    assert ([raw[0]] + Unescape(raw[1..]))[1..] == Unescape(raw[1..]);
  }

  /** Without spaces there is nothing for replace(" ", "") to remove. */
  lemma {:induction false} RemoveSpacesNone(s: string)
    requires ' ' !in s
    ensures RemoveSpaces(s) == s
  {
    if s != [] {
      assert ' ' !in s[1..];
      RemoveSpacesNone(s[1..]);
    }
  }

  // ---------------------------------------------------------------------------
  // The tokens of one call of nextToken.

  /**
   * BASIC words: from the first character after the whitespace that is a
   * letter or a backslash, the lexer reads the longest run of letters and
   * escape pairs. The token holds the run unescaped and, because the
   * escaping backslashes become spaces before the spaces are stripped,
   * without its escaped spaces either. A backslash that is last or comes
   * before a letter throws, with the cursor left on it.
   */
  lemma BasicWord(ls: LexState, j: nat)
    requires ls.index <= |ls.data| && ls.mode == Basic && !AtEof(ls)
    requires j == SkipWs(ls.data, ls.index) && j < |ls.data| && (IsLetter(ls.data[j]) || ls.data[j] == '\\')
    ensures var r := Step(ls); var e := r.after.index;
      j <= e <= |ls.data| && EscapedWord(ls.data[j..e]) &&
      (r.result.Ok? ==>
        r.result.value == Token(Word, Str(RemoveSpaces(Unescape(ls.data[j..e])))) &&
        (e == |ls.data| || (ls.data[e] != '\\' && !IsLetter(ls.data[e])))) &&
      (r.result.Err? ==>
        r.result.error == InvalidEscape && ls.data[e] == '\\' && (e == |ls.data| - 1 || IsLetter(ls.data[e + 1])))
  {
    WordLoopMeaning(ls.data, j);
  }

  /** "a\ b" stands for "a b"... */
  lemma EscapedSpaceMeant()
    ensures EscapedWord("a\\ b") && Unescape("a\\ b") == "a b"
  {
    var data := "a\\ b";
    var t := data[3..];
    assert t == ['b'] && t[1..] == [];
    assert EscapedWord(t) && Unescape(t) == "b";
    assert data[1..][2..] == data[3..];
    assert EscapedWord(data[1..]) && Unescape(data[1..]) == " b";
  }

  /** The word loop over "a\ b" overwrites the backslash and reads to the end. */
  lemma EscapedSpaceLoop()
    ensures WordLoop("a\\ b", 0) == WordRun(true, "a  b", 4)
  {
    var data := "a\\ b";
    var d := "a  b";
    assert data[1 := ' '] == d;
    assert IsLetter(data[0]) && data[1] == '\\' && !IsLetter(data[2]) && IsLetter(d[3]);
    assert WordLoop(d, 4) == WordRun(true, d, 4);
    assert WordLoop(d, 3) == WordRun(true, d, 4);
    assert WordLoop(data, 1) == WordRun(true, d, 4);
  }

  /** ...but the escaped space is lost, so the word read is "ab". */
  lemma EscapedSpaceDropped()
    ensures Step(Initial("a\\ b")).result == Ok(Token(Word, Str("ab")))
  {
    var data := "a\\ b";
    var d := "a  b";
    SkipWsUnique(data, 0, 0);
    EscapedSpaceLoop();
    assert d[0..4] == d;
    assert RemoveSpaces(d[3..]) == "b";
    assert RemoveSpaces(d[2..]) == "b";
    assert RemoveSpaces(d[1..]) == "b";
    assert RemoveSpaces(d) == "ab";
    assert ScanBasic(data, 0).result == Ok(Token(Word, Str("ab")));
  }

  /**
   * BASIC numbers: the longest run of digits is a NUMBER holding its value,
   * or, when the value does not fit in a long, a NumberTooBig with the
   * cursor after the run. The char array is left alone.
   */
  lemma BasicNumber(ls: LexState, j: nat)
    requires ls.index <= |ls.data| && ls.mode == Basic && !AtEof(ls)
    requires j == SkipWs(ls.data, ls.index) && j < |ls.data| && IsDigit(ls.data[j])
    ensures var r := Step(ls); var e := r.after.index;
      j < e <= |ls.data| && AllDigits(ls.data[j..e]) && (e == |ls.data| || !IsDigit(ls.data[e])) &&
      r.after.data == ls.data &&
      (r.result.Ok? <==> DigitsValue(ls.data[j..e]) <= MAX_LONG) &&
      (r.result.Ok? ==> r.result.value == Token(Number, Long(DigitsValue(ls.data[j..e])))) &&
      (r.result.Err? ==> r.result.error == NumberTooBig)
  {
    var e := DigitsEnd(ls.data, j);
    var digits := ls.data[j..e];
    assert digits[0] == ls.data[j];
    assert AllDigits(digits);
  }

  /** BASIC symbols: any other character is one SYMBOL and the cursor moves past it. */
  lemma BasicSymbol(ls: LexState, j: nat)
    requires ls.index <= |ls.data| && ls.mode == Basic && !AtEof(ls)
    requires j == SkipWs(ls.data, ls.index) && j < |ls.data|
    requires var c := ls.data[j]; !IsLetter(c) && c != '\\' && !IsDigit(c)
    ensures Step(ls).result == Ok(Token(Symbol, Chr(ls.data[j])))
    ensures Step(ls).after == ls.(index := j + 1, token := Some(Token(Symbol, Chr(ls.data[j]))))
    ensures !IsWhitespace(ls.data[j])
  {
  }

  /** In BASIC mode, once only whitespace is left the token is EOF and the cursor is at the end. */
  lemma BasicEof(ls: LexState)
    requires ls.index <= |ls.data| && ls.mode == Basic && !AtEof(ls)
    requires forall k :: ls.index <= k < |ls.data| ==> IsWhitespace(ls.data[k])
    ensures Step(ls).result == Ok(EOF_TOKEN)
    ensures Step(ls).after == ls.(index := |ls.data|, token := Some(EOF_TOKEN))
  {
    SkipWsUnique(ls.data, ls.index, |ls.data|);
  }

  /**
   * EXTENDED mode without its loop: whitespace is skipped; then comes the
   * end, a '#', or a word of characters other than whitespace and '#' and
   * one more character unless it is '#' or there is none.
   */
  function ExtendedToken(data: seq<char>, i: nat): (r: Scan)
    requires i <= |data|
  {
    var j := SkipWs(data, i);
    if j == |data| then Scan(Ok(EOF_TOKEN), data, j)
    else if data[j] == '#' then Scan(Ok(Token(Symbol, Chr('#'))), data, j + 1)
    else
      var e := WordEnd(data, j);
      Scan(Ok(Token(Word, Str(data[j..e]))), data, if e < |data| && data[e] != '#' then e + 1 else e)
  }

  /** The loop of setCurrentTokenExtendedMode is ExtendedToken. */
  lemma {:induction false} ExtendedMeaning(data: seq<char>, i: nat)
    requires i <= |data|
    ensures ScanExtended(data, i) == ExtendedToken(data, i)
    decreases |data| - i
  {
    if i < |data| && IsWhitespace(data[i]) {
      ExtendedMeaning(data, i + 1);
    } else {
      SkipWsUnique(data, i, i);
    }
  }

  /**
   * EXTENDED mode never throws, its words are non-empty and hold no break,
   * and the cursor moves past the token unless it is EOF.
   */
  lemma ExtendedShape(data: seq<char>, i: nat)
    requires i <= |data|
    ensures var r := ExtendedToken(data, i);
      r.result.Ok? && (if r.result.value.kind == Eof then r.next == |data| else r.next > i) &&
      (r.result.value.kind == Word ==>
        var w := r.result.value.value.s; |w| > 0 && forall k :: 0 <= k < |w| ==> !IsBreak(w[k]))
  {
    var j := SkipWs(data, i);
    if j < |data| && data[j] != '#' {
      var e := WordEnd(data, j);
      var w := data[j..e];
      assert forall k :: 0 <= k < |w| ==> w[k] == data[j + k];
    }
  }

  /**
   * Every call that does not throw moves the cursor forward, or yields EOF
   * with the cursor at the end; the char array only ever has backslashes
   * overwritten by spaces, and only in BASIC mode.
   */
  lemma StepProgress(ls: LexState)
    requires ls.index <= |ls.data|
    ensures var r := Step(ls);
      Rewritten(ls.data, r.after.data) && (ls.mode == Extended ==> r.after.data == ls.data) &&
      (r.result.Ok? ==> if r.result.value.kind == Eof then r.after.index == |ls.data| else r.after.index > ls.index)
  {
    if !AtEof(ls) && ls.mode == Extended {
      ExtendedMeaning(ls.data, ls.index);
      ExtendedShape(ls.data, ls.index);
    } else if !AtEof(ls) {
      var j := SkipWs(ls.data, ls.index);
      if j < |ls.data| && (IsLetter(ls.data[j]) || ls.data[j] == '\\') {
        WordLoopFrame(ls.data, j);
      }
    }
  }
}

