/**
 * The class Lexer of package prob1: a char array the BASIC word loop writes
 * into, a cursor, the current token and the mode, updated in place by
 * nextToken. Every method is proved against the functions of Prob1Scan.
 */
module Prob1Class {
  import opened Wrappers
  import opened Chars
  import opened Longs
  import opened Prob1Scan

  class Lexer {
    /** The input text as a char array; escaping backslashes are overwritten with spaces. */
    const data: array<char>
    /** The current token; None stands for null before the first call. */
    var token: Option<Token>
    /** Index of the first unprocessed character. */
    var currentIndex: nat
    var state: LexerState

    /** The lexer's fields as a value. */
    function State(): LexState
      reads this, data
    {
      LexState(data[..], currentIndex, token, state)
    }

    /** Lexer(String), for a non-null text. */
    constructor (text: string)
      ensures fresh(data) && State() == Initial(text)
    {
      data := new char[|text|](i requires 0 <= i < |text| => text[i]);
      token := None;
      currentIndex := 0;
      state := Basic;
      new;
      assert data[..] == text;
    }

    /** Lexer(String) including its null check: null text is an IllegalArgumentException (None). */
    static method Create(text: Option<string>) returns (r: Option<Lexer>)
      ensures r.None? <==> text.None?
      ensures r.Some? ==> fresh(r.value) && fresh(r.value.data) && r.value.State() == Initial(text.value)
    {
      if text.None? {
        return None;
      }
      var lexer := new Lexer(text.value);
      return Some(lexer);
    }

    /** getToken: the token last produced, without moving the cursor. */
    method GetToken() returns (t: Option<Token>)
      ensures t == token
    {
      t := token;
    }

    method GetState() returns (s: LexerState)
      ensures s == state
    {
      s := state;
    }

    /** setState: a null state is an IllegalArgumentException and changes nothing; otherwise only the mode changes. */
    method SetState(s: Option<LexerState>) returns (ok: bool)
      modifies this
      ensures ok <==> s.Some?
      ensures State() == if s.Some? then old(State()).(mode := s.value) else old(State())
    {
      if s.None? {
        return false;
      }
      state := s.value;
      return true;
    }

    /** nextToken. */
    method NextToken() returns (r: Result<Token, LexError>)
      requires currentIndex <= data.Length
      modifies this, data
      ensures r == Step(old(State())).result && State() == Step(old(State())).after
    {
      if state == Basic {
        r := SetCurrentToken();
      } else {
        r := SetCurrentTokenExtendedMode();
      }
    }

    /** setCurrentToken. */
    method SetCurrentToken() returns (r: Result<Token, LexError>)
      requires currentIndex <= data.Length && state == Basic
      modifies this, data
      ensures r == Step(old(State())).result && State() == Step(old(State())).after
    {
      if token.Some? && token.value.kind == Eof {
        return Err(Exhausted);
      }
      SkipWhitespaces();
      if currentIndex >= data.Length {
        token := Some(EOF_TOKEN);
        return Ok(EOF_TOKEN);
      }
      var c := data[currentIndex];
      if IsLetter(c) || c == '\\' {
        r := SetWordToken();
        return;
      }
      if IsDigit(c) {
        r := SetNumberToken();
        return;
      }
      token := Some(Token(Symbol, Chr(c)));
      currentIndex := currentIndex + 1;
      return Ok(token.value);
    }

    /** The word branch of setCurrentToken: the word loop, then the run it overwrote without its spaces. */
    method SetWordToken() returns (r: Result<Token, LexError>)
      requires currentIndex <= data.Length
      modifies this, data
      ensures r == ScanWord(old(data[..]), old(currentIndex)).result
      ensures State() == Advance(old(State()), ScanWord(old(data[..]), old(currentIndex)))
    {
      var beginningOfWord := currentIndex;
      var ok := RunWordLoop();
      if !ok {
        return Err(InvalidEscape);
      }
      var word := RemoveSpaces(data[beginningOfWord..currentIndex]);
      token := Some(Token(Word, Str(word)));
      return Ok(token.value);
    }

    /** The word loop of setCurrentToken; false when it throws. */
    method RunWordLoop() returns (ok: bool)
      requires currentIndex <= data.Length
      modifies this, data
      ensures WordLoop(old(data[..]), old(currentIndex)) == WordRun(ok, data[..], currentIndex)
      ensures token == old(token) && state == old(state)
    {
      ghost var w := WordLoop(data[..], currentIndex);
      while true
        invariant token == old(token) && state == old(state)
        invariant currentIndex <= data.Length
        invariant WordLoop(data[..], currentIndex) == w
        decreases data.Length - currentIndex
      {
        if currentIndex >= data.Length {
          break;
        }
        if data[currentIndex] == '\\' {
          if currentIndex >= data.Length - 1 || IsLetter(data[currentIndex + 1]) {
            return false;
          }
          EscapeStep(currentIndex);
          currentIndex := currentIndex + 1;
        } else if !IsLetter(data[currentIndex]) {
          break;
        }
        currentIndex := currentIndex + 1;
      }
      return true;
    }

    /** One escape of the word loop: the backslash at i becomes a space, and the loop goes on two further. */
    method EscapeStep(i: nat)
      requires i + 1 < data.Length && data[i] == '\\' && !IsLetter(data[i + 1])
      modifies data
      ensures data[..] == old(data[..])[i := ' ']
      ensures WordLoop(data[..], i + 2) == WordLoop(old(data[..]), i)
    {
      data[i] := ' ';
      assert data[..] == old(data[..])[i := ' '];
    }

    /** The number branch of setCurrentToken: the run of digits, read by Long.parseLong. */
    method SetNumberToken() returns (r: Result<Token, LexError>)
      requires currentIndex <= data.Length
      modifies this
      ensures r == ScanNumber(data[..], old(currentIndex)).result
      ensures State() == Advance(old(State()), ScanNumber(data[..], old(currentIndex)))
    {
      var beginningOfNumber := currentIndex;
      while currentIndex < data.Length && IsDigit(data[currentIndex])
        invariant token == old(token) && state == old(state)
        invariant beginningOfNumber <= currentIndex <= data.Length
        invariant DigitsEnd(data[..], currentIndex) == DigitsEnd(data[..], beginningOfNumber)
      {
        currentIndex := currentIndex + 1;
      }
      var number := ParseLong(data[beginningOfNumber..currentIndex]);
      if number.None? {
        return Err(NumberTooBig);
      }
      token := Some(Token(Number, Long(number.value)));
      return Ok(token.value);
    }

    /** setCurrentTokenExtendedMode. */
    method SetCurrentTokenExtendedMode() returns (r: Result<Token, LexError>)
      requires currentIndex <= data.Length && state == Extended
      modifies this
      ensures r == Step(old(State())).result && State() == Step(old(State())).after
    {
      if token.Some? && token.value.kind == Eof {
        return Err(Exhausted);
      }
      if currentIndex >= data.Length {
        token := Some(EOF_TOKEN);
        return Ok(EOF_TOKEN);
      }
      r := SetExtendedToken();
    }

    /** The loop of setCurrentTokenExtendedMode. */
    method SetExtendedToken() returns (r: Result<Token, LexError>)
      requires currentIndex <= data.Length
      modifies this
      ensures var sc := ScanExtended(data[..], old(currentIndex));
        r == sc.result && r.Ok? && currentIndex == sc.next && token == Some(r.value) && state == old(state)
    {
      while true
        invariant token == old(token) && state == old(state)
        invariant currentIndex <= data.Length
        invariant ScanExtended(data[..], currentIndex) == ScanExtended(data[..], old(currentIndex))
        decreases data.Length - currentIndex
      {
        var beginningOfWord := currentIndex;
        SkipWordChars();
        if beginningOfWord == currentIndex {
          if currentIndex >= data.Length {
            token := Some(EOF_TOKEN);
            return Ok(EOF_TOKEN);
          } else if data[currentIndex] == '#' {
            token := Some(Token(Symbol, Chr('#')));
            currentIndex := currentIndex + 1;
            return Ok(token.value);
          }
          currentIndex := currentIndex + 1;
          continue;
        }
        token := Some(Token(Word, Str(data[beginningOfWord..currentIndex])));
        if currentIndex < data.Length && data[currentIndex] != '#' {
          currentIndex := currentIndex + 1;
        }
        return Ok(token.value);
      }
    }

    /** The inner loop of setCurrentTokenExtendedMode: past the characters that are not breaks. */
    method SkipWordChars()
      requires currentIndex <= data.Length
      modifies this
      ensures State() == old(State()).(index := WordEnd(data[..], old(currentIndex)))
    {
      while currentIndex < data.Length && !IsBreak(data[currentIndex])
        invariant token == old(token) && state == old(state)
        invariant old(currentIndex) <= currentIndex <= data.Length
        invariant WordEnd(data[..], currentIndex) == WordEnd(data[..], old(currentIndex))
      {
        currentIndex := currentIndex + 1;
      }
    }

    /** skipWhitespaces: nothing to do on an empty array; otherwise the cursor passes the whitespace. */
    method SkipWhitespaces()
      requires currentIndex <= data.Length
      modifies this
      ensures State() == old(State()).(index := SkipWs(data[..], old(currentIndex)))
    {
      if data.Length == 0 {
        return;
      }
      while currentIndex < data.Length
        invariant token == old(token) && state == old(state)
        invariant old(currentIndex) <= currentIndex <= data.Length
        invariant SkipWs(data[..], currentIndex) == SkipWs(data[..], old(currentIndex))
      {
        if IsWhitespace(data[currentIndex]) {
          currentIndex := currentIndex + 1;
          continue;
        }
        break;
      }
    }
  }
}
