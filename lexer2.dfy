/**
 * The class Lexer2: a cursor over a char array, the current token and the
 * mode, updated in place by nextToken. Every method is proved against the
 * functions of Lexer2Scan.
 */
module Lexer2Class {
  import opened Wrappers
  import opened Chars
  import opened Longs
  import opened Lexer2Scan

  class Lexer2 {
    /** The input text as a char array; never written. */
    const data: array<char>
    /** The current token; None stands for null before the first call. */
    var token: Option<Token2>
    /** Index of the first unprocessed character. */
    var currentIndex: nat
    var state: Lexer2State

    /** The lexer's fields as a value. */
    function State(): LexState
      reads this, data
    {
      LexState(data[..], currentIndex, token, state)
    }

    /** Lexer2(String), for a non-null text. */
    constructor (text: string)
      ensures fresh(data) && State() == Initial(text)
    {
      data := new char[|text|](i requires 0 <= i < |text| => text[i]);
      token := None;
      currentIndex := 0;
      state := TextMode;
      new;
      assert data[..] == text;
    }

    /** Lexer2(String) including its null check: null text is an IllegalArgumentException (None). */
    static method Create(text: Option<string>) returns (r: Option<Lexer2>)
      ensures r.None? <==> text.None?
      ensures r.Some? ==> fresh(r.value) && fresh(r.value.data) && r.value.State() == Initial(text.value)
    {
      if text.None? {
        return None;
      }
      var lexer := new Lexer2(text.value);
      return Some(lexer);
    }

    /** getToken: the token last produced, without moving the cursor. */
    method GetToken() returns (t: Option<Token2>)
      ensures t == token
    {
      t := token;
    }

    method GetState() returns (s: Lexer2State)
      ensures s == state
    {
      s := state;
    }

    /** setState: switches the mode and leaves the cursor and the token alone. */
    method SetState(s: Lexer2State)
      modifies this
      ensures State() == old(State()).(mode := s)
    {
      state := s;
    }

    /** nextToken. */
    method NextToken() returns (r: Result<Token2, LexError>)
      requires currentIndex <= data.Length
      modifies this
      ensures r == Step(old(State())).result && State() == Step(old(State())).after
    {
      if state == TextMode {
        r := SetCurrentTokenText();
      } else {
        r := SetCurrentTokenTag();
      }
    }

    /** setCurrentTokenText. */
    method SetCurrentTokenText() returns (r: Result<Token2, LexError>)
      requires currentIndex <= data.Length && state == TextMode
      modifies this
      ensures r == Step(old(State())).result && State() == Step(old(State())).after
    {
      if token.Some? && token.value.kind == Eof {
        return Err(Exhausted);
      }
      if currentIndex >= data.Length {
        token := Some(EOF_TOKEN);
        return Ok(EOF_TOKEN);
      }
      if data[currentIndex] == '{' {
        token := Some(Token2(OpenBrackets, Chr('{')));
        currentIndex := currentIndex + 1;
        return Ok(token.value);
      }
      r := SetTextToken();
    }

    /** The text branch of setCurrentTokenText: an escaped run up to '{' or the end. */
    method SetTextToken() returns (r: Result<Token2, LexError>)
      requires currentIndex < data.Length && data[currentIndex] != '{'
      modifies this
      ensures r == ScanText(data[..], old(currentIndex)).result
      ensures State() == Advance(old(State()), ScanText(data[..], old(currentIndex)))
    {
      var startingIndex := currentIndex;
      while true
        invariant token == old(token) && state == old(state)
        invariant startingIndex <= currentIndex <= data.Length + 1
        invariant RunEnd(data[..], currentIndex, '{') == RunEnd(data[..], startingIndex, '{')
        decreases data.Length + 2 - currentIndex
      {
        if currentIndex >= data.Length || data[currentIndex] == '{' {
          break;
        }
        if data[currentIndex] == '\\' {
          currentIndex := currentIndex + 1;
        }
        currentIndex := currentIndex + 1;
      }
      assert currentIndex == RunEnd(data[..], startingIndex, '{');
      if currentIndex > data.Length {
        // new String(data, startingIndex, currentIndex - startingIndex) runs past the array
        return Err(IndexOutOfBounds);
      }
      token := Some(Token2(Text, Str(data[startingIndex..currentIndex])));
      r := Ok(token.value);
    }

    /** setCurrentTokenTag. */
    method SetCurrentTokenTag() returns (r: Result<Token2, LexError>)
      requires currentIndex <= data.Length && state == TagMode
      modifies this
      ensures r == Step(old(State())).result && State() == Step(old(State())).after
    {
      if token.Some? && token.value.kind == Eof {
        return Err(Exhausted);
      }
      if currentIndex >= data.Length {
        token := Some(EOF_TOKEN);
        return Ok(EOF_TOKEN);
      }
      SkipWhitespaces();
      if currentIndex >= data.Length {
        // data[currentIndex] is read past the end
        return Err(IndexOutOfBounds);
      }
      var c := data[currentIndex];
      var mappedType := SpecialKind(c);
      if mappedType.Some? {
        token := Some(Token2(mappedType.value, Chr(c)));
        currentIndex := currentIndex + 1;
        return Ok(token.value);
      }
      if IsLetter(c) {
        r := SetWordToken();
        return;
      }
      if IsDigit(c) {
        r := SetNumberToken();
        return;
      }
      if c == '"' {
        r := SetQuotedToken();
        return;
      }
      if IsOperator(c) {
        r := SetOperatorToken();
        return;
      }
      return Err(InvalidSymbol(c));
    }

    /** The letter branch of setCurrentTokenTag: a keyword or a variable name. */
    method SetWordToken() returns (r: Result<Token2, LexError>)
      requires currentIndex < data.Length && IsLetter(data[currentIndex])
      modifies this
      ensures r == ScanName(data[..], old(currentIndex)).result
      ensures State() == Advance(old(State()), ScanName(data[..], old(currentIndex)))
    {
      var beginningOfWord := currentIndex;
      currentIndex := currentIndex + 1;
      while currentIndex < data.Length && IsNameChar(data[currentIndex])
        invariant token == old(token) && state == old(state)
        invariant beginningOfWord < currentIndex <= data.Length
        invariant NameEnd(data[..], currentIndex) == NameEnd(data[..], beginningOfWord + 1)
      {
        currentIndex := currentIndex + 1;
      }
      var word := data[beginningOfWord..currentIndex];
      if IsKeyword(word) {
        token := Some(Token2(Keyword, Str(word)));
        return Ok(token.value);
      }
      token := Some(Token2(Var, Str(word)));
      return Ok(token.value);
    }

    /** The digit branch of setCurrentTokenTag: an integer or a double. */
    method SetNumberToken() returns (r: Result<Token2, LexError>)
      requires currentIndex < data.Length && IsDigit(data[currentIndex])
      modifies this
      ensures r == ScanNumber(data[..], old(currentIndex)).result
      ensures State() == Advance(old(State()), ScanNumber(data[..], old(currentIndex)))
    {
      var beginningOfNumber := currentIndex;
      currentIndex := currentIndex + 1;
      while currentIndex < data.Length && IsDigit(data[currentIndex])
        invariant token == old(token) && state == old(state)
        invariant beginningOfNumber < currentIndex <= data.Length
        invariant DigitsEnd(data[..], currentIndex) == DigitsEnd(data[..], beginningOfNumber + 1)
      {
        currentIndex := currentIndex + 1;
      }
      if currentIndex >= data.Length {
        // data[currentIndex] is read past the end
        return Err(IndexOutOfBounds);
      }
      assert currentIndex == DigitsEnd(data[..], beginningOfNumber + 1);
      if data[currentIndex] == '.' {
        r := SetDoubleToken(beginningOfNumber);
        return;
      }
      var number := ParseLong(data[beginningOfNumber..currentIndex]);
      if number.None? {
        return Err(NumberFormat);
      }
      token := Some(Token2(Integer, Long(number.value)));
      return Ok(token.value);
    }

    /** The fraction of a double: the digits after the '.' at currentIndex. */
    method SetDoubleToken(beginningOfNumber: nat) returns (r: Result<Token2, LexError>)
      requires beginningOfNumber < currentIndex < data.Length && data[currentIndex] == '.'
      requires IsDigit(data[beginningOfNumber])
      requires currentIndex == DigitsEnd(data[..], beginningOfNumber + 1)
      modifies this
      ensures r == ScanNumber(data[..], beginningOfNumber).result
      ensures State() == Advance(old(State()), ScanNumber(data[..], beginningOfNumber))
    {
      var dot := currentIndex;
      currentIndex := currentIndex + 1;
      while currentIndex < data.Length && IsDigit(data[currentIndex])
        invariant token == old(token) && state == old(state)
        invariant dot < currentIndex <= data.Length
        invariant DigitsEnd(data[..], currentIndex) == DigitsEnd(data[..], dot + 1)
      {
        currentIndex := currentIndex + 1;
      }
      assert currentIndex == DigitsEnd(data[..], dot + 1);
      assert ScanNumber(data[..], beginningOfNumber).next == currentIndex;
      token := Some(Token2(Double, Dbl(data[beginningOfNumber..currentIndex])));
      return Ok(token.value);
    }

    /** The '"' branch of setCurrentTokenTag: the raw content up to the closing quote. */
    method SetQuotedToken() returns (r: Result<Token2, LexError>)
      requires currentIndex < data.Length && data[currentIndex] == '"'
      modifies this
      ensures r == ScanQuoted(data[..], old(currentIndex)).result
      ensures State() == Advance(old(State()), ScanQuoted(data[..], old(currentIndex)))
    {
      currentIndex := currentIndex + 1;
      var beginningOfText := currentIndex;
      while true
        invariant token == old(token) && state == old(state)
        invariant beginningOfText <= currentIndex <= data.Length + 1
        invariant RunEnd(data[..], currentIndex, '"') == RunEnd(data[..], beginningOfText, '"')
        decreases data.Length + 2 - currentIndex
      {
        if currentIndex >= data.Length {
          return Err(UnterminatedString);
        }
        if data[currentIndex] == '"' {
          break;
        }
        if data[currentIndex] == '\\' {
          currentIndex := currentIndex + 1;
        }
        currentIndex := currentIndex + 1;
      }
      token := Some(Token2(Text, Str(data[beginningOfText..currentIndex])));
      currentIndex := currentIndex + 1;
      return Ok(token.value);
    }

    /** The operator branch of setCurrentTokenTag, with '-' before digits as a negative integer. */
    method SetOperatorToken() returns (r: Result<Token2, LexError>)
      requires currentIndex < data.Length && IsOperator(data[currentIndex])
      modifies this
      ensures r == ScanOperator(data[..], old(currentIndex)).result
      ensures State() == Advance(old(State()), ScanOperator(data[..], old(currentIndex)))
    {
      var c := data[currentIndex];
      if c == '-' {
        var beginningIndex := currentIndex;
        var nextIndex := currentIndex + 1;
        if nextIndex < data.Length && IsDigit(data[nextIndex]) {
          nextIndex := nextIndex + 1;
          while nextIndex < data.Length && IsDigit(data[nextIndex])
            invariant token == old(token) && state == old(state)
            invariant beginningIndex + 1 < nextIndex <= data.Length
            invariant DigitsEnd(data[..], nextIndex) == DigitsEnd(data[..], beginningIndex + 2)
          {
            nextIndex := nextIndex + 1;
          }
          var negativeNumber := ParseLong(data[beginningIndex..nextIndex]);
          if negativeNumber.None? {
            return Err(NumberFormat);
          }
          token := Some(Token2(Integer, Long(negativeNumber.value)));
          currentIndex := nextIndex;
          return Ok(token.value);
        }
      }
      token := Some(Token2(Operator, Chr(c)));
      currentIndex := currentIndex + 1;
      return Ok(token.value);
    }

    /** skipWhitespaces. */
    method SkipWhitespaces()
      requires currentIndex <= data.Length
      modifies this
      ensures State() == old(State()).(index := SkipWs(data[..], old(currentIndex)))
    {
      while currentIndex < data.Length
        invariant token == old(token) && state == old(state)
        invariant old(currentIndex) <= currentIndex <= data.Length
        invariant SkipWs(data[..], currentIndex) == SkipWs(data[..], old(currentIndex))
      {
        if IsWhitespace(data[currentIndex]) {
          currentIndex := currentIndex + 1;
          continue;
        }
        break;
      }
    }
  }
}
