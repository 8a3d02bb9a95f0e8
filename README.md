# Lexer-and-Parser in Dafny

A model of the template language of `hr.fer.zemris.java.custom.scripting`,
and the proofs that go with it.

The template language has three parts:

- **The lexer, `Lexer2`.** In TEXT mode it produces free text and `{`. In
  TAG mode it produces variables, keywords, integers, doubles, quoted
  strings, operators and the symbols `{ } $ @ =`.
- **The parser, `SmartScriptParser`.** It builds a tree of a document node,
  text nodes, echo nodes `{$= … $}` and FOR nodes `{$FOR i a b c $}…{$END$}`.
- **The serializer, `createOriginalDocumentBody` of `SmartScriptTester`.**
  It writes a tree back as document text.

The toy lexer of `hr.fer.zemris.java.hw03.prob1` is modelled as well. It has
a BASIC mode (words with escapes, numbers, symbols) and an EXTENDED mode
(runs up to whitespace or `#`).

Both lexers and the parser change their state step by step, so each one is
a Dafny class:

- `Lexer2Class.Lexer2`, over an `array<char>`;
- `Prob1Class.Lexer`, whose word loop overwrites the array;
- `ParserClass.SmartScriptParser`, which holds its lexer and its stack.

Each method is proved against a pure function of the same state:
`Lexer2Scan.Step`, `Prob1Scan.Step`, and the functions of `ParserSpec`. Each
turn of parse()'s `while (true)` loop is one call of `ParserSpec.ParseLoop`.

The main results are these:

- **The two directions of the parse/serialize round trip.**
  - Every document the parser accepts becomes a well-formed tree
    (`ParserImage.ParseDocumentImage`).
  - Every well-formed tree, serialized, parses back to itself
    (`DocumentRoundTrip.ParseSerialized`).
  - Together they give the property the source's test checks
    (`DocumentFacts.SerializeStable`).
- **What each lexer token means.**
  - The scanning loops stop at the first position that ends them.
  - Integer tokens round-trip through their text.
  - A prob1 BASIC word is its unescaped run with spaces removed, so an
    escaped space is lost (`Prob1Scan.EscapedSpaceDropped`).

The model follows the code in these places:

- **Inputs that end in the middle of a tag.** The lexer indexes past the end
  of the input in three cases:
  - the input ends with whitespace inside a tag;
  - the input ends with a number inside a tag;
  - a backslash is the last character of a text.

  Each of these is the error `IndexOutOfBounds`, as the Java code throws one
  there.
- **A TEXT token must come first, and after every tag.** A document that
  starts with a tag is rejected (`DocumentFacts.LeadingTag`), and so are two
  tags in a row after valid children (`DocumentFacts.TagAfterTag`). At any
  point of the input, a tag where a text is due is rejected
  (`DocumentFacts.TextMissing`).
- **A FOR tag needs its END.** After valid children, a FOR node still open
  at the end of the input leaves two nodes on the stack, and the parse fails
  as Unbalanced (`DocumentFacts.UnclosedFor`). In general, the input ending
  with more than one node on the stack fails as Unbalanced
  (`DocumentFacts.EndUnbalanced`, `ParserSpec.ParseLoopEof`).

## Model

| member | source | states |
|---|---|---|
| Lexer2Scan.SpecialKind | src/main/java/hr/fer/zemris/java/custom/scripting/lexer/Lexer2.java:250-264 | exactly the characters `{ } $ @ =` have a token type of their own |
| Lexer2Scan.RunEnd | src/main/java/hr/fer/zemris/java/custom/scripting/lexer/Lexer2.java:94-105 | the text loop stops at the stop character or the end, with an escaped run before it, or one past the end after a trailing backslash |
| Lexer2Scan.RunEndUnique | src/main/java/hr/fer/zemris/java/custom/scripting/lexer/Lexer2.java:94-105 | the text loop stops at the first position that is preceded by an escaped run and holds the stop character or is the end |
| Lexer2Scan.NameEnd | src/main/java/hr/fer/zemris/java/custom/scripting/lexer/Lexer2.java:134-137 | the name loop takes letters, digits and underscores and stops at the first other character |
| Lexer2Scan.NameEndUnique | src/main/java/hr/fer/zemris/java/custom/scripting/lexer/Lexer2.java:134-137 | the name loop stops at the first character that is not a name character, and nowhere else |
| Lexer2Scan.ScanText | src/main/java/hr/fer/zemris/java/custom/scripting/lexer/Lexer2.java:77-106 | TEXT mode: EOF exactly at the end, `{` exactly on a `{`, otherwise a non-empty escaped text up to the next `{` or the end, or IndexOutOfBounds after a trailing backslash |
| Lexer2Scan.ScanNameToken | src/main/java/hr/fer/zemris/java/custom/scripting/lexer/Lexer2.java:131-145 | a letter starts the longest run of letters, digits and underscores; the token holds exactly that run, is a KEYWORD exactly when its upper case is FOR or END and a VAR otherwise, and the cursor stops after the run |
| Lexer2Scan.ScanNumberInteger | src/main/java/hr/fer/zemris/java/custom/scripting/lexer/Lexer2.java:147-170 | a digit run not followed by `.` is an INTEGER of the run's decimal value when that value is at most 2^63-1, and otherwise a NumberFormatException; the cursor stops after the run either way |
| Lexer2Scan.ScanNumberDouble | src/main/java/hr/fer/zemris/java/custom/scripting/lexer/Lexer2.java:147-163 | digits, `.` and the longest digit run after it are a DOUBLE of exactly that lexeme, with the cursor after it |
| Lexer2Scan.ScanNumberAtEnd | src/main/java/hr/fer/zemris/java/custom/scripting/lexer/Lexer2.java:147-154 | a digit run that reaches the end of the input is an index error: the check for `.` reads past the end |
| Lexer2Scan.ScanQuotedClosed | src/main/java/hr/fer/zemris/java/custom/scripting/lexer/Lexer2.java:174-194 | a quote closed by a later quote with an escaped run between them is a TEXT token of that raw run (backslashes kept), and the cursor stops after the closing quote |
| Lexer2Scan.ScanQuotedUnterminated | src/main/java/hr/fer/zemris/java/custom/scripting/lexer/Lexer2.java:174-190 | a quote fails with the unterminated-string exception exactly when no later quote closes an escaped run |
| Lexer2Scan.ScanOperatorNegative | src/main/java/hr/fer/zemris/java/custom/scripting/lexer/Lexer2.java:197-212 | `-` and the longest digit run after it are an INTEGER of the negated value when the value is at least -2^63; otherwise a NumberFormatException with the cursor still on the `-` |
| Lexer2Scan.ScanOperatorChar | src/main/java/hr/fer/zemris/java/custom/scripting/lexer/Lexer2.java:197-217 | any other operator, or a `-` not before a digit, is an OPERATOR token of that character and the cursor moves one on |
| Lexer2Scan.ScanTag | src/main/java/hr/fer/zemris/java/custom/scripting/lexer/Lexer2.java:111-222 | TAG mode: EOF exactly at the end, otherwise a well-formed tag token with the cursor moved past it |
| Lexer2Scan.ScanTagDispatch | src/main/java/hr/fer/zemris/java/custom/scripting/lexer/Lexer2.java:121-221 | after the skipped whitespace: only whitespace up to the end is an index error, a special character is its own token, a letter, digit, quote or operator starts its branch, and any other character is an invalid symbol, with the cursor left on it |
| Lexer2Scan.Step | src/main/java/hr/fer/zemris/java/custom/scripting/lexer/Lexer2.java:65-72 | nextToken throws after EOF and changes nothing; otherwise it keeps data and mode and sets the token exactly when it does not throw |
| Lexer2Scan.Next | src/main/java/hr/fer/zemris/java/custom/scripting/lexer/Lexer2.java:65-72 | every token that nextToken returns is well formed for its mode, and each call makes progress: the cursor moves forward, or the token becomes EOF |
| Lexer2Scan.NextAfterText | src/main/java/hr/fer/zemris/java/custom/scripting/lexer/Lexer2.java:82-92 | in TEXT mode, a text is always followed by `{` or EOF |
| Chars.SkipWs | src/main/java/hr/fer/zemris/java/custom/scripting/lexer/Lexer2.java:279-287 | skipWhitespaces stops at the first character that is not whitespace, or at the end |
| Chars.SkipWsUnique | src/main/java/hr/fer/zemris/java/custom/scripting/lexer/Lexer2.java:279-287 | the position after a run of whitespace is the only place skipWhitespaces can stop |
| Chars.DigitsEnd | src/main/java/hr/fer/zemris/java/custom/scripting/lexer/Lexer2.java:150-152 | the digit loop stops at the first position that is not a digit |
| Chars.UpperCase | src/main/java/hr/fer/zemris/java/custom/scripting/parser/SmartScriptParser.java:115 | toUpperCase keeps the length and maps every character |
| Longs.ParseLong | src/main/java/hr/fer/zemris/java/custom/scripting/lexer/Lexer2.java:166-170 | Long.parseLong of ASCII text: a value is returned only when the first character is a digit or a sign, every later character is a digit, and the value is in the long range |
| Longs.LongToStringRoundTrip | src/main/java/hr/fer/zemris/java/hw03/SmartScriptTester.java:172-174 | the decimal text of every long parses back to it |
| Lexer2Class.Lexer2.constructor | src/main/java/hr/fer/zemris/java/custom/scripting/lexer/Lexer2.java:43-49 | the new lexer is at index 0 in TEXT mode with no token, over a copy of the text |
| Lexer2Class.Lexer2.Create | src/main/java/hr/fer/zemris/java/custom/scripting/lexer/Lexer2.java:43-49 | a null text is refused (IllegalArgumentException), any other text gives the initial lexer |
| Lexer2Class.Lexer2.GetToken | src/main/java/hr/fer/zemris/java/custom/scripting/lexer/Lexer2.java:56-58 | returns the current token |
| Lexer2Class.Lexer2.GetState | src/main/java/hr/fer/zemris/java/custom/scripting/lexer/Lexer2.java:304-306 | returns the current mode |
| Lexer2Class.Lexer2.SetState | src/main/java/hr/fer/zemris/java/custom/scripting/lexer/Lexer2.java:271-273 | changes the mode and nothing else |
| Lexer2Class.Lexer2.NextToken | src/main/java/hr/fer/zemris/java/custom/scripting/lexer/Lexer2.java:65-72 | result and new fields are those of Step on the old fields |
| Lexer2Class.Lexer2.SetCurrentTokenText | src/main/java/hr/fer/zemris/java/custom/scripting/lexer/Lexer2.java:77-106 | in TEXT mode, result and new fields are those of Step |
| Lexer2Class.Lexer2.SetTextToken | src/main/java/hr/fer/zemris/java/custom/scripting/lexer/Lexer2.java:94-105 | the text loop leaves the token and cursor of ScanText |
| Lexer2Class.Lexer2.SetCurrentTokenTag | src/main/java/hr/fer/zemris/java/custom/scripting/lexer/Lexer2.java:111-222 | in TAG mode, result and new fields are those of Step |
| Lexer2Class.Lexer2.SetWordToken | src/main/java/hr/fer/zemris/java/custom/scripting/lexer/Lexer2.java:131-145 | the name branch leaves the token and cursor of ScanName |
| Lexer2Class.Lexer2.SetNumberToken | src/main/java/hr/fer/zemris/java/custom/scripting/lexer/Lexer2.java:147-171 | the number branch leaves the token and cursor of ScanNumber |
| Lexer2Class.Lexer2.SetDoubleToken | src/main/java/hr/fer/zemris/java/custom/scripting/lexer/Lexer2.java:154-164 | after the integer digits and a `.`, the fraction loop gives ScanNumber's DOUBLE |
| Lexer2Class.Lexer2.SetQuotedToken | src/main/java/hr/fer/zemris/java/custom/scripting/lexer/Lexer2.java:174-195 | the quoted-string branch leaves the token and cursor of ScanQuoted |
| Lexer2Class.Lexer2.SetOperatorToken | src/main/java/hr/fer/zemris/java/custom/scripting/lexer/Lexer2.java:197-218 | the operator branch leaves the token and cursor of ScanOperator |
| Lexer2Class.Lexer2.SkipWhitespaces | src/main/java/hr/fer/zemris/java/custom/scripting/lexer/Lexer2.java:279-287 | moves the cursor to SkipWs and changes nothing else |
| Nodes.AddChildNode | src/main/java/hr/fer/zemris/java/custom/scripting/parser/SmartScriptParser.java:90-91 | the child is appended last to the container's children, and the node keeps its kind |
| ParserSpec.AttachTop | src/main/java/hr/fer/zemris/java/custom/scripting/parser/SmartScriptParser.java:88-93 | the child is appended to the top of the stack; the rest of the stack is untouched |
| ParserSpec.CloseTop | src/main/java/hr/fer/zemris/java/custom/scripting/parser/SmartScriptParser.java:145-150 | pop shrinks the stack by one and keeps it a document node under FOR nodes |
| ParserSpec.CloseTopAttaches | src/main/java/hr/fer/zemris/java/custom/scripting/parser/SmartScriptParser.java:145-150 | with a FOR node on top, pop leaves the nodes below unchanged except that the container under it gains the FOR node as its last child |
| ParserSpec.NextP | src/main/java/hr/fer/zemris/java/custom/scripting/parser/SmartScriptParser.java:105-112 | a lexer exception ends the parse; otherwise the token is well formed and the lexer makes progress |
| ParserSpec.ForLoopInteger | src/main/java/hr/fer/zemris/java/custom/scripting/parser/SmartScriptParser.java:204-223 | a bound is accepted exactly when it is a Long or a String that Long.parseLong accepts; otherwise MalformedFor |
| ParserSpec.ForLoopNodeSpec | src/main/java/hr/fer/zemris/java/custom/scripting/parser/SmartScriptParser.java:175-197 | a FOR header needs a VAR and three long bounds and ends on `}`; the node has no children |
| ParserSpec.ForLoopNodeTokens | src/main/java/hr/fer/zemris/java/custom/scripting/parser/SmartScriptParser.java:175-197 | a header that is read: its start, end and step are getForLoopInteger of the three tokens after the VAR, read one by one, followed by `$` and then the `}` where the lexer stops |
| ParserSpec.EchoStepCases | src/main/java/hr/fer/zemris/java/custom/scripting/parser/SmartScriptParser.java:234-295 | one turn of the echo loop: an unaccepted token kind is MalformedEcho; a lexer exception passes through; a VAR, number, string or operator becomes the element of its value; `@` needs a VAR and names the function by it, else MalformedFunction; `$` closes the tag exactly when `}` follows, else MalformedEcho |
| ParserSpec.EchoLoopCollects | src/main/java/hr/fer/zemris/java/custom/scripting/parser/SmartScriptParser.java:234-295 | the echo loop puts the elements already collected before exactly the elements getEchoNode reads from the same token, and fails as getEchoNode fails |
| ParserSpec.EchoNodeSteps | src/main/java/hr/fer/zemris/java/custom/scripting/parser/SmartScriptParser.java:231-299 | getEchoNode element by element: `$}` gives no elements, an element comes before those of the rest of the tag, and a failing turn fails the tag |
| ParserSpec.AfterTag | src/main/java/hr/fer/zemris/java/custom/scripting/parser/SmartScriptParser.java:157-158 | after a tag, TEXT mode and the rest of the loop; an empty stack cannot succeed |
| ParserSpec.AfterText | src/main/java/hr/fer/zemris/java/custom/scripting/parser/SmartScriptParser.java:96-97 | after a text, the next token, with TAG mode on `{` |
| ParserSpec.TextStep | src/main/java/hr/fer/zemris/java/custom/scripting/parser/SmartScriptParser.java:82-97 | TEXT mode needs a TEXT token and a non-empty stack |
| ParseSteps.ForTagFrom | src/main/java/hr/fer/zemris/java/custom/scripting/parser/SmartScriptParser.java:115-126 | when FOR is followed by a valid FOR header read as node p, the tag pushes p onto the stack and the parse continues after the tag |
| ParseSteps.EchoTagFrom | src/main/java/hr/fer/zemris/java/custom/scripting/parser/SmartScriptParser.java:127-137 | when `=` starts a valid echo body read as node p, p becomes the last child of the top container and the parse continues after the tag |
| ParserSpec.EndTagRejects | src/main/java/hr/fer/zemris/java/custom/scripting/parser/SmartScriptParser.java:138-151 | after END: a token other than `$` is an invalid END tag, and so is a token other than `}` after the `$`; a lexer failure ends the parse; after `$}` an empty stack fails and otherwise the top node is popped into its parent |
| ParserSpec.TagStepRejects | src/main/java/hr/fer/zemris/java/custom/scripting/parser/SmartScriptParser.java:105-112 | a tag not opening with `{` is invalid, and so is one whose `{` is not followed by `$`; a lexer failure ends the parse; after `{$` the next token is the tag head |
| ParserSpec.TagBodyRejects | src/main/java/hr/fer/zemris/java/custom/scripting/parser/SmartScriptParser.java:113-155 | a head without a string value fails with a null value; FOR in any case is a FOR tag, `=` an echo tag, END in any case an END tag, and any other head is an invalid tag |
| ParserSpec.ParseLoop | src/main/java/hr/fer/zemris/java/custom/scripting/parser/SmartScriptParser.java:76-164 | a success is a document node, and a loop with no node on the stack cannot succeed |
| ParserSpec.ParseLoopEof | src/main/java/hr/fer/zemris/java/custom/scripting/parser/SmartScriptParser.java:162-166 | at EOF the parse succeeds exactly when only the document node is left, and then returns it; otherwise it is Unbalanced |
| ParserSpec.ParseDocument | src/main/java/hr/fer/zemris/java/custom/scripting/parser/SmartScriptParser.java:57-64 | a null document is refused; a successful parse is a document node |
| ParserImage.ParseDocumentImage | src/main/java/hr/fer/zemris/java/custom/scripting/parser/SmartScriptParser.java:71-167 | every tree the parser builds is a valid document: texts, echo elements and FOR headers of the shapes the lexer produces |
| ParserClass.SmartScriptParser.Init | src/main/java/hr/fer/zemris/java/custom/scripting/parser/SmartScriptParser.java:61-62 | the parser holds the document and a fresh lexer over it, with an empty stack |
| ParserClass.SmartScriptParser.New | src/main/java/hr/fer/zemris/java/custom/scripting/parser/SmartScriptParser.java:57-64 | construction succeeds exactly when ParseDocument does, with its tree, or fails with its error |
| ParserClass.SmartScriptParser.GetDocumentNode | src/main/java/hr/fer/zemris/java/custom/scripting/parser/SmartScriptParser.java:343-345 | returns the tree built at construction |
| ParserClass.SmartScriptParser.NextToken | src/main/java/hr/fer/zemris/java/custom/scripting/parser/SmartScriptParser.java:107-112 | one nextToken of the lexer, as NextP |
| ParserClass.SmartScriptParser.IsTokenOfType | src/main/java/hr/fer/zemris/java/custom/scripting/parser/SmartScriptParser.java:334-336 | true exactly when the current token has that type |
| ParserClass.SmartScriptParser.GetTextNode | src/main/java/hr/fer/zemris/java/custom/scripting/parser/SmartScriptParser.java:323-326 | a text node that holds the current token's string |
| ParserClass.SmartScriptParser.GetForLoopInteger | src/main/java/hr/fer/zemris/java/custom/scripting/parser/SmartScriptParser.java:204-223 | the result of ForLoopInteger on the current token |
| ParserClass.SmartScriptParser.GetForLoopNode | src/main/java/hr/fer/zemris/java/custom/scripting/parser/SmartScriptParser.java:175-197 | node and lexer state are those of ForLoopNodeSpec |
| ParserClass.SmartScriptParser.FillElement | src/main/java/hr/fer/zemris/java/custom/scripting/parser/SmartScriptParser.java:308-316 | a new array holding the collected elements in order |
| ParserClass.SmartScriptParser.GetEchoNode | src/main/java/hr/fer/zemris/java/custom/scripting/parser/SmartScriptParser.java:231-299 | node and lexer state are those of EchoNodeSpec |
| ParserClass.SmartScriptParser.ParseText | src/main/java/hr/fer/zemris/java/custom/scripting/parser/SmartScriptParser.java:82-97 | this turn of the loop computes TextStep: its error, or the state the rest of the loop continues from |
| ParserClass.SmartScriptParser.ParseForTag | src/main/java/hr/fer/zemris/java/custom/scripting/parser/SmartScriptParser.java:115-126 | the FOR branch computes ForTag |
| ParserClass.SmartScriptParser.ParseEchoTag | src/main/java/hr/fer/zemris/java/custom/scripting/parser/SmartScriptParser.java:127-137 | the echo branch computes EchoTag |
| ParserClass.SmartScriptParser.ParseEndTag | src/main/java/hr/fer/zemris/java/custom/scripting/parser/SmartScriptParser.java:138-151 | the END branch computes EndTag |
| ParserClass.SmartScriptParser.ParseTagBody | src/main/java/hr/fer/zemris/java/custom/scripting/parser/SmartScriptParser.java:113-155 | the choice of tag computes TagBody |
| ParserClass.SmartScriptParser.ParseTag | src/main/java/hr/fer/zemris/java/custom/scripting/parser/SmartScriptParser.java:103-158 | a turn of the loop in TAG mode computes TagStep |
| ParserClass.SmartScriptParser.Parse | src/main/java/hr/fer/zemris/java/custom/scripting/parser/SmartScriptParser.java:71-167 | parse() returns exactly ParseDocument of the document |
| Serializer.ChildrenTextAppend | src/main/java/hr/fer/zemris/java/hw03/SmartScriptTester.java:114-125 | the text of a list of children is the texts of its parts, in order |
| Serializer.DocumentBody | src/main/java/hr/fer/zemris/java/hw03/SmartScriptTester.java:101-111 | null, a node that is not a container and a container without children all give the empty text |
| RoundTrip.ElementRead | src/main/java/hr/fer/zemris/java/hw03/SmartScriptTester.java:164-181 | the text getEchoText writes for a valid element, with the spaces around it, is read back by the lexer and the echo loop as that same element |
| RoundTrip.EchoPiece | src/main/java/hr/fer/zemris/java/hw03/SmartScriptTester.java:150-184 | the text getEchoText writes for valid elements parses back, where a tag is expected, to an echo node of those elements |
| ForPieces.ForHeaderPiece | src/main/java/hr/fer/zemris/java/hw03/SmartScriptTester.java:135-142 | the text getForLoopText writes for a valid header parses back to a FOR node with that variable and those bounds, pushed on the stack |
| DocumentRoundTrip.ChildPiece | src/main/java/hr/fer/zemris/java/hw03/SmartScriptTester.java:114-125 | the text written for one valid child parses back to that child, added to the container on top of the stack |
| DocumentRoundTrip.ChildrenPieces | src/main/java/hr/fer/zemris/java/hw03/SmartScriptTester.java:114-125 | the text written for a list of valid children parses back to those children, in order, added to the container on top of the stack |
| DocumentRoundTrip.ParseSerialized | src/main/java/hr/fer/zemris/java/hw03/SmartScriptTester.java:101-127 | every valid tree, serialized by createOriginalDocumentBody, parses back to the same tree |
| DocumentFacts.SerializeStable | src/test/java/hr/fer/zemris/java/custom/scripting/parser/SmartScriptParserTest.java:21-32 | parse, serialize, parse, serialize gives the same text as the first serialization, and the same tree |
| DocumentFacts.PlainText | src/main/java/hr/fer/zemris/java/custom/scripting/parser/SmartScriptParser.java:82-97 | a document without tags is one text node holding it |
| DocumentFacts.EmptyText | src/main/java/hr/fer/zemris/java/custom/scripting/parser/SmartScriptParser.java:76-79 | the empty document is a document node with no children |
| DocumentFacts.LeadingTag | src/main/java/hr/fer/zemris/java/custom/scripting/parser/SmartScriptParser.java:82-84 | a document that starts with `{` is rejected: TEXT mode wants a TEXT token |
| DocumentFacts.TagAfterTag | src/main/java/hr/fer/zemris/java/custom/scripting/parser/SmartScriptParser.java:82-84 | valid children ending on a tag (or none) and then `{`: the second tag is rejected because a TEXT token is expected |
| DocumentFacts.TextMissing | src/main/java/hr/fer/zemris/java/custom/scripting/parser/SmartScriptParser.java:82-84 | where a text is due (at the start or right after a tag), a `{` at any position of the input, with any stack, is rejected because a TEXT token is expected |
| DocumentFacts.EndUnbalanced | src/main/java/hr/fer/zemris/java/custom/scripting/parser/SmartScriptParser.java:162-164 | reaching the end of the input with more than one node on the stack fails as Unbalanced |
| DocumentFacts.UnclosedFor | src/main/java/hr/fer/zemris/java/custom/scripting/parser/SmartScriptParser.java:115-164 | valid children ending on a text, a FOR header and the children of its body, with no `{$END$}`: the parse fails as Unbalanced |
| Prob1Scan.WordLoop | src/main/java/hr/fer/zemris/java/hw03/prob1/Lexer.java:84-98 | the word loop stops inside the input and keeps the array's length; it throws only on a backslash |
| Prob1Scan.WordLoopFrame | src/main/java/hr/fer/zemris/java/hw03/prob1/Lexer.java:84-98 | the word loop only overwrites backslashes with spaces, and only inside the run it reads |
| Prob1Scan.WordLoopMeaning | src/main/java/hr/fer/zemris/java/hw03/prob1/Lexer.java:84-99 | the loop reads the longest run of letters and escape pairs; it throws exactly at a backslash that is last or comes before a letter; without spaces, the overwritten run equals the unescaped run |
| Prob1Scan.RemoveSpaces | src/main/java/hr/fer/zemris/java/hw03/prob1/Lexer.java:99 | replace(" ", "") leaves no space and never lengthens |
| Prob1Scan.RemoveSpacesNone | src/main/java/hr/fer/zemris/java/hw03/prob1/Lexer.java:99 | replace(" ", "") changes nothing in a string without spaces |
| Prob1Scan.ScanWord | src/main/java/hr/fer/zemris/java/hw03/prob1/Lexer.java:82-101 | the word branch keeps the array's length and moves the cursor forward within the input |
| Prob1Scan.ScanNumber | src/main/java/hr/fer/zemris/java/hw03/prob1/Lexer.java:105-120 | the number branch leaves the array alone and moves the cursor forward within the input |
| Prob1Scan.ScanBasic | src/main/java/hr/fer/zemris/java/hw03/prob1/Lexer.java:74-125 | BASIC mode keeps the array's length and the cursor within the input |
| Prob1Scan.WordEnd | src/main/java/hr/fer/zemris/java/hw03/prob1/Lexer.java:143-145 | the inner loop stops at the first whitespace or `#`, or at the end |
| Prob1Scan.ScanExtended | src/main/java/hr/fer/zemris/java/hw03/prob1/Lexer.java:141-166 | EXTENDED mode leaves the array alone and the cursor within the input |
| Prob1Scan.ExtendedMeaning | src/main/java/hr/fer/zemris/java/hw03/prob1/Lexer.java:141-166 | the outer loop equals a definition without a loop: skip whitespace, then EOF, `#`, or one word and one more character |
| Prob1Scan.ExtendedShape | src/main/java/hr/fer/zemris/java/hw03/prob1/Lexer.java:131-167 | EXTENDED mode never throws; its words are non-empty with no whitespace or `#`; the cursor moves unless the token is EOF at the end |
| Prob1Scan.Step | src/main/java/hr/fer/zemris/java/hw03/prob1/Lexer.java:48-55 | nextToken throws after EOF and changes nothing there; it keeps the mode and sets the token exactly when it does not throw |
| Prob1Scan.StepProgress | src/main/java/hr/fer/zemris/java/hw03/prob1/Lexer.java:69-167 | every call rewrites only backslashes to spaces, and only in BASIC mode; a success moves the cursor forward or gives EOF at the end |
| Prob1Scan.BasicWord | src/main/java/hr/fer/zemris/java/hw03/prob1/Lexer.java:82-101 | a BASIC word is the longest escaped run, unescaped and without spaces; InvalidEscape exactly at a backslash that is last or comes before a letter |
| Prob1Scan.EscapedSpaceMeant | src/main/java/hr/fer/zemris/java/hw03/prob1/Lexer.java:88-93 | the input `a\ b` escapes a space: it stands for `a b` |
| Prob1Scan.EscapedSpaceLoop | src/main/java/hr/fer/zemris/java/hw03/prob1/Lexer.java:84-98 | on `a\ b` the word loop overwrites the backslash with a space and reads to the end |
| Prob1Scan.EscapedSpaceDropped | src/main/java/hr/fer/zemris/java/hw03/prob1/Lexer.java:92-99 | the word read from `a\ b` is `ab`: the escaped space is removed |
| Prob1Scan.BasicNumber | src/main/java/hr/fer/zemris/java/hw03/prob1/Lexer.java:105-120 | a BASIC number is the longest digit run; it is a NUMBER with its value exactly when that fits in a long, and NumberTooBig otherwise |
| Prob1Scan.BasicSymbol | src/main/java/hr/fer/zemris/java/hw03/prob1/Lexer.java:122-125 | any other character is one SYMBOL and the cursor moves past it |
| Prob1Scan.BasicEof | src/main/java/hr/fer/zemris/java/hw03/prob1/Lexer.java:74-79 | when only whitespace is left, the token is EOF and the cursor is at the end |
| Prob1Class.Lexer.constructor | src/main/java/hr/fer/zemris/java/hw03/prob1/Lexer.java:35-41 | the new lexer is at index 0 in BASIC mode with no token, over a copy of the text |
| Prob1Class.Lexer.Create | src/main/java/hr/fer/zemris/java/hw03/prob1/Lexer.java:35-41 | a null text is refused (IllegalArgumentException), any other text gives the initial lexer |
| Prob1Class.Lexer.GetToken | src/main/java/hr/fer/zemris/java/hw03/prob1/Lexer.java:62-64 | returns the current token |
| Prob1Class.Lexer.GetState | src/main/java/hr/fer/zemris/java/hw03/prob1/Lexer.java:211-213 | returns the current mode |
| Prob1Class.Lexer.SetState | src/main/java/hr/fer/zemris/java/hw03/prob1/Lexer.java:200-204 | a null state is refused and changes nothing; any other state becomes the mode |
| Prob1Class.Lexer.NextToken | src/main/java/hr/fer/zemris/java/hw03/prob1/Lexer.java:48-55 | result and new fields, the char array included, are those of Step on the old fields |
| Prob1Class.Lexer.SetCurrentToken | src/main/java/hr/fer/zemris/java/hw03/prob1/Lexer.java:69-126 | in BASIC mode, result and new fields are those of Step |
| Prob1Class.Lexer.SetWordToken | src/main/java/hr/fer/zemris/java/hw03/prob1/Lexer.java:82-101 | the word branch leaves the token, array and cursor of ScanWord |
| Prob1Class.Lexer.RunWordLoop | src/main/java/hr/fer/zemris/java/hw03/prob1/Lexer.java:84-98 | the loop leaves the array, cursor and outcome of WordLoop |
| Prob1Class.Lexer.EscapeStep | src/main/java/hr/fer/zemris/java/hw03/prob1/Lexer.java:88-93 | an escape pair overwrites its backslash with a space, and the rest of the loop stays the same |
| Prob1Class.Lexer.SetNumberToken | src/main/java/hr/fer/zemris/java/hw03/prob1/Lexer.java:105-120 | the number branch leaves the token and cursor of ScanNumber |
| Prob1Class.Lexer.SetCurrentTokenExtendedMode | src/main/java/hr/fer/zemris/java/hw03/prob1/Lexer.java:131-167 | in EXTENDED mode, result and new fields are those of Step |
| Prob1Class.Lexer.SetExtendedToken | src/main/java/hr/fer/zemris/java/hw03/prob1/Lexer.java:141-166 | the outer loop leaves the token and cursor of ScanExtended and never throws |
| Prob1Class.Lexer.SkipWordChars | src/main/java/hr/fer/zemris/java/hw03/prob1/Lexer.java:143-145 | the inner loop moves the cursor to WordEnd and changes nothing else |
| Prob1Class.Lexer.SkipWhitespaces | src/main/java/hr/fer/zemris/java/hw03/prob1/Lexer.java:173-183 | moves the cursor to SkipWs and changes nothing else |

The rest of the lemmas are steps of the proofs above and need no row of
their own. They live in:

- `Relex`: one nextToken at a given position of a document;
- `Retokens`, `ForPieces` and `RoundTrip`: the tokens of each serialized
  piece;
- `ParseSteps`: unfolding single turns of the parse loop;
- `ParserImage`: the invariant that the loop keeps the stack well formed.

## Left out

- The main method of `SmartScriptTester`, and its reading of a file, are
  I/O.
- Double.parseDouble and Double.toString are not modelled. A DOUBLE token
  and an `ElementConstantDouble` keep the lexeme they were read from, and
  the serializer writes that lexeme back. Java would print the number
  normalised (`1.50` as `1.5`), and from 10^7 up in exponent form:
  `{$= 10000000.0 $}` would serialize as `1.0E7`, which the lexer reads
  back as DOUBLE `1.0` and then VAR `E7`. So in Java the parse, serialize,
  parse round trip does not hold for such numbers; in the model, which
  keeps the lexeme, it does.
- Character.isLetter, Character.isDigit and toUpperCase are ASCII only.
- Longs.ParseLong: accepts ASCII digits only. Java's Long.parseLong reads
  every digit through Character.digit, so it also accepts the other Unicode
  decimal digits (Arabic-Indic, fullwidth and so on). With the ASCII-only
  isDigit above, the lexers never hand it such a digit; only a FOR bound
  given as a quoted string could hold one, and the model rejects it.
- The keyword collection that initLexer fills is the constant set
  {FOR, END}. The Java collection is static and gains another FOR and END
  with every lexer, which does not change what `contains` answers.
- Exception classes and messages are collapsed into the constructors of
  `LexError` and `ParseError`.
- ObjectStack, ArrayIndexedCollection and the Node and Element classes are
  not part of this model; they appear only as sequences and datatypes.
- The parser's stack holds nodes by value.
  - Java adds a FOR node to its parent when the tag is read and pushes a
    reference to it. The model adds the node to its parent when END pops
    it.
  - Nothing touches the parent while the FOR node is open, so a successful
    parse builds the same tree.
  - A FOR node still open when the input ends is not in the partial tree.
    That tree is never returned, because the parse fails as Unbalanced.
- Java's `int` cursor and `long` arithmetic do not overflow here: inputs are
  shorter than 2^31 characters. Long.parseLong's range is modelled
  explicitly.
- What a lexer holds after it has thrown is modelled as the cursor where the
  exception left it, and the old token. No caller goes on using a lexer
  after an exception.
- Lexer2.isOperator, isWhitespace and getTypeFromSpecialSymbols are
  predicates or a small function. SpecialKind is the only one of them with
  a row.
- The prob1 escaped-space behaviour is modelled as written, and its effect
  is stated in Prob1Scan.EscapedSpaceDropped. An escaped space disappears
  from the word because the backslash becomes a space before all spaces are
  removed.
- Lexer2Class.Lexer2.SetState: does not accept null. Lexer2's setState has
  no null check, and with a null state nextToken would scan in TAG mode; the
  parser never passes null.
