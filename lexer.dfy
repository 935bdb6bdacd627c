/** The renderer's scene-file lexer (`src/scene/lexer.rs`).

    The specification half of this module describes lexing as functions of
    an index into the input: `BlankEnd` (spaces and `#` comments),
    `ScanHereAt` (one token at an index), `ScanTokenAt` (both), `ListAt`
    (the items of a `[ ... ]` list) and `LexFrom` (the rest of a file).
    A scan reports the index the lexer stands on afterwards; because the
    source reads one extra character after a quoted string and after a
    list, that index can lie one past the end of the input.

    The imperative half is the `Lexer` class: its methods move a cursor
    over the input as the source does and are proved to agree with those
    functions. The source loops forever on a comment or a quoted string
    that is never closed; the model reports those as errors. */
module SceneLexer {
  import opened Wrappers
  import opened Strings

  /** The lexer's own token kinds. */
  datatype ParserToken =
    | Illegal
    | EOF
    | RightBracket
    | PWorldBegin
    | PAttributeBegin
    | PAttributeEnd
    | PKeyword(word: string)
    | PNumber(number: string)
    | PString(text: string)
    | PVariable(typeName: string, name: string)
    | PList(items: seq<string>)

  /** The tokens handed to the scene builder. */
  datatype Token =
    | AttributeBegin
    | AttributeEnd
    | WorldBegin
    | Keyword(word: string)
    | Number(number: string)
    | String(text: string)
    | Bool(value: bool)
    | Variable(typeName: string, name: string)
    | List(items: seq<string>)

  /** Why lexing stops: the source panics (or, for the first two, never
      returns). */
  datatype LexError =
    | CommentNeverEnds
    | UnterminatedString
    | MalformedQuoted(content: string)
    | UnexpectedInList(token: ParserToken)
    | IllegalChar
    | CannotConvert(token: ParserToken)
    | FileNotFound(path: string)
    | NotText(value: Token)
    | NotAFloat(value: Token)

  predicate IsLexSpace(c: char)
  {
    c == ' ' || c == '\t' || c == '\n' || c == '\r'
  }

  /** `is_letter`. */
  predicate IsLetter(c: char)
  {
    ('a' <= c <= 'z') || ('A' <= c <= 'Z') || c == '_'
  }

  /** `is_digit`. */
  predicate IsDigit(c: char)
  {
    '0' <= c <= '9'
  }

  /** A character `read_number` keeps reading. */
  predicate IsNumberChar(c: char)
  {
    c == '-' || c == '.' || IsDigit(c)
  }

  // ---------------------------------------------------------------------
  // The tokens the lexer can produce

  /** The identifiers `parse_identifier` does not turn into keywords. */
  predicate Reserved(w: string)
  {
    w == "WorldBegin" || w == "AttributeBegin" || w == "AttributeEnd" || w == "false" || w == "true"
  }

  predicate IsWord(w: string)
  {
    |w| > 0 && forall k :: 0 <= k < |w| ==> IsLetter(w[k])
  }

  predicate IsNumberText(w: string)
  {
    |w| > 0 && (w[0] == '-' || IsDigit(w[0])) && forall k :: 0 <= k < |w| ==> IsNumberChar(w[k])
  }

  /** Text that can stand between quotes as a single item. */
  predicate IsPlainText(s: string)
  {
    forall k :: 0 <= k < |s| ==> s[k] != '"' && s[k] != ' '
  }

  /** The tokens a successful scan can yield, each with the shape of the
      text it was read from. */
  predicate Printable(t: ParserToken)
  {
    match t
    case Illegal => false
    case EOF => false
    case PKeyword(w) => IsWord(w) && !Reserved(w)
    case PNumber(n) => IsNumberText(n)
    case PString(s) => IsPlainText(s)
    case PVariable(a, b) => IsPlainText(a) && IsPlainText(b)
    case PList(items) => forall i :: 0 <= i < |items| ==> IsPlainText(items[i])
    case _ => true
  }

  /** `parse_identifier`: three section words, the two booleans (kept as
      text) and otherwise a keyword. */
  function ParseIdentifier(identifier: string): (r: ParserToken)
    ensures r.PKeyword? <==> !Reserved(identifier)
    ensures r.PKeyword? ==> r.word == identifier
    ensures r.PString? ==> r.text == identifier
    ensures r.PString? || r.PKeyword? || r.PWorldBegin? || r.PAttributeBegin? || r.PAttributeEnd?
  {
    if identifier == "WorldBegin" then PWorldBegin
    else if identifier == "AttributeBegin" then PAttributeBegin
    else if identifier == "AttributeEnd" then PAttributeEnd
    else if identifier == "false" || identifier == "true" then PString(identifier)
    else PKeyword(identifier)
  }

  /** The text a token spells when written back without quotes. */
  function IdentifierText(t: ParserToken): string
  {
    match t
    case PWorldBegin => "WorldBegin"
    case PAttributeBegin => "AttributeBegin"
    case PAttributeEnd => "AttributeEnd"
    case PString(s) => s
    case PKeyword(w) => w
    case _ => ""
  }

  /** `parse_identifier` loses nothing: the identifier can be read back from
      the token, and a token read back and parsed again is the same token. */
  lemma ParseIdentifierInverse(identifier: string, t: ParserToken)
    ensures IdentifierText(ParseIdentifier(identifier)) == identifier
    ensures (t.PKeyword? && !Reserved(t.word)) || t.PWorldBegin? || t.PAttributeBegin? || t.PAttributeEnd?
            || t == PString("true") || t == PString("false")
            ==> ParseIdentifier(IdentifierText(t)) == t
  {
  }

  /** The token for the text between two quotes (`read_quoted_string`): no
      space makes a string, one space a typed variable name, more than one
      fails the source's assertion. */
  function QuotedToken(content: string): Result<ParserToken, LexError>
  {
    if ' ' !in content then Ok(PString(content))
    else
      var parts := SplitOn(content, ' ');
      if |parts| == 2 then Ok(PVariable(parts[0], parts[1]))
      else Err(MalformedQuoted(content))
  }

  /** Without a space the content is a string; with exactly one it is a
      variable whose type and name are the two sides of that space; any
      other content is refused. */
  lemma QuotedTokenCases(content: string)
    ensures ' ' !in content ==> QuotedToken(content) == Ok(PString(content))
    ensures QuotedToken(content).Ok? ==> QuotedToken(content).value.PString? || QuotedToken(content).value.PVariable?
    ensures QuotedToken(content).Ok? && QuotedToken(content).value.PVariable? ==>
              var t := QuotedToken(content).value;
              content == t.typeName + [' '] + t.name && ' ' !in t.typeName && ' ' !in t.name
    ensures QuotedToken(content).Err? ==> ' ' in content && QuotedToken(content).error == MalformedQuoted(content)
  {
    if ' ' in content {
      var parts := SplitOn(content, ' ');
      if |parts| == 2 {
        SplitOnRoundTrip(content, ' ');
        SplitOnParts(content, ' ');
        assert ' ' !in parts[0] && ' ' !in parts[1];
        assert JoinWith(parts, ' ') == parts[0] + [' '] + parts[1];
      }
    }
  }

  /** A typed name in quotes is a variable exactly when it has one space. */
  lemma QuotedPair(a: string, b: string)
    requires ' ' !in a && ' ' !in b
    ensures QuotedToken(a + [' '] + b) == Ok(PVariable(a, b))
  {
    SplitOnPair(a, b, ' ');
  }

  // ---------------------------------------------------------------------
  // Lexing as functions of an index into the input

  /** The blank skipping of `next_token` as a machine over the input: from
      index `i`, inside a comment or not, the index of the next token's
      first character, or the error for a comment that never ends (where
      the source reads on forever). The line feed that ends a comment is
      itself a blank. */
  function BlankEnd(input: string, i: nat, inComment: bool): (r: Result<nat, LexError>)
    ensures r.Ok? ==> i <= r.value && (r.value <= |input| || r.value == i)
    ensures r.Ok? && r.value < |input| ==> !IsLexSpace(input[r.value]) && input[r.value] != '#'
    ensures r.Err? ==> r.error == CommentNeverEnds
    decreases |input| - i
  {
    if i >= |input| then (if inComment then Err(CommentNeverEnds) else Ok(i))
    else if inComment then BlankEnd(input, i + 1, input[i] != '\n')
    else if IsLexSpace(input[i]) then BlankEnd(input, i + 1, false)
    else if input[i] == '#' then BlankEnd(input, i + 1, true)
    else Ok(i)
  }

  /** The end of the run of letters and `_` that starts at `i`. */
  function IdentifierEnd(input: string, i: nat): (j: nat)
    ensures i <= j && (j <= |input| || j == i)
    ensures j < |input| ==> !IsLetter(input[j])
    decreases |input| - i
  {
    if i < |input| && IsLetter(input[i]) then IdentifierEnd(input, i + 1) else i
  }

  /** The end of the run of `-`, `.` and digits that starts at `i`. */
  function NumberEnd(input: string, i: nat): (j: nat)
    ensures i <= j && (j <= |input| || j == i)
    ensures j < |input| ==> !IsNumberChar(input[j])
    decreases |input| - i
  {
    if i < |input| && IsNumberChar(input[i]) then NumberEnd(input, i + 1) else i
  }

  /** The index of the first `c` at or after `i`. */
  function FindFrom(input: string, i: nat, c: char): (r: Option<nat>)
    ensures r.Some? ==> i <= r.value < |input| && input[r.value] == c
    decreases |input| - i
  {
    if i >= |input| then None
    else if input[i] == c then Some(i)
    else FindFrom(input, i + 1, c)
  }

  /** A token and the index of the character the lexer stands on after it. */
  datatype Scan = Scan(token: ParserToken, next: nat)

  /** The items of a list and the index the lexer stands on after its `]`. */
  datatype ListScan = ListScan(items: seq<string>, next: nat)

  /** `next_token` started with the cursor on index `i`: skip blanks, then
      scan one token. */
  function ScanTokenAt(input: string, i: nat): (r: Result<Scan, LexError>)
    requires i <= |input| + 1
    ensures r.Ok? ==> i <= r.value.next <= |input| + 2
    ensures r.Ok? && r.value.token != EOF ==> r.value.next <= |input| + 1
    ensures r.Ok? && r.value.token != EOF && r.value.token != Illegal ==> i < r.value.next
    ensures r.Ok? && (r.value.token.RightBracket? || r.value.token.PNumber?) ==> r.value.next <= |input|
    decreases |input| + 2 - i, 1
  {
    match BlankEnd(input, i, false)
    case Err(e) => Err(e)
    case Ok(b) => ScanHereAt(input, b)
  }

  /** The token whose first character is at index `i` (the `match` of
      `next_token`). After `EOF`, `]`, a quoted string and a list the
      source reads one more character, so that a quoted string or a list
      also passes over the character right after it. */
  function ScanHereAt(input: string, i: nat): (r: Result<Scan, LexError>)
    requires i <= |input| + 1
    ensures r.Ok? ==> i <= r.value.next <= |input| + 2
    ensures r.Ok? && r.value.token != EOF ==> r.value.next <= |input| + 1
    ensures r.Ok? && r.value.token != EOF && r.value.token != Illegal ==> i < r.value.next
    ensures r.Ok? && (r.value.token.RightBracket? || r.value.token.PNumber?) ==> r.value.next <= |input|
    decreases |input| + 2 - i, 0
  {
    if i >= |input| then Ok(Scan(EOF, i + 1))
    else if input[i] == '"' then
      match FindFrom(input, i + 1, '"')
      case None => Err(UnterminatedString)
      case Some(j) =>
        match QuotedToken(input[i + 1..j])
        case Err(err) => Err(err)
        case Ok(token) => Ok(Scan(token, j + 2))
    else if input[i] == '[' then
      match ListAt(input, i + 1)
      case Err(err) => Err(err)
      case Ok(list) => Ok(Scan(PList(list.items), list.next + 1))
    else if input[i] == ']' then Ok(Scan(RightBracket, i + 1))
    else if IsLetter(input[i]) then
      var j := IdentifierEnd(input, i);
      Ok(Scan(ParseIdentifier(input[i..j]), j))
    else if input[i] == '-' || IsDigit(input[i]) then
      var j := NumberEnd(input, i);
      Ok(Scan(PNumber(input[i..j]), j))
    else Ok(Scan(Illegal, i))
  }

  /** `read_list` with the cursor on index `i`, just after the `[`: the
      strings and numbers up to the `]`; any other token is refused. */
  function ListAt(input: string, i: nat): (r: Result<ListScan, LexError>)
    requires i <= |input| + 1
    ensures r.Ok? ==> i < r.value.next <= |input|
    decreases |input| + 2 - i, 2
  {
    match ScanTokenAt(input, i)
    case Err(e) => Err(e)
    case Ok(s) =>
      if s.token.RightBracket? then Ok(ListScan([], s.next))
      else if s.token.PNumber? || s.token.PString? then
        match ListAt(input, s.next)
        case Err(e) => Err(e)
        case Ok(rest) => Ok(ListScan([ItemText(s.token)] + rest.items, rest.next))
      else Err(UnexpectedInList(s.token))
  }

  /** The text `read_list` keeps of a number or a string. */
  function ItemText(t: ParserToken): (s: string)
    requires t.PNumber? || t.PString?
    ensures Printable(t) ==> IsPlainText(s)
  {
    if t.PNumber? then t.number else t.text
  }

  /** `parse_pbrt_into_token`'s loop from index `i`: the tokens up to the
      end of the input; an illegal character stops it. */
  function LexFrom(input: string, i: nat): Result<seq<ParserToken>, LexError>
    requires i <= |input| + 1
    decreases |input| + 2 - i
  {
    match ScanTokenAt(input, i)
    case Err(e) => Err(e)
    case Ok(s) =>
      if s.token == EOF then Ok([])
      else if s.token == Illegal then Err(IllegalChar)
      else
        match LexFrom(input, s.next)
        case Err(e) => Err(e)
        case Ok(rest) => Ok([s.token] + rest)
  }

  /** The lexer tokens of a whole text. */
  function LexAll(text: string): Result<seq<ParserToken>, LexError>
  {
    LexFrom(text, 0)
  }

  // ---------------------------------------------------------------------
  // The runs, searches and blanks the scans rely on

  /** Every character before `IdentifierEnd` is a letter. */
  lemma {:induction false} IdentifierRun(input: string, i: nat)
    ensures forall k :: i <= k < IdentifierEnd(input, i) ==> IsLetter(input[k])
    decreases |input| - i
  {
    if i < |input| && IsLetter(input[i]) {
      IdentifierRun(input, i + 1);
    }
  }

  /** Every character before `NumberEnd` is a number character. */
  lemma {:induction false} NumberRun(input: string, i: nat)
    ensures forall k :: i <= k < NumberEnd(input, i) ==> IsNumberChar(input[k])
    decreases |input| - i
  {
    if i < |input| && IsNumberChar(input[i]) {
      NumberRun(input, i + 1);
    }
  }

  /** A run of letters up to `j`, followed by the end or by another
      character, is what `IdentifierEnd` finds. */
  lemma {:induction false} IdentifierEndExact(input: string, i: nat, j: nat)
    requires i <= j <= |input| && (j == |input| || !IsLetter(input[j]))
    requires forall k :: i <= k < j ==> IsLetter(input[k])
    ensures IdentifierEnd(input, i) == j
    decreases j - i
  {
    if i < j {
      IdentifierEndExact(input, i + 1, j);
    }
  }

  /** The same for `NumberEnd`. */
  lemma {:induction false} NumberEndExact(input: string, i: nat, j: nat)
    requires i <= j <= |input| && (j == |input| || !IsNumberChar(input[j]))
    requires forall k :: i <= k < j ==> IsNumberChar(input[k])
    ensures NumberEnd(input, i) == j
    decreases j - i
  {
    if i < j {
      NumberEndExact(input, i + 1, j);
    }
  }

  /** `FindFrom` fails exactly when no `c` follows `i`, and otherwise finds
      the first one. */
  lemma {:induction false} FindFromSpec(input: string, i: nat, c: char)
    ensures FindFrom(input, i, c).None? <==> forall k :: i <= k < |input| ==> input[k] != c
    ensures FindFrom(input, i, c).Some? ==> forall k :: i <= k < FindFrom(input, i, c).value ==> input[k] != c
    decreases |input| - i
  {
    if i < |input| && input[i] != c {
      FindFromSpec(input, i + 1, c);
    }
  }

  /** `FindFrom` finds a `c` that has none before it. */
  lemma {:induction false} FindFromAt(input: string, i: nat, j: nat, c: char)
    requires i <= j < |input| && input[j] == c
    requires forall k :: i <= k < j ==> input[k] != c
    ensures FindFrom(input, i, c) == Some(j)
    decreases j - i
  {
    if i < j {
      FindFromAt(input, i + 1, j, c);
    }
  }

  /** Inside a comment the blank machine runs on to the next line feed and
      on past it, and fails when there is none. */
  lemma {:induction false} BlankEndComment(input: string, i: nat)
    ensures FindFrom(input, i, '\n').None? ==> BlankEnd(input, i, true) == Err(CommentNeverEnds)
    ensures FindFrom(input, i, '\n').Some? ==>
              BlankEnd(input, i, true) == BlankEnd(input, FindFrom(input, i, '\n').value + 1, false)
    decreases |input| - i
  {
    if i < |input| && input[i] != '\n' {
      BlankEndComment(input, i + 1);
    }
  }

  // ---------------------------------------------------------------------
  // What the blanks do to a scan

  /** A blank in front of a token changes nothing: the token, where the
      lexer stands after it, and every token after it stay the same. */
  lemma ScanTokenSpace(input: string, i: nat)
    requires i < |input| && IsLexSpace(input[i])
    ensures ScanTokenAt(input, i) == ScanTokenAt(input, i + 1)
    ensures LexFrom(input, i) == LexFrom(input, i + 1)
  {
    assert BlankEnd(input, i, false) == BlankEnd(input, i + 1, false);
  }

  /** A comment in front of a token is skipped up to and past its line
      feed; a comment with no line feed after it stops the lexer. */
  lemma ScanTokenComment(input: string, i: nat)
    requires i < |input| && input[i] == '#'
    ensures FindFrom(input, i + 1, '\n').None? ==> ScanTokenAt(input, i) == Err(CommentNeverEnds)
    ensures FindFrom(input, i + 1, '\n').Some? ==>
              ScanTokenAt(input, i) == ScanTokenAt(input, FindFrom(input, i + 1, '\n').value + 1)
  {
    assert BlankEnd(input, i, false) == BlankEnd(input, i + 1, true);
    BlankEndComment(input, i + 1);
  }

  // ---------------------------------------------------------------------
  // What the lexer yields

  /** Every token a scan yields has the shape of the text it came from: a
      keyword is a run of letters that is not a section word or a boolean,
      a number a run of number characters starting with `-` or a digit, and
      quoted text holds no quote (nor a space, once split). */
  lemma {:induction false} ScanTokenPrintable(input: string, i: nat)
    requires i <= |input| + 1 && ScanTokenAt(input, i).Ok?
    ensures ScanTokenAt(input, i).value.token != EOF && ScanTokenAt(input, i).value.token != Illegal ==>
              Printable(ScanTokenAt(input, i).value.token)
    decreases |input| + 2 - i, 1
  {
    ScanHerePrintable(input, BlankEnd(input, i, false).value);
  }

  lemma {:induction false} ScanHerePrintable(input: string, i: nat)
    requires i <= |input| + 1 && ScanHereAt(input, i).Ok?
    ensures ScanHereAt(input, i).value.token != EOF && ScanHereAt(input, i).value.token != Illegal ==>
              Printable(ScanHereAt(input, i).value.token)
    decreases |input| + 2 - i, 0
  {
    if i < |input| {
      if input[i] == '"' {
        var j := FindFrom(input, i + 1, '"').value;
        var content := input[i + 1..j];
        FindFromSpec(input, i + 1, '"');
        assert forall k :: 0 <= k < |content| ==> content[k] == input[i + 1 + k];
        QuotedPrintable(content, QuotedToken(content).value);
      } else if input[i] == '[' {
        ListPlain(input, i + 1);
      } else if IsLetter(input[i]) {
        WordPrintable(input, i);
      } else if input[i] == '-' || IsDigit(input[i]) {
        NumberPrintable(input, i);
      }
    }
  }

  /** The text between two quotes holds neither a quote nor, once split,
      a space. */
  lemma QuotedPrintable(content: string, token: ParserToken)
    requires '"' !in content && QuotedToken(content) == Ok(token)
    ensures Printable(token)
  {
    QuotedTokenCases(content);
    if token.PVariable? {
      var a, b := token.typeName, token.name;
      assert forall k :: 0 <= k < |a| ==> a[k] == content[k];
      assert forall k :: 0 <= k < |b| ==> b[k] == content[|a| + 1 + k];
    }
  }

  lemma WordPrintable(input: string, i: nat)
    requires i < |input| && IsLetter(input[i])
    ensures Printable(ParseIdentifier(input[i..IdentifierEnd(input, i)]))
  {
    var w := input[i..IdentifierEnd(input, i)];
    IdentifierRun(input, i);
    assert forall k :: 0 <= k < |w| ==> w[k] == input[i + k];
    assert IsWord(w);
    var t := ParseIdentifier(w);
    if t.PString? {
      WordIsPlain(w);
      assert t == PString(w);
    } else if t.PKeyword? {
      assert t == PKeyword(w);
    }
  }

  lemma WordIsPlain(w: string)
    requires IsWord(w)
    ensures IsPlainText(w)
  {
  }

  lemma NumberPrintable(input: string, i: nat)
    requires i < |input| && (input[i] == '-' || IsDigit(input[i]))
    ensures IsNumberText(input[i..NumberEnd(input, i)])
  {
    var n := input[i..NumberEnd(input, i)];
    NumberRun(input, i);
    assert forall k :: 0 <= k < |n| ==> n[k] == input[i + k];
  }

  /** The items of a list are plain text. */
  lemma {:induction false} ListPlain(input: string, i: nat)
    requires i <= |input| + 1 && ListAt(input, i).Ok?
    ensures forall k :: 0 <= k < |ListAt(input, i).value.items| ==> IsPlainText(ListAt(input, i).value.items[k])
    decreases |input| + 2 - i, 2
  {
    var s := ScanTokenAt(input, i).value;
    ScanTokenPrintable(input, i);
    if s.token.PNumber? || s.token.PString? {
      ListPlain(input, s.next);
      var rest := ListAt(input, s.next).value.items;
      assert ListAt(input, i).value.items == [ItemText(s.token)] + rest;
    }
  }

  /** Everything `LexFrom` yields is printable. */
  lemma {:induction false} LexFromPrintable(input: string, i: nat)
    requires i <= |input| + 1 && LexFrom(input, i).Ok?
    ensures forall k :: 0 <= k < |LexFrom(input, i).value| ==> Printable(LexFrom(input, i).value[k])
    decreases |input| + 2 - i
  {
    var s := ScanTokenAt(input, i).value;
    ScanTokenPrintable(input, i);
    if s.token != EOF {
      LexFromPrintable(input, s.next);
      var rest := LexFrom(input, s.next).value;
      assert LexFrom(input, i).value == [s.token] + rest;
    }
  }

  // ---------------------------------------------------------------------
  // Tokens written back as text scan as themselves

  function Quote(s: string): string
  {
    ['"'] + s + ['"']
  }

  /** A run of letters followed by a space scans as one identifier. */
  lemma ScanWord(w: string, more: string)
    requires IsWord(w)
    ensures ScanTokenAt(w + " " + more, 0) == Ok(Scan(ParseIdentifier(w), |w|))
  {
    var text := w + " " + more;
    assert text[0] == w[0];
    assert BlankEnd(text, 0, false) == Ok(0);
    assert forall k :: 0 <= k < |w| ==> text[k] == w[k];
    IdentifierEndExact(text, 0, |w|);
    assert text[..|w|] == w;
  }

  /** A number followed by a space scans as that number. */
  lemma ScanNumber(n: string, more: string)
    requires IsNumberText(n)
    ensures ScanTokenAt(n + " " + more, 0) == Ok(Scan(PNumber(n), |n|))
  {
    var text := n + " " + more;
    assert text[0] == n[0];
    assert BlankEnd(text, 0, false) == Ok(0);
    assert forall k :: 0 <= k < |n| ==> text[k] == n[k];
    NumberEndExact(text, 0, |n|);
    assert text[..|n|] == n;
  }

  /** Quoted text scans as the token for its content, passing over the
      character after the closing quote. */
  lemma ScanQuoted(content: string, more: string)
    requires '"' !in content
    ensures QuotedToken(content).Err? ==> ScanTokenAt(Quote(content) + more, 0) == Err(QuotedToken(content).error)
    ensures QuotedToken(content).Ok? ==>
              ScanTokenAt(Quote(content) + more, 0) == Ok(Scan(QuotedToken(content).value, |content| + 3))
  {
    var text := Quote(content) + more;
    assert text[0] == '"';
    assert BlankEnd(text, 0, false) == Ok(0);
    assert forall k :: 0 <= k < |content| ==> text[1 + k] == content[k];
    FindFromAt(text, 1, |content| + 1, '"');
    assert text[1..|content| + 1] == content;
  }

  // ---------------------------------------------------------------------
  // One turn of the lexer's loops

  /** A scan's outcome as the lexer's state shows it: the same error, or
      the same token with `position` one past the index the scan ends on. */
  ghost predicate Follows(r: Result<ParserToken, LexError>, s: Result<Scan, LexError>, position: nat)
  {
    match s
    case Err(e) => r == Err(e)
    case Ok(sc) => r == Ok(sc.token) && position == sc.next + 1
  }

  /** A list scan's outcome as the lexer's state shows it. */
  ghost predicate ListFollows(r: Result<seq<string>, LexError>, s: Result<ListScan, LexError>, position: nat)
  {
    match s
    case Err(e) => r == Err(e)
    case Ok(l) => r == Ok(l.items) && position == l.next + 1
  }

  /** `r` with `items` in front of its list. */
  function PrependItems(items: seq<string>, r: Result<ListScan, LexError>): Result<ListScan, LexError>
  {
    match r
    case Err(e) => Err(e)
    case Ok(l) => Ok(ListScan(items + l.items, l.next))
  }

  lemma PrependItemsNone(r: Result<ListScan, LexError>)
    ensures PrependItems([], r) == r
  {
    if r.Ok? {
      assert [] + r.value.items == r.value.items;
    }
  }

  lemma PrependItemsTwice(a: seq<string>, b: seq<string>, r: Result<ListScan, LexError>)
    ensures PrependItems(a, PrependItems(b, r)) == PrependItems(a + b, r)
  {
    if r.Ok? {
      assert a + (b + r.value.items) == (a + b) + r.value.items;
    }
  }

  /** `r` with `ts` in front of its tokens. */
  function PrependTokens(ts: seq<ParserToken>, r: Result<seq<ParserToken>, LexError>): Result<seq<ParserToken>, LexError>
  {
    match r
    case Err(e) => Err(e)
    case Ok(rest) => Ok(ts + rest)
  }

  lemma PrependTokensNone(r: Result<seq<ParserToken>, LexError>)
    ensures PrependTokens([], r) == r
  {
    if r.Ok? {
      assert [] + r.value == r.value;
    }
  }

  lemma PrependTokensTwice(a: seq<ParserToken>, b: seq<ParserToken>, r: Result<seq<ParserToken>, LexError>)
    ensures PrependTokens(a, PrependTokens(b, r)) == PrependTokens(a + b, r)
  {
    if r.Ok? {
      assert a + (b + r.value) == (a + b) + r.value;
    }
  }

  /** One turn of `read_list`'s loop, whatever `next_token` gave: the list
      read from `start` is the items so far followed by what is read from
      `i`, and `r` moved the cursor from `i` to `position`. */
  lemma ListTurn(input: string, start: nat, list: seq<string>, i: nat, r: Result<ParserToken, LexError>, position: nat)
    requires start <= |input| + 1 && i <= |input| + 1
    requires ListAt(input, start) == PrependItems(list, ListAt(input, i))
    requires Follows(r, ScanTokenAt(input, i), position)
    ensures r.Ok? && r.value.RightBracket? ==> ListFollows(Ok(list), ListAt(input, start), position)
    ensures r.Err? || !(r.value.RightBracket? || r.value.PNumber? || r.value.PString?) ==>
              ListFollows(Err(if r.Err? then r.error else UnexpectedInList(r.value)), ListAt(input, start), position)
    ensures r.Ok? && (r.value.PNumber? || r.value.PString?) ==>
              i + 1 < position <= |input| + 2 &&
              ListAt(input, start) == PrependItems(list + [ItemText(r.value)], ListAt(input, position - 1))
  {
    if r.Ok? && r.value.RightBracket? {
      assert list + [] == list;
    } else if r.Ok? && (r.value.PNumber? || r.value.PString?) {
      PrependItemsTwice(list, [ItemText(r.value)], ListAt(input, position - 1));
    }
  }

  /** One turn of `parse_pbrt_into_token`'s loop, whatever `next_token`
      gave. */
  lemma LexTurn(input: string, tokens: seq<ParserToken>, i: nat, r: Result<ParserToken, LexError>, position: nat)
    requires i <= |input| + 1
    requires LexAll(input) == PrependTokens(tokens, LexFrom(input, i))
    requires Follows(r, ScanTokenAt(input, i), position)
    ensures r == Ok(EOF) ==> LexAll(input) == Ok(tokens)
    ensures r.Err? || r == Ok(Illegal) ==> LexAll(input) == Err(if r.Err? then r.error else IllegalChar)
    ensures r.Ok? && r.value != EOF && r.value != Illegal ==>
              i + 1 < position <= |input| + 2 &&
              LexAll(input) == PrependTokens(tokens + [r.value], LexFrom(input, position - 1))
  {
    if r == Ok(EOF) {
      assert tokens + [] == tokens;
    } else if r.Ok? && r.value != Illegal {
      PrependTokensTwice(tokens, [r.value], LexFrom(input, position - 1));
    }
  }

  // ---------------------------------------------------------------------
  // Tokens for the scene builder

  /** `From<ParserToken> for Token`: the tokens that only steer the lexer
      (`Illegal`, `EOF`, `]`) make the source panic. */
  function FromParserToken(t: ParserToken): Result<Token, LexError>
  {
    match t
    case PAttributeBegin => Ok(AttributeBegin)
    case PAttributeEnd => Ok(AttributeEnd)
    case PWorldBegin => Ok(WorldBegin)
    case PKeyword(w) => Ok(Keyword(w))
    case PNumber(n) => Ok(Number(n))
    case PString(s) => Ok(String(s))
    case PVariable(a, b) => Ok(Variable(a, b))
    case PList(items) => Ok(List(items))
    case _ => Err(CannotConvert(t))
  }

  /** The lexer token a scene token stands for; `Bool` has none, since the
      conversion never produces it. */
  function ToParserToken(t: Token): Option<ParserToken>
  {
    match t
    case AttributeBegin => Some(PAttributeBegin)
    case AttributeEnd => Some(PAttributeEnd)
    case WorldBegin => Some(PWorldBegin)
    case Keyword(w) => Some(PKeyword(w))
    case Number(n) => Some(PNumber(n))
    case String(s) => Some(PString(s))
    case Variable(a, b) => Some(PVariable(a, b))
    case List(items) => Some(PList(items))
    case Bool(_) => None
  }

  /** The conversion refuses exactly the three steering tokens, loses
      nothing, and reaches every scene token but `Bool`. */
  lemma FromParserTokenInverse(t: ParserToken, u: Token)
    ensures FromParserToken(t).Err? <==> t.Illegal? || t.EOF? || t.RightBracket?
    ensures FromParserToken(t).Ok? ==> ToParserToken(FromParserToken(t).value) == Some(t)
    ensures ToParserToken(u).Some? ==> FromParserToken(ToParserToken(u).value) == Ok(u)
    ensures ToParserToken(u).None? <==> u.Bool?
  {
  }

  /** `Token::convert_to_string`: only a `String` token has text; any
      other token panics. */
  function TokenText(t: Token): (r: Result<string, LexError>)
    ensures r.Ok? <==> t.String?
    ensures r.Ok? ==> t == String(r.value)
    ensures r.Err? ==> r.error == NotText(t)
  {
    if t.String? then Ok(t.text) else Err(NotText(t))
  }

  /** `Token::convert_to_float`: a `Number` token whose text parses
      (`float` stands for `str::parse::<f64>`); anything else panics. */
  function TokenFloat(t: Token, float: string -> Option<real>): (r: Result<real, LexError>)
    ensures r.Ok? <==> t.Number? && float(t.number).Some?
    ensures r.Ok? ==> float(t.number) == Some(r.value)
    ensures r.Err? ==> r.error == NotAFloat(t)
  {
    if t.Number? && float(t.number).Some? then Ok(float(t.number).value) else Err(NotAFloat(t))
  }

  /** Of the lexer's tokens, the quoted strings alone read back as text,
      and as the text they were lexed with. */
  lemma ConvertedText(t: ParserToken)
    requires FromParserToken(t).Ok?
    ensures TokenText(FromParserToken(t).value).Ok? <==> t.PString?
    ensures t.PString? ==> TokenText(FromParserToken(t).value) == Ok(t.text)
  {
  }

  /** The `map(Token::from)` at the end of `parse_pbrt_into_token`: the
      first token that cannot be converted stops it. */
  function ConvertAll(ts: seq<ParserToken>): (r: Result<seq<Token>, LexError>)
    ensures r.Ok? ==> |r.value| == |ts|
  {
    if |ts| == 0 then Ok([])
    else
      match FromParserToken(ts[0])
      case Err(e) => Err(e)
      case Ok(t) =>
        match ConvertAll(ts[1..])
        case Err(e) => Err(e)
        case Ok(rest) => Ok([t] + rest)
  }

  /** `ConvertAll` succeeds exactly when every token converts, and then
      each scene token stands for the lexer token at its index. */
  lemma {:induction false} ConvertAllSpec(ts: seq<ParserToken>)
    ensures ConvertAll(ts).Ok? <==> forall i :: 0 <= i < |ts| ==> FromParserToken(ts[i]).Ok?
    ensures ConvertAll(ts).Ok? ==>
              forall i :: 0 <= i < |ts| ==> ConvertAll(ts).value[i] == FromParserToken(ts[i]).value
    ensures ConvertAll(ts).Err? ==> exists i :: 0 <= i < |ts| && ConvertAll(ts) == Err(CannotConvert(ts[i]))
  {
    if |ts| > 0 {
      ConvertAllSpec(ts[1..]);
      if ConvertAll(ts[1..]).Err? && FromParserToken(ts[0]).Ok? {
        var i :| 0 <= i < |ts[1..]| && ConvertAll(ts[1..]) == Err(CannotConvert(ts[1..][i]));
        assert ts[1..][i] == ts[i + 1];
      }
    }
  }

  /** The tokens `parse_pbrt_into_token` returns for a file's text. */
  function Tokens(text: string): Result<seq<Token>, LexError>
  {
    match LexAll(text)
    case Err(e) => Err(e)
    case Ok(ts) => ConvertAll(ts)
  }

  /** A file lexes into scene tokens exactly when it lexes and holds no
      stray `]`; each token is then the conversion of a printable lexer
      token. */
  lemma TokensSpec(text: string)
    ensures Tokens(text).Ok? <==>
              LexAll(text).Ok? && forall i :: 0 <= i < |LexAll(text).value| ==> !LexAll(text).value[i].RightBracket?
    ensures Tokens(text).Ok? ==>
              |Tokens(text).value| == |LexAll(text).value| &&
              forall i :: 0 <= i < |Tokens(text).value| ==>
                Printable(LexAll(text).value[i]) && ToParserToken(Tokens(text).value[i]) == Some(LexAll(text).value[i])
  {
    if LexAll(text).Ok? {
      var ts := LexAll(text).value;
      LexFromPrintable(text, 0);
      ConvertAllSpec(ts);
      forall i | 0 <= i < |ts|
        ensures FromParserToken(ts[i]).Ok? <==> !ts[i].RightBracket?
        ensures FromParserToken(ts[i]).Ok? ==> ToParserToken(FromParserToken(ts[i]).value) == Some(ts[i])
      {
        FromParserTokenInverse(ts[i], AttributeBegin);
      }
    }
  }

  /** The character under the cursor: `None` past the end of the input. */
  function CharAt(input: string, i: nat): (c: Option<char>)
    ensures c.Some? <==> i < |input|
    ensures c.Some? ==> c.value == input[i]
  {
    if i < |input| then Some(input[i]) else None
  }

  // ---------------------------------------------------------------------
  // The lexer

  /** Line feeds among the characters at indices `a` to `b` (exclusive). */
  function LineFeeds(input: string, a: nat, b: nat): nat
    decreases b
  {
    if b <= a then 0
    else LineFeeds(input, a, b - 1) + (if b - 1 < |input| && input[b - 1] == '\n' then 1 else 0)
  }

  /** `Lexer`: the input, the cursor (`position` is one past the index of
      the character in `currentChar`) and the line count. */
  class Lexer {
    const input: string
    var position: nat
    var currentChar: Option<char>
    var lineNumber: nat

    /** `currentChar` is the character just read. */
    ghost predicate Valid()
      reads this
    {
      1 <= position && currentChar == CharAt(input, position - 1)
    }

    /** `Lexer::new`: nothing read yet, on line 1. */
    constructor (text: string)
      ensures input == text && position == 0 && currentChar == None && lineNumber == 1
    {
      input := text;
      position := 0;
      currentChar := None;
      lineNumber := 1;
    }

    /** `read_char`: the character at `position`, or `None` past the end;
        the cursor always moves on by one. */
    method ReadChar()
      modifies this
      ensures position == old(position) + 1
      ensures currentChar == CharAt(input, old(position))
      ensures lineNumber == old(lineNumber)
      ensures Valid()
    {
      currentChar := if position >= |input| then None else Some(input[position]);
      position := position + 1;
    }

    /** `skip_space`: past the blanks in front of the cursor, counting the
        line feeds among them. */
    method SkipSpace()
      requires Valid()
      modifies this
      ensures Valid() && old(position) <= position
      ensures currentChar.None? || !IsLexSpace(currentChar.value)
      ensures lineNumber == old(lineNumber) + LineFeeds(input, old(position) - 1, position - 1)
      ensures BlankEnd(input, old(position) - 1, false) == BlankEnd(input, position - 1, false)
    {
      ghost var p0 := position;
      while currentChar.Some? && IsLexSpace(currentChar.value)
        invariant Valid() && p0 <= position
        invariant lineNumber == old(lineNumber) + LineFeeds(input, p0 - 1, position - 1)
        invariant BlankEnd(input, p0 - 1, false) == BlankEnd(input, position - 1, false)
        decreases |input| + 1 - position
      {
        if currentChar.value == '\n' {
          lineNumber := lineNumber + 1;
        }
        ReadChar();
      }
    }

    /** `skip_comment`, called on a `#`: on to the next line feed, which it
        counts. Where the source reads on forever past the end of the
        input, the model stops and reports that the comment never ends. */
    method SkipComment() returns (ended: bool)
      requires Valid() && currentChar == Some('#')
      modifies this
      ensures Valid() && old(position) < position
      ensures ended <==> FindFrom(input, old(position), '\n').Some?
      ensures ended ==> position - 1 == FindFrom(input, old(position), '\n').value
      ensures ended ==> currentChar == Some('\n') && lineNumber == old(lineNumber) + 1
      ensures !ended ==> currentChar.None? && lineNumber == old(lineNumber)
      ensures ended ==> BlankEnd(input, old(position) - 1, false) == BlankEnd(input, position - 1, false)
      ensures !ended ==> BlankEnd(input, old(position) - 1, false) == Err(CommentNeverEnds)
    {
      ghost var p0 := position;
      ReadChar();
      while currentChar.Some? && currentChar.value != '\n'
        invariant Valid() && p0 < position
        invariant FindFrom(input, p0, '\n') == FindFrom(input, position - 1, '\n')
        invariant BlankEnd(input, p0 - 1, false) == BlankEnd(input, position - 1, true)
        invariant lineNumber == old(lineNumber)
        decreases |input| + 1 - position
      {
        ReadChar();
      }
      ended := currentChar.Some?;
      if ended {
        lineNumber := lineNumber + 1;
      }
    }

    /** The blanks and comments `next_token` skips before a token: `true`
        with the cursor on the token's first character, or `false` for a
        comment that never ends. */
    method SkipBlank() returns (ok: bool)
      requires Valid()
      modifies this
      ensures Valid() && old(position) <= position && old(lineNumber) <= lineNumber
      ensures ok <==> BlankEnd(input, old(position) - 1, false).Ok?
      ensures ok ==> position - 1 == BlankEnd(input, old(position) - 1, false).value
    {
      ghost var p0 := position;
      SkipSpace();
      while currentChar == Some('#')
        invariant Valid() && p0 <= position && old(lineNumber) <= lineNumber
        invariant currentChar.None? || !IsLexSpace(currentChar.value)
        invariant BlankEnd(input, p0 - 1, false) == BlankEnd(input, position - 1, false)
        decreases |input| + 1 - position
      {
        var ended := SkipComment();
        if !ended {
          return false;
        }
        SkipSpace();
      }
      return true;
    }

    /** How far the cursor can still move before it is past the character
        after a closing quote at the very end; bounds the mutual recursion
        of `NextToken` and `ReadList`. */
    ghost function Headroom(): nat
      reads this
    {
      if position <= |input| + 3 then |input| + 3 - position else 0
    }

    /** `read_identifier`, called on a letter: the longest run of letters
        and `_` from the cursor on. */
    method ReadIdentifier() returns (identifier: string)
      requires Valid() && currentChar.Some? && IsLetter(currentChar.value)
      modifies this
      ensures Valid() && lineNumber == old(lineNumber)
      ensures position - 1 == IdentifierEnd(input, old(position) - 1)
      ensures identifier == input[old(position) - 1..position - 1]
    {
      var last := position - 1;
      while currentChar.Some? && IsLetter(currentChar.value)
        invariant Valid() && last < position <= |input| + 1
        invariant IdentifierEnd(input, last) == IdentifierEnd(input, position - 1)
        invariant lineNumber == old(lineNumber)
        decreases |input| + 1 - position
      {
        ReadChar();
      }
      identifier := input[last..position - 1];
    }

    /** `read_number`, called on `-` or a digit: the longest run of `-`,
        `.` and digits from the cursor on. */
    method ReadNumber() returns (number: string)
      requires Valid() && currentChar.Some? && (currentChar.value == '-' || IsDigit(currentChar.value))
      modifies this
      ensures Valid() && lineNumber == old(lineNumber)
      ensures position - 1 == NumberEnd(input, old(position) - 1)
      ensures number == input[old(position) - 1..position - 1]
    {
      var last := position - 1;
      while currentChar.Some? && IsNumberChar(currentChar.value)
        invariant Valid() && last < position <= |input| + 1
        invariant NumberEnd(input, last) == NumberEnd(input, position - 1)
        invariant lineNumber == old(lineNumber)
        decreases |input| + 1 - position
      {
        ReadChar();
      }
      number := input[last..position - 1];
    }

    /** `read_quoted_string`, called on `"`: up to the closing quote and
        past it, then the token for the text in between. Where the source
        reads on forever without a closing quote, the model reports it. */
    method ReadQuotedString() returns (r: Result<ParserToken, LexError>)
      requires Valid() && currentChar == Some('"')
      modifies this
      ensures Valid() && old(position) < position && lineNumber == old(lineNumber)
      ensures FindFrom(input, old(position), '"').None? ==> r == Err(UnterminatedString)
      ensures FindFrom(input, old(position), '"').Some? ==>
                var j := FindFrom(input, old(position), '"').value;
                r == QuotedToken(input[old(position)..j]) && position == j + 2
    {
      var last := position - 1;
      ReadChar();
      while currentChar.Some? && currentChar.value != '"'
        invariant Valid() && last + 1 < position <= |input| + 1
        invariant FindFrom(input, last + 1, '"') == FindFrom(input, position - 1, '"')
        invariant lineNumber == old(lineNumber)
        decreases |input| + 1 - position
      {
        ReadChar();
      }
      if currentChar.None? {
        return Err(UnterminatedString);
      }
      ReadChar();
      var content := input[last + 1..position - 2];
      r := QuotedToken(content);
    }

    /** `read_list`, called on `[`: the numbers and strings up to the `]`;
        any other token is refused. */
    method ReadList() returns (r: Result<seq<string>, LexError>)
      requires Valid() && currentChar == Some('[')
      modifies this
      ensures Valid() && old(position) < position && old(lineNumber) <= lineNumber
      ensures ListFollows(r, ListAt(input, old(position)), position)
      decreases Headroom(), 0
    {
      ReadChar();
      ghost var start := position - 1;
      var list := [];
      ghost var at := position;
      PrependItemsNone(ListAt(input, start));
      while true
        invariant Valid() && at == position && start < at <= |input| + 2 && start <= |input|
        invariant old(lineNumber) <= lineNumber
        invariant ListAt(input, start) == PrependItems(list, ListAt(input, at - 1))
        decreases |input| + 2 - at
      {
        ghost var i := at - 1;
        var token := NextToken();
        at := position;
        ListTurn(input, start, list, i, token, at);
        if token.Ok? && token.value.RightBracket? {
          return Ok(list);
        }
        if token.Err? || !(token.value.PNumber? || token.value.PString?) {
          return Err(if token.Err? then token.error else UnexpectedInList(token.value));
        }
        list := list + [ItemText(token.value)];
      }
    }

    /** The `match` of `next_token` once the blanks are skipped: the token
        at the cursor. After `EOF`, `]`, a quoted string and a list the
        cursor moves on by one more character; the source prints a message
        for an illegal character. */
    method ScanCurrent() returns (r: Result<ParserToken, LexError>)
      requires Valid() && position <= |input| + 2
      modifies this
      ensures Valid() && old(position) <= position && old(lineNumber) <= lineNumber
      ensures Follows(r, ScanHereAt(input, old(position) - 1), position)
      decreases Headroom(), 1
    {
      match currentChar
      case None =>
        ReadChar();
        r := Ok(EOF);
      case Some(c) =>
        if c == '"' {
          r := ReadQuotedString();
          if r.Ok? {
            ReadChar();
          }
        } else if c == '[' {
          var items := ReadList();
          if items.Err? {
            return Err(items.error);
          }
          ReadChar();
          r := Ok(PList(items.value));
        } else if c == ']' {
          ReadChar();
          r := Ok(RightBracket);
        } else if IsLetter(c) {
          var identifier := ReadIdentifier();
          r := Ok(ParseIdentifier(identifier));
        } else if c == '-' || IsDigit(c) {
          var number := ReadNumber();
          r := Ok(PNumber(number));
        } else {
          r := Ok(Illegal);
        }
    }

    /** `next_token`: skip blanks and comments, then scan one token. */
    method NextToken() returns (r: Result<ParserToken, LexError>)
      requires Valid() && position <= |input| + 2
      modifies this
      ensures Valid() && old(position) <= position && old(lineNumber) <= lineNumber
      ensures Follows(r, ScanTokenAt(input, old(position) - 1), position)
      decreases Headroom(), 2
    {
      var ok := SkipBlank();
      if !ok {
        return Err(CommentNeverEnds);
      }
      r := ScanCurrent();
    }
  }

  /** `parse_pbrt_into_token`: the file's text (`files` stands for the file
      system; a missing file makes the source panic) lexed to the end, an
      illegal character refused, and the tokens converted. */
  method ParsePbrtIntoTokens(files: map<string, string>, filePath: string) returns (r: Result<seq<Token>, LexError>)
    ensures filePath !in files ==> r == Err(FileNotFound(filePath))
    ensures filePath in files ==> r == Tokens(files[filePath])
  {
    if filePath !in files {
      return Err(FileNotFound(filePath));
    }
    var text := files[filePath];
    var lexer := new Lexer(text);
    lexer.ReadChar();
    var tokens := [];
    ghost var at := lexer.position;
    PrependTokensNone(LexAll(text));
    while true
      invariant fresh(lexer) && lexer.input == text
      invariant lexer.Valid() && at == lexer.position && 1 <= at <= |text| + 2
      invariant LexAll(text) == PrependTokens(tokens, LexFrom(text, at - 1))
      decreases |text| + 2 - at
    {
      ghost var i := at - 1;
      var token := lexer.NextToken();
      at := lexer.position;
      LexTurn(text, tokens, i, token, at);
      if token == Ok(EOF) {
        break;
      }
      if token.Err? || token.value == Illegal {
        return Err(if token.Err? then token.error else IllegalChar);
      }
      tokens := tokens + [token.value];
    }
    r := ConvertAll(tokens);
  }
}
