/** The scene-file-to-document converter: tokenizing, splitting into blocks
    at directive keywords, collapsing bracketed lists, rewriting `Include`
    paths and assembling the `token_i` / `length` document. File reading and
    writing are modelled by a map from paths to lines and by the list of
    documents written, in the order they are written. */
module PbrtParser {
  import opened Wrappers
  import opened Strings
  import opened Json

  /** The directive names that start a new block (39 entries). */
  const TotalKeywords: seq<string> := [
    "AttributeBegin", "AttributeEnd", "Attribute", "ActiveTransform",
    "AreaLightSource", "Accelerator", "ConcatTransform", "CoordinateSystem",
    "CoordSysTransform", "ColorSpace", "Camera", "Film", "Integrator",
    "Include", "Identity", "LightSource", "LookAt", "MakeNamedMaterial",
    "MakeNamedMedium", "Material", "MediumInterface", "NamedMaterial",
    "ObjectBegin", "ObjectEnd", "ObjectInstance", "Option", "PixelFilter",
    "ReverseOrientation", "Rotate", "Shape", "Sampler", "Scale",
    "TransformBegin", "TransformEnd", "Transform", "Translate",
    "TransformTimes", "Texture", "WorldBegin"
  ]

  predicate IsKeyword(t: string)
  {
    t in TotalKeywords
  }

  datatype ParseError =
    | TokenizationError        // an opening `"` fragment is the last raw token (IndexError)
    | EmptyTokenError          // `current_token[0]` on an empty token (IndexError)
    | MalformedBracketError    // a `[` with no `]` anywhere in the block (ValueError)
    | BracketRecursionError    // the first `]` precedes the first `[`: unbounded recursion (RecursionError)
    | FileNotFound(path: string)
    | RecursionLimit           // include nesting deeper than the interpreter's stack

  // ---------------------------------------------------------------------
  // Tokenizing

  /** The words one line contributes: everything from the first `#` on is
      dropped, and a line that is empty after stripping contributes nothing. */
  function LineWords(line: string): (ws: seq<string>)
    ensures forall k :: 0 <= k < |ws| ==> |ws[k]| > 0 && NoneWhere(ws[k], IsPythonSpace)
  {
    var cut := match FindFirst(line, '#')
      case None => line
      case Some(k) => line[..k];
    var stripped := Strip(cut, IsPythonSpace);
    if |stripped| == 0 then []
    else
      var words := SplitWhere(stripped, IsPythonSpace);
      assert forall k :: 0 <= k < |words| ==> words[k] in words;
      words
  }

  /** The whitespace-split words of all lines, in order. */
  function RawTokens(lines: seq<string>): (ts: seq<string>)
    ensures forall k :: 0 <= k < |ts| ==> |ts[k]| > 0 && NoneWhere(ts[k], IsPythonSpace)
  {
    if |lines| == 0 then [] else RawTokens(lines[..|lines| - 1]) + LineWords(lines[|lines| - 1])
  }

  /** A comment runs to the end of its line: nothing after the first `#`
      adds a word. */
  lemma LineWordsComment(code: string, comment: string)
    requires '#' !in code
    ensures LineWords(code + "#" + comment) == LineWords(code)
  {
    var line := code + "#" + comment;
    assert line[..|code|] == code;
    FindFirstAt(line, '#', |code|);
    FindFirstSpec(code, '#');
  }

  /** A line that is all comment adds no tokens. */
  lemma {:induction false} CommentLineAddsNothing(lines: seq<string>, comment: string)
    ensures RawTokens(lines + ["#" + comment]) == RawTokens(lines)
  {
    LineWordsComment("", comment);
    assert "" + "#" + comment == "#" + comment;
    assert (lines + ["#" + comment])[..|lines|] == lines;
  }

  /** A raw token that opens a double-quoted phrase without closing it. */
  predicate IsOpener(t: string)
  {
    StartsWith(t, '"') && !EndsWith(t, '"')
  }

  function Prepend(prefix: seq<string>, r: Result<seq<string>, ParseError>): Result<seq<string>, ParseError>
  {
    match r
    case Ok(ts) => Ok(prefix + ts)
    case Err(e) => Err(e)
  }

  /** Quote reassembly: an opener is joined with exactly the next raw token by
      one space; an opener with no next token is a tokenization error. */
  function Assemble(raw: seq<string>): (r: Result<seq<string>, ParseError>)
    ensures (forall k :: 0 <= k < |raw| ==> |raw[k]| > 0) && r.Ok? ==> forall k :: 0 <= k < |r.value| ==> |r.value[k]| > 0
    decreases |raw|
  {
    if |raw| == 0 then Ok([])
    else if !IsOpener(raw[0]) then Prepend([raw[0]], Assemble(raw[1..]))
    else if |raw| == 1 then Err(TokenizationError)
    else Prepend([raw[0] + " " + raw[1]], Assemble(raw[2..]))
  }

  predicate Wrapped(t: string)
  {
    |t| > 0 && ((t[0] == '"' && t[|t| - 1] == '"') || (t[0] == '\'' && t[|t| - 1] == '\''))
  }

  /** `trim_quote`: one matching pair of `"` or `'` is removed (a lone quote
      character becomes empty, as the slice `[1:-1]` does); any other token is
      returned unchanged. */
  function TrimQuote(t: string): (r: string)
    requires |t| > 0
    ensures !Wrapped(t) ==> r == t
    ensures Wrapped(t) ==> |r| == (if |t| >= 2 then |t| - 2 else 0)
                           && forall k :: 0 <= k < |r| ==> r[k] == t[k + 1]
  {
    if Wrapped(t) then (if |t| >= 2 then t[1..|t| - 1] else "") else t
  }

  function TrimAll(ts: seq<string>): (r: seq<string>)
    requires forall k :: 0 <= k < |ts| ==> |ts[k]| > 0
    ensures |r| == |ts|
  {
    seq(|ts|, k requires 0 <= k < |ts| => TrimQuote(ts[k]))
  }

  /** The token list `tokenize` returns for the given lines. */
  function Tokens(lines: seq<string>): Result<seq<string>, ParseError>
  {
    match Assemble(RawTokens(lines))
    case Err(e) => Err(e)
    case Ok(ts) => Ok(TrimAll(ts))
  }

  /** `tokenize`: the words of every line, then quote reassembly, then quote
      trimming. */
  method Tokenize(lines: seq<string>) returns (r: Result<seq<string>, ParseError>)
    ensures r == Tokens(lines)
  {
    var tokens := ReadWords(lines);
    var assembled :- JoinQuoted(tokens);
    r := Ok(TrimAll(assembled));
  }

  /** The first loop of `tokenize`. */
  method ReadWords(lines: seq<string>) returns (tokens: seq<string>)
    ensures tokens == RawTokens(lines)
  {
    tokens := [];
    for i := 0 to |lines|
      invariant tokens == RawTokens(lines[..i])
    {
      RawTokensStep(lines, i);
      var line := lines[i];
      var begin := FindFirst(line, '#');
      line := if begin.None? then line else line[..begin.value];
      line := Strip(line, IsPythonSpace);
      if |line| == 0 {
        assert tokens + [] == tokens;
        continue;
      }
      tokens := tokens + SplitWhere(line, IsPythonSpace);
    }
    assert lines[..|lines|] == lines;
  }

  lemma RawTokensStep(lines: seq<string>, i: nat)
    requires i < |lines|
    ensures RawTokens(lines[..i + 1]) == RawTokens(lines[..i]) + LineWords(lines[i])
  {
    assert lines[..i + 1][..i] == lines[..i];
  }

  lemma PrependNothing(r: Result<seq<string>, ParseError>)
    ensures Prepend([], r) == r
  {
    if r.Ok? {
      assert [] + r.value == r.value;
    }
  }

  lemma PrependSnoc(prefix: seq<string>, t: string, r: Result<seq<string>, ParseError>)
    ensures Prepend(prefix, Prepend([t], r)) == Prepend(prefix + [t], r)
  {
    if r.Ok? {
      assert prefix + ([t] + r.value) == prefix + [t] + r.value;
    }
  }

  /** The merge loop of `tokenize`: an opener takes the following word along. */
  method JoinQuoted(tokens: seq<string>) returns (r: Result<seq<string>, ParseError>)
    ensures r == Assemble(tokens)
  {
    var assembled: seq<string> := [];
    var idx := 0;
    assert tokens[0..] == tokens;
    PrependNothing(Assemble(tokens));
    while idx < |tokens|
      invariant idx <= |tokens|
      invariant Assemble(tokens) == Prepend(assembled, Assemble(tokens[idx..]))
    {
      var current := tokens[idx];
      if !StartsWith(current, '"') || EndsWith(current, '"') {
        assert tokens[idx..][1..] == tokens[idx + 1..];
        PrependSnoc(assembled, current, Assemble(tokens[idx + 1..]));
        assembled := assembled + [current];
        idx := idx + 1;
        continue;
      }
      if idx + 1 >= |tokens| {
        return Err(TokenizationError);
      }
      assert tokens[idx..][2..] == tokens[idx + 2..];
      PrependSnoc(assembled, tokens[idx] + " " + tokens[idx + 1], Assemble(tokens[idx + 2..]));
      assembled := assembled + [tokens[idx] + " " + tokens[idx + 1]];
      idx := idx + 2;
    }
    assert tokens[idx..] == [];
    assert assembled + [] == assembled;
    r := Ok(assembled);
  }

  /** Splitting each joined token back at its space, the partner of `Assemble`. */
  function Unjoin(ts: seq<string>): seq<string>
  {
    if |ts| == 0 then [] else SplitOn(ts[0], ' ') + Unjoin(ts[1..])
  }

  lemma {:induction false} UnjoinAppend(a: seq<string>, b: seq<string>)
    ensures Unjoin(a + b) == Unjoin(a) + Unjoin(b)
  {
    if |a| > 0 {
      assert (a + b)[0] == a[0];
      assert (a + b)[1..] == a[1..] + b;
      UnjoinAppend(a[1..], b);
    } else {
      assert a + b == b;
    }
  }

  lemma SplitOnJoined(a: string, b: string)
    requires ' ' !in a && ' ' !in b
    ensures SplitOn(a + " " + b, ' ') == [a, b]
  {
    var s := a + " " + b;
    assert s[|a|] == ' ';
    assert ' ' !in s[..|a|] by { assert s[..|a|] == a; }
    FindFirstAt(s, ' ', |a|);
    assert s[..|a|] == a && s[|a| + 1..] == b;
    SplitOnWhole(b, ' ');
  }

  /** Round trip: when no raw token holds a space (as whitespace splitting
      guarantees), splitting the assembled tokens at their single space gives
      back the raw token list. */
  lemma {:induction false} AssembleRoundTrip(raw: seq<string>)
    requires forall k :: 0 <= k < |raw| ==> ' ' !in raw[k]
    requires Assemble(raw).Ok?
    ensures Unjoin(Assemble(raw).value) == raw
    decreases |raw|
  {
    if |raw| == 0 {
    } else if !IsOpener(raw[0]) {
      var tail := raw[1..];
      assert forall k :: 0 <= k < |tail| ==> tail[k] == raw[k + 1];
      AssembleRoundTrip(tail);
      var rest := Assemble(tail).value;
      UnjoinAppend([raw[0]], rest);
      SplitOnWhole(raw[0], ' ');
      assert Unjoin([raw[0]]) == SplitOn(raw[0], ' ') + Unjoin([]);
      HeadSplit(raw);
    } else {
      var tail := raw[2..];
      assert forall k :: 0 <= k < |tail| ==> tail[k] == raw[k + 2];
      AssembleRoundTrip(tail);
      var rest := Assemble(tail).value;
      var joined := raw[0] + " " + raw[1];
      UnjoinAppend([joined], rest);
      SplitOnJoined(raw[0], raw[1]);
      assert Unjoin([joined]) == SplitOn(joined, ' ') + Unjoin([]);
      HeadPairSplit(raw);
    }
  }

  lemma HeadSplit<T>(s: seq<T>)
    requires |s| >= 1
    ensures s == [s[0]] + s[1..]
  {
  }

  lemma HeadPairSplit<T>(s: seq<T>)
    requires |s| >= 2
    ensures s == [s[0], s[1]] + s[2..]
  {
  }

  /** Assembly fails exactly when the scan meets an opener as the last raw
      token; when no raw token is an opener it changes nothing. */
  lemma {:induction false} AssembleOutcome(raw: seq<string>)
    ensures Assemble(raw).Err? ==> |raw| > 0 && IsOpener(raw[|raw| - 1])
    ensures (forall t :: t in raw ==> !IsOpener(t)) ==> Assemble(raw) == Ok(raw)
    decreases |raw|
  {
    if |raw| == 0 {
    } else if !IsOpener(raw[0]) {
      AssembleOutcome(raw[1..]);
      assert raw == [raw[0]] + raw[1..];
    } else if |raw| > 1 {
      AssembleOutcome(raw[2..]);
    }
  }

  /** Trimming undoes quoting with either quote character. */
  lemma TrimQuoteRoundTrip(q: char, s: string)
    requires q == '"' || q == '\''
    ensures TrimQuote([q] + s + [q]) == s
  {
    var t := [q] + s + [q];
    assert t[1..|t| - 1] == s;
  }

  lemma TrimQuoteExamples()
    ensures TrimQuote("\"sphere\"") == "sphere"
    ensures TrimQuote("'a'") == "a"
    ensures TrimQuote("\"") == ""
    ensures TrimQuote("radius") == "radius"
  {
  }

  /** Quote reassembly on the examples of the format's documentation: a
      double-quoted declaration is joined, a single-quoted one is not, and an
      unclosed quote at the end fails. */
  lemma AssembleExamples()
    ensures Assemble(["\"float", "fov\"", "45"]) == Ok(["\"float fov\"", "45"])
    ensures Assemble(["'float", "fov'"]) == Ok(["'float", "fov'"])
    ensures Assemble(["Shape", "\"sphere"]) == Err(TokenizationError)
  {
    var nothing: seq<string> := [];
    assert Assemble(nothing) == Ok([]);
    assert ["45"][1..] == nothing;
    assert !IsOpener("45");
    assert Assemble(["45"]) == Prepend(["45"], Ok(nothing));
    assert ["45"] + nothing == ["45"];
    assert ["fov\"", "45"][1..] == ["45"];
    assert !IsOpener("fov\"");
    assert Assemble(["fov\"", "45"]) == Prepend(["fov\""], Ok(["45"]));
    assert IsOpener("\"float");
    assert ["\"float", "fov\"", "45"][2..] == ["45"];
    assert "\"float" + " " + "fov\"" == "\"float fov\"";
    assert Assemble(["\"float", "fov\"", "45"]) == Prepend(["\"float fov\""], Ok(["45"]));
    assert ["\"float fov\""] + ["45"] == ["\"float fov\"", "45"];
    assert ["fov'"][1..] == nothing;
    assert !IsOpener("fov'") && !IsOpener("'float");
    assert Assemble(["fov'"]) == Prepend(["fov'"], Ok(nothing));
    assert ["fov'"] + nothing == ["fov'"];
    assert ["'float"] + ["fov'"] == ["'float", "fov'"];
    assert ["'float", "fov'"][1..] == ["fov'"];
    assert Assemble(["'float", "fov'"]) == Prepend(["'float"], Ok(["fov'"]));
    assert IsOpener("\"sphere") && !IsOpener("Shape");
    assert ["Shape", "\"sphere"][1..] == ["\"sphere"];
  }

  // ---------------------------------------------------------------------
  // Block splitting

  /** The blocks of `tokens`: a new block starts at every keyword after index 0. */
  function SplitBlocks(keywords: seq<string>, tokens: seq<string>): seq<seq<string>>
  {
    if |tokens| == 0 then [[]] else SplitFrom(keywords, [tokens[0]], tokens[1..])
  }

  /** The blocks of `current + rest` when `current` is the block being filled
      and a new block starts at every token of `rest` that `key` accepts. */
  function SplitFrom(keywords: seq<string>, current: seq<string>, rest: seq<string>): (blocks: seq<seq<string>>)
    ensures |blocks| >= 1
    ensures |blocks[0]| >= |current| && blocks[0][..|current|] == current
    decreases |rest|
  {
    if |rest| == 0 then [current]
    else if rest[0] in keywords then [current] + SplitFrom(keywords, [rest[0]], rest[1..])
    else SplitFrom(keywords, current + [rest[0]], rest[1..])
  }

  function Flatten<T>(blocks: seq<seq<T>>): seq<T>
  {
    if |blocks| == 0 then [] else blocks[0] + Flatten(blocks[1..])
  }

  /** The shape `split_by_keyword` promises: concatenating the blocks gives the
      tokens back, every block after the first starts with a keyword, and no
      keyword stands anywhere else. */
  predicate ProperSplit(keywords: seq<string>, tokens: seq<string>, blocks: seq<seq<string>>)
  {
    && |blocks| >= 1
    && Flatten(blocks) == tokens
    && KeyHeads(keywords, blocks)
    && NoInnerKeys(keywords, blocks)
    && (|tokens| > 0 ==> |blocks[0]| > 0)
  }

  /** Every block after the first starts with a token `key` accepts. */
  predicate KeyHeads(keywords: seq<string>, blocks: seq<seq<string>>)
  {
    forall k :: 1 <= k < |blocks| ==> |blocks[k]| > 0 && blocks[k][0] in keywords
  }

  /** No block holds a token `key` accepts past its first position. */
  predicate NoInnerKeys(keywords: seq<string>, blocks: seq<seq<string>>)
  {
    forall k, j :: 0 <= k < |blocks| && 1 <= j < |blocks[k]| ==> blocks[k][j] !in keywords
  }

  lemma {:induction false} SplitFromFlatten(keywords: seq<string>, current: seq<string>, rest: seq<string>)
    ensures Flatten(SplitFrom(keywords, current, rest)) == current + rest
    decreases |rest|
  {
    var blocks := SplitFrom(keywords, current, rest);
    if |rest| == 0 {
      assert Flatten(blocks) == current + Flatten<string>([]);
      assert current + rest == current;
    } else if rest[0] in keywords {
      SplitFromFlatten(keywords, [rest[0]], rest[1..]);
      var tail := SplitFrom(keywords, [rest[0]], rest[1..]);
      assert blocks[1..] == tail;
      assert Flatten(blocks) == current + Flatten(tail);
      assert rest == [rest[0]] + rest[1..];
    } else {
      SplitFromFlatten(keywords, current + [rest[0]], rest[1..]);
      assert current + rest == current + [rest[0]] + rest[1..];
    }
  }

  lemma {:induction false} SplitFromHeads(keywords: seq<string>, current: seq<string>, rest: seq<string>)
    ensures KeyHeads(keywords, SplitFrom(keywords, current, rest))
    decreases |rest|
  {
    if |rest| > 0 {
      var blocks := SplitFrom(keywords, current, rest);
      if rest[0] in keywords {
        SplitFromHeads(keywords, [rest[0]], rest[1..]);
        var tail := SplitFrom(keywords, [rest[0]], rest[1..]);
        assert blocks == [current] + tail;
        assert forall k :: 1 <= k < |blocks| ==> blocks[k] == tail[k - 1];
        assert tail[0][..1] == [rest[0]];
      } else {
        assert blocks == SplitFrom(keywords, current + [rest[0]], rest[1..]);
        SplitFromHeads(keywords, current + [rest[0]], rest[1..]);
      }
    }
  }

  lemma {:induction false} SplitFromInterior(keywords: seq<string>, current: seq<string>, rest: seq<string>)
    requires forall j :: 1 <= j < |current| ==> current[j] !in keywords
    ensures NoInnerKeys(keywords, SplitFrom(keywords, current, rest))
    decreases |rest|
  {
    if |rest| > 0 {
      var blocks := SplitFrom(keywords, current, rest);
      if rest[0] in keywords {
        SplitFromInterior(keywords, [rest[0]], rest[1..]);
        var tail := SplitFrom(keywords, [rest[0]], rest[1..]);
        assert blocks == [current] + tail;
        assert forall k :: 1 <= k < |blocks| ==> blocks[k] == tail[k - 1];
      } else {
        assert blocks == SplitFrom(keywords, current + [rest[0]], rest[1..]);
        SplitFromInterior(keywords, current + [rest[0]], rest[1..]);
      }
    }
  }

  lemma {:induction false} SplitFromNoKeyword(keywords: seq<string>, current: seq<string>, rest: seq<string>)
    requires forall i :: 0 <= i < |rest| ==> rest[i] !in keywords
    ensures SplitFrom(keywords, current, rest) == [current + rest]
    decreases |rest|
  {
    if |rest| > 0 {
      assert rest[0] !in keywords;
      assert SplitFrom(keywords, current, rest) == SplitFrom(keywords, current + [rest[0]], rest[1..]);
      SplitFromNoKeyword(keywords, current + [rest[0]], rest[1..]);
      assert rest == [rest[0]] + rest[1..];
      assert current + [rest[0]] + rest[1..] == current + rest;
    } else {
      assert current + rest == current;
    }
  }

  /** `SplitBlocks` has the promised shape; zero keywords after index 0 give
      exactly one block holding every token (and no tokens give one empty block). */
  lemma SplitBlocksProper(keywords: seq<string>, tokens: seq<string>)
    ensures ProperSplit(keywords, tokens, SplitBlocks(keywords, tokens))
    ensures (forall i :: 1 <= i < |tokens| ==> tokens[i] !in keywords) ==> SplitBlocks(keywords, tokens) == [tokens]
  {
    if |tokens| == 0 {
      assert Flatten<string>([[]]) == [] + Flatten<string>([]);
    } else {
      SplitFromFlatten(keywords, [tokens[0]], tokens[1..]);
      SplitFromHeads(keywords, [tokens[0]], tokens[1..]);
      SplitFromInterior(keywords, [tokens[0]], tokens[1..]);
      assert [tokens[0]] + tokens[1..] == tokens;
      if forall i :: 1 <= i < |tokens| ==> tokens[i] !in keywords {
        SplitFromNoKeyword(keywords, [tokens[0]], tokens[1..]);
      }
    }
  }

  predicate StartsUpper(t: string)
  {
    |t| > 0 && 'A' <= t[0] <= 'Z'
  }

  /** A token after index 0 that draws the "Did you miss parsing" diagnostic:
      not a keyword, but capitalised like one. */
  predicate Unhandled(keywords: seq<string>, t: string)
  {
    t !in keywords && StartsUpper(t)
  }

  /** The diagnostics for `tokens`, one per distinct token. */
  function UnhandledWords(keywords: seq<string>, tokens: seq<string>): set<string>
  {
    if |tokens| <= 1 then {}
    else
      var last := tokens[|tokens| - 1];
      UnhandledWords(keywords, tokens[..|tokens| - 1]) + (if Unhandled(keywords, last) then {last} else {})
  }

  lemma {:induction false} UnhandledWordsSpec(keywords: seq<string>, tokens: seq<string>)
    ensures forall w :: w in UnhandledWords(keywords, tokens) <==> exists i :: 1 <= i < |tokens| && tokens[i] == w && Unhandled(keywords, w)
  {
    if |tokens| > 1 {
      var n := |tokens| - 1;
      UnhandledWordsSpec(keywords, tokens[..n]);
      forall w ensures w in UnhandledWords(keywords, tokens) <==> exists i :: 1 <= i < |tokens| && tokens[i] == w && Unhandled(keywords, w)
      {
        if w in UnhandledWords(keywords, tokens[..n]) {
          var i :| 1 <= i < n && tokens[..n][i] == w && Unhandled(keywords, w);
          assert tokens[i] == w;
        }
        if exists i :: 1 <= i < |tokens| && tokens[i] == w && Unhandled(keywords, w) {
          var i :| 1 <= i < |tokens| && tokens[i] == w && Unhandled(keywords, w);
          if i < n {
            assert tokens[..n][i] == w;
          }
        }
      }
    }
  }

  lemma UnhandledWordsSnoc(keywords: seq<string>, tokens: seq<string>, idx: nat)
    requires 1 <= idx < |tokens|
    ensures Unhandled(keywords, tokens[idx]) ==>
      UnhandledWords(keywords, tokens[..idx + 1]) == UnhandledWords(keywords, tokens[..idx]) + {tokens[idx]}
    ensures !Unhandled(keywords, tokens[idx]) ==>
      UnhandledWords(keywords, tokens[..idx + 1]) == UnhandledWords(keywords, tokens[..idx])
  {
    assert tokens[..idx + 1][idx] == tokens[idx];
    assert tokens[..idx + 1][..idx] == tokens[..idx];
  }

  lemma SplitStepFirst(keywords: seq<string>, tokens: seq<string>)
    requires |tokens| > 0
    ensures SplitBlocks(keywords, tokens) == [] + SplitFrom(keywords, tokens[0..1], tokens[1..])
    ensures UnhandledWords(keywords, tokens[..1]) == {}
  {
    assert tokens[0..1] == [tokens[0]];
  }

  lemma SplitStepLast(keywords: seq<string>, tokens: seq<string>, semantic: seq<seq<string>>, start: nat)
    requires start < |tokens|
    requires SplitBlocks(keywords, tokens) == semantic + SplitFrom(keywords, tokens[start..|tokens|], tokens[|tokens|..])
    ensures SplitBlocks(keywords, tokens) == semantic + [tokens[start..|tokens|]]
  {
    assert tokens[|tokens|..] == [];
  }

  /** The loop step at a keyword: the block being filled is closed and a new
      one starts with the keyword. */
  lemma SplitStepKeyword(keywords: seq<string>, tokens: seq<string>, semantic: seq<seq<string>>, start: nat, idx: nat)
    requires start < idx < |tokens| && tokens[idx] in keywords
    requires SplitBlocks(keywords, tokens) == semantic + SplitFrom(keywords, tokens[start..idx], tokens[idx..])
    ensures SplitBlocks(keywords, tokens)
      == (semantic + [tokens[start..idx]]) + SplitFrom(keywords, tokens[idx..idx + 1], tokens[idx + 1..])
  {
    assert tokens[idx..][0] == tokens[idx] && tokens[idx..][1..] == tokens[idx + 1..];
    assert tokens[idx..idx + 1] == [tokens[idx]];
    var tail := SplitFrom(keywords, [tokens[idx]], tokens[idx + 1..]);
    assert semantic + ([tokens[start..idx]] + tail) == (semantic + [tokens[start..idx]]) + tail;
  }

  /** The loop step at any other token: it joins the block being filled. */
  lemma SplitStepOther(keywords: seq<string>, tokens: seq<string>, semantic: seq<seq<string>>, start: nat, idx: nat)
    requires start < idx < |tokens| && tokens[idx] !in keywords
    requires SplitBlocks(keywords, tokens) == semantic + SplitFrom(keywords, tokens[start..idx], tokens[idx..])
    ensures SplitBlocks(keywords, tokens) == semantic + SplitFrom(keywords, tokens[start..idx + 1], tokens[idx + 1..])
  {
    assert tokens[idx..][0] == tokens[idx] && tokens[idx..][1..] == tokens[idx + 1..];
    assert tokens[start..idx] + [tokens[idx]] == tokens[start..idx + 1];
  }

  /** The first loop of `split_by_keyword`, with the keyword list it consults
      (`TotalKeywords` in the converter). Reading the first character of an
      empty non-keyword token after index 0 raises. */
  method SplitByKeyword(tokens: seq<string>, keywords: seq<string>) returns (r: Result<seq<seq<string>>, ParseError>, warnings: set<string>)
    ensures r.Err? <==> "" !in keywords && exists i :: 1 <= i < |tokens| && tokens[i] == ""
    ensures r.Err? ==> r.error == EmptyTokenError
    ensures r.Ok? ==> r.value == SplitBlocks(keywords, tokens) && warnings == UnhandledWords(keywords, tokens)
  {
    var semantic: seq<seq<string>> := [];
    var upper: set<string> := {};
    if |tokens| == 0 {
      return Ok([tokens[0..0]]), {};
    }
    var start := 0;
    SplitStepFirst(keywords, tokens);
    for idx := 1 to |tokens|
      invariant start < idx
      invariant SplitBlocks(keywords, tokens) == semantic + SplitFrom(keywords, tokens[start..idx], tokens[idx..])
      invariant "" !in keywords ==> forall i :: 1 <= i < idx ==> tokens[i] != ""
      invariant upper == UnhandledWords(keywords, tokens[..idx])
    {
      var current := tokens[idx];
      UnhandledWordsSnoc(keywords, tokens, idx);
      if current in keywords {
        assert !Unhandled(keywords, current);
        SplitStepKeyword(keywords, tokens, semantic, start, idx);
        semantic := semantic + [tokens[start..idx]];
        start := idx;
        continue;
      }
      if |current| == 0 {
        return Err(EmptyTokenError), upper;
      }
      SplitStepOther(keywords, tokens, semantic, start, idx);
      if 'A' <= current[0] <= 'Z' {
        assert Unhandled(keywords, current);
        upper := upper + {current};
      } else {
        assert !Unhandled(keywords, current);
      }
    }
    SplitStepLast(keywords, tokens, semantic, start);
    semantic := semantic + [tokens[start..|tokens|]];
    assert tokens[..|tokens|] == tokens;
    r, warnings := Ok(semantic), upper;
  }

  // ---------------------------------------------------------------------
  // Include rewriting

  /** Python `os.path.basename`. */
  function PyBasename(p: string): string
  {
    match FindLast(p, '/')
    case None => p
    case Some(k) => p[k + 1..]
  }

  predicate AllSlashes(s: string)
  {
    forall k :: 0 <= k < |s| ==> s[k] == '/'
  }

  predicate IsSlash(c: char) { c == '/' }

  /** Python `os.path.dirname`: the text up to the last `/`, without trailing
      slashes unless it is made of slashes only. */
  function PyDirname(p: string): string
  {
    var i := match FindLast(p, '/') case None => 0 case Some(k) => k + 1;
    var head := p[..i];
    if |head| > 0 && !AllSlashes(head) then TrimEnd(head, IsSlash) else head
  }

  const SceneExtension: string := ".pbrt"
  const DocumentExtension: string := ".json"

  /** A block that triggers a nested conversion: exactly `Include` and a path
      ending in `.pbrt`. */
  predicate IsSceneInclude(block: seq<string>)
  {
    |block| == 2 && block[0] == "Include" && HasSuffix(block[1], SceneExtension)
  }

  /** The converted artefact's name, `basename.replace(".pbrt", ".json")`. */
  function DocumentBasename(p: string): string
  {
    ReplaceAll(PyBasename(p), SceneExtension, DocumentExtension)
  }

  /** The path an included scene file is rewritten to. */
  function IncludedDocumentPath(p: string): string
  {
    PyDirname(p) + "/" + DocumentBasename(p)
  }

  function RewriteBlock(block: seq<string>): seq<string>
  {
    if IsSceneInclude(block) then block[1 := IncludedDocumentPath(block[1])] else block
  }

  lemma {:induction false} ReplaceKeepsSuffix(s: string)
    requires HasSuffix(s, SceneExtension)
    ensures HasSuffix(ReplaceAll(s, SceneExtension, DocumentExtension), DocumentExtension)
    decreases |s|
  {
    var r := ReplaceAll(s, SceneExtension, DocumentExtension);
    if s[..5] == SceneExtension {
      // `.pbrt` overlaps no proper suffix of itself, so a string that starts
      // and ends with it is either exactly `.pbrt` or at least twice as long.
      assert s[|s| - 5] == s[|s| - 5..][0] == '.';
      assert forall m :: 1 <= m < 5 ==> s[m] == s[..5][m] != '.';
      if |s| == 5 {
        assert r == DocumentExtension + ReplaceAll([], SceneExtension, DocumentExtension);
      } else {
        assert |s| >= 10;
        ReplaceKeepsSuffix(s[5..]);
        assert s[5..][|s[5..]| - 5..] == s[|s| - 5..];
      }
    } else {
      assert |s| > 5;
      ReplaceKeepsSuffix(s[1..]);
      assert s[1..][|s[1..]| - 5..] == s[|s| - 5..];
    }
  }

  lemma BasenameKeepsSuffix(p: string)
    requires HasSuffix(p, SceneExtension)
    ensures HasSuffix(PyBasename(p), SceneExtension)
  {
    match FindLast(p, '/')
    case None =>
    case Some(k) =>
      assert p[|p| - 5..] == SceneExtension;
      assert forall m :: |p| - 5 <= m < |p| ==> p[m] == p[|p| - 5..][m - (|p| - 5)] != '/';
      assert k < |p| - 5;
      assert p[k + 1..][|p[k + 1..]| - 5..] == p[|p| - 5..];
  }

  /** Rewriting touches only `Include <x>.pbrt` blocks, keeps their shape, and
      points them at a `.json` file in the included file's folder. */
  lemma RewriteBlockSpec(block: seq<string>)
    ensures !IsSceneInclude(block) ==> RewriteBlock(block) == block
    ensures IsSceneInclude(block) ==>
      var r := RewriteBlock(block);
      |r| == 2 && r[0] == "Include" && HasSuffix(r[1], DocumentExtension)
      && r[1] == PyDirname(block[1]) + "/" + ReplaceAll(PyBasename(block[1]), SceneExtension, DocumentExtension)
      && r[1][..|PyDirname(block[1])| + 1] == PyDirname(block[1]) + "/"
  {
    if IsSceneInclude(block) {
      BasenameKeepsSuffix(block[1]);
      ReplaceKeepsSuffix(PyBasename(block[1]));
      var r1 := IncludedDocumentPath(block[1]);
      var d := DocumentBasename(block[1]);
      assert r1[|r1| - 5..] == d[|d| - 5..];
    }
  }

  lemma ReplaceExample()
    ensures DocumentBasename("m.pbrt") == "m.json"
  {
    assert FindLast("m.pbrt", '/') == None;
    assert ReplaceAll(".pbrt", ".pbrt", ".json") == ".json" + ReplaceAll("", ".pbrt", ".json");
    assert "m.pbrt"[..5] != ".pbrt";
    assert "m.pbrt"[1..] == ".pbrt";
  }

  lemma DirnameExample()
    ensures PyDirname("g/m.pbrt") == "g"
    ensures PyBasename("g/m.pbrt") == "m.pbrt"
  {
    assert FindLast("g/m.pbrt", '/') == Some(1);
    assert "g/m.pbrt"[..2] == "g/";
    assert "g/m.pbrt"[2..] == "m.pbrt";
    assert "g/"[0] == 'g';
    assert "g/"[..1] == "g";
    assert TrimEnd("g/", IsSlash) == TrimEnd("g", IsSlash) == "g";
  }

  /** A path with a folder keeps it. */
  lemma IncludeExampleFolder()
    ensures IncludedDocumentPath("g/m.pbrt") == "g/m.json"
  {
    ReplaceExample();
    DirnameExample();
    assert DocumentBasename("g/m.pbrt") == "m.json";
  }

  /** A bare file name gets a leading `/`: the folder is empty and the source
      still joins with `/`. */
  lemma IncludeExampleBare()
    ensures IncludedDocumentPath("m.pbrt") == "/m.json"
  {
    ReplaceExample();
    assert FindLast("m.pbrt", '/') == None;
    assert PyDirname("m.pbrt") == "";
  }

  /** Including something other than a scene file leaves the block alone. */
  lemma IncludeExampleOther()
    ensures RewriteBlock(["Include", "a.ply"]) == ["Include", "a.ply"]
  {
    assert "a.ply"[0..] != SceneExtension;
  }

  // ---------------------------------------------------------------------
  // Bracket cancelling

  /** `cancel_brackets`: the span from the first `[` to the first `]` becomes one
      nested list, until no `[` is left. A missing `]` raises; a `]` before the
      first `[` makes every call recurse again on a longer list (one more empty
      list per call) until CPython's recursion limit raises `RecursionError`,
      which the model reports as `BracketRecursionError`. */
  function CancelBrackets(vs: seq<Json>): Result<seq<Json>, ParseError>
    decreases |vs|
  {
    match IndexOf(vs, JStr("["))
    case None => Ok(vs)
    case Some(s) =>
      match IndexOf(vs, JStr("]"))
      case None => Err(MalformedBracketError)
      case Some(e) =>
        if e < s then Err(BracketRecursionError)
        else CancelBrackets(Collapse(vs, s, e))
  }

  /** Python's slice `vs[i:j]`, empty when `j <= i`. */
  function PySlice(vs: seq<Json>, i: nat, j: nat): seq<Json>
    requires i <= |vs| && j <= |vs|
  {
    if i <= j then vs[i..j] else []
  }

  /** The argument of the recursive call: the list up to the first `[`, the
      nested list `vs[s+1:e]`, then the list after the first `]`. */
  function Collapse(vs: seq<Json>, s: nat, e: nat): (r: seq<Json>)
    requires s < |vs| && e < |vs|
    ensures |r| == |vs| + s - e
    ensures forall k :: 0 <= k < s ==> r[k] == vs[k]
    ensures r[s] == JArr(PySlice(vs, s + 1, e))
    ensures forall k :: s < k < |r| ==> r[k] == vs[k - s + e]
  {
    vs[..s] + [JArr(PySlice(vs, s + 1, e))] + vs[e + 1..]
  }

  /** `x` occurs first at index `i` of `vs`. */
  predicate FirstAt(vs: seq<Json>, x: Json, i: nat)
  {
    i < |vs| && vs[i] == x && forall k :: 0 <= k < i ==> vs[k] != x
  }

  lemma FirstAtIndexOf(vs: seq<Json>, x: Json, i: nat)
    ensures FirstAt(vs, x, i) <==> IndexOf(vs, x) == Some(i)
  {
    var r := IndexOf(vs, x);
    if r.Some? {
      assert forall k :: 0 <= k < r.value ==> vs[k] == vs[..r.value][k];
      assert vs[r.value] == x;
    }
  }

  /** One step of the source's recursion when the first `]` (at `e`) precedes
      the first `[` (at `s`): the slice `[s+1:e]` is empty, the list grows, the
      first `]` stays at `e` and the first `[` moves right to `2s - e`, so the
      next call is in the same situation again and the recursion never ends. */
  lemma BracketRecursionRepeats(vs: seq<Json>, s: nat, e: nat)
    requires FirstAt(vs, JStr("["), s) && FirstAt(vs, JStr("]"), e) && e < s
    ensures |Collapse(vs, s, e)| > |vs|
    ensures FirstAt(Collapse(vs, s, e), JStr("["), 2 * s - e) && e < 2 * s - e
    ensures FirstAt(Collapse(vs, s, e), JStr("]"), e)
  {
    var next := Collapse(vs, s, e);
    assert next[2 * s - e] == vs[s];
    forall k | 0 <= k < 2 * s - e
      ensures next[k] != JStr("[")
    {
      if k > s {
        assert next[k] == vs[k - s + e];
      }
    }
  }

  /** The token sequence a value list stands for, with every nested list
      written out between `[` and `]` again: the partner of `CancelBrackets`. */
  function Expand(vs: seq<Json>): seq<Json>
    decreases vs
  {
    if |vs| == 0 then [] else ExpandOne(vs[0]) + Expand(vs[1..])
  }

  function ExpandOne(v: Json): seq<Json>
    decreases v
  {
    match v
    case JArr(items) => [JStr("[")] + Expand(items) + [JStr("]")]
    case _ => [v]
  }

  lemma {:induction false} ExpandAppend(a: seq<Json>, b: seq<Json>)
    ensures Expand(a + b) == Expand(a) + Expand(b)
    decreases |a|
  {
    if |a| > 0 {
      assert (a + b)[0] == a[0];
      assert (a + b)[1..] == a[1..] + b;
      ExpandAppend(a[1..], b);
      assert ExpandOne(a[0]) + (Expand(a[1..]) + Expand(b)) == (ExpandOne(a[0]) + Expand(a[1..])) + Expand(b);
    } else {
      assert a + b == b;
    }
  }

  lemma ExpandSingle(v: Json)
    ensures Expand([v]) == ExpandOne(v)
  {
    assert [v][1..] == [];
  }

  /** Replacing a bracketed span by one nested list does not change the
      written-out form. */
  lemma ExpandSplice(p: seq<Json>, mid: seq<Json>, q: seq<Json>)
    ensures Expand(p + [JArr(mid)] + q) == Expand(p + ([JStr("[")] + mid + [JStr("]")]) + q)
  {
    var open, close := [JStr("[")], [JStr("]")];
    var ep, em, eq := Expand(p), Expand(mid), Expand(q);
    ExpandAppend(p + [JArr(mid)], q);
    ExpandAppend(p, [JArr(mid)]);
    ExpandSingle(JArr(mid));
    assert Expand(p + [JArr(mid)] + q) == ep + (open + em + close) + eq;
    ExpandAppend(p + (open + mid + close), q);
    ExpandAppend(p, open + mid + close);
    ExpandAppend(open + mid, close);
    ExpandAppend(open, mid);
    ExpandSingle(JStr("["));
    ExpandSingle(JStr("]"));
    assert Expand(open + mid + close) == open + em + close;
  }

  function Words(ts: seq<string>): (vs: seq<Json>)
    ensures |vs| == |ts|
  {
    seq(|ts|, k requires 0 <= k < |ts| => JStr(ts[k]))
  }

  /** Bracket cancelling loses nothing: writing the nested lists out again
      gives the original block, and no `[` survives (so a second run is a
      no-op). */
  lemma {:induction false} CancelBracketsSpec(vs: seq<Json>)
    requires CancelBrackets(vs).Ok?
    ensures Expand(CancelBrackets(vs).value) == Expand(vs)
    ensures JStr("[") !in CancelBrackets(vs).value
    decreases |vs|
  {
    match IndexOf(vs, JStr("["))
    case None =>
    case Some(s) =>
      var e := IndexOf(vs, JStr("]")).value;
      assert vs[s] != vs[e] by {
        assert vs[s] == JStr("[") && vs[e] == JStr("]");
        assert "["[0] != "]"[0];
      }
      assert s < e;
      var p, mid, q := vs[..s], vs[s + 1..e], vs[e + 1..];
      assert CancelBrackets(vs) == CancelBrackets(Collapse(vs, s, e));
      CancelBracketsSpec(Collapse(vs, s, e));
      ExpandSplice(p, mid, q);
      SpliceParts(vs, s, e);
  }

  lemma SpliceParts(vs: seq<Json>, s: nat, e: nat)
    requires s < e < |vs|
    ensures vs == vs[..s] + ([vs[s]] + vs[s + 1..e] + [vs[e]]) + vs[e + 1..]
  {
    assert vs[s..e + 1] == [vs[s]] + vs[s + 1..e] + [vs[e]];
    assert vs[..e + 1] == vs[..s] + vs[s..e + 1];
    assert vs == vs[..e + 1] + vs[e + 1..];
  }

  /** Idempotence: cancelling an already cancelled block changes nothing. */
  lemma CancelBracketsIdempotent(vs: seq<Json>)
    requires CancelBrackets(vs).Ok?
    ensures CancelBrackets(CancelBrackets(vs).value) == CancelBrackets(vs)
  {
    CancelBracketsSpec(vs);
  }

  /** A directive with one bracketed pair of values, such as
      `Transform [ 1 0 ]`, becomes the directive and one nested list. */
  lemma CancelBracketsExample(d: string, u: string, v: string)
    requires d != "[" && d != "]" && u != "]" && v != "]"
    ensures CancelBrackets([JStr(d), JStr("["), JStr(u), JStr(v), JStr("]")])
      == Ok([JStr(d), JArr([JStr(u), JStr(v)])])
  {
    var w := [JStr(d), JStr("["), JStr(u), JStr(v), JStr("]")];
    assert "[" != "]" by { assert "["[0] != "]"[0]; }
    FirstAtIndexOf(w, JStr("["), 1);
    FirstAtIndexOf(w, JStr("]"), 4);
    var next := [JStr(d), JArr([JStr(u), JStr(v)])];
    assert w[..1] == [JStr(d)];
    assert w[2..4] == [JStr(u), JStr(v)];
    assert w[5..] == [];
    assert Collapse(w, 1, 4) == next;
    assert IndexOf(next, JStr("[")) == None;
  }

  /** An unclosed `[` and a `]` before the first `[` are both failures. */
  lemma CancelBracketsFailures()
    ensures CancelBrackets([JStr("Shape"), JStr("["), JStr("1")]) == Err(MalformedBracketError)
    ensures CancelBrackets([JStr("]"), JStr("[")]) == Err(BracketRecursionError)
  {
    var m := [JStr("Shape"), JStr("["), JStr("1")];
    assert IndexOf(m, JStr("[")) == Some(1);
    assert IndexOf(m, JStr("]")) == None;
    var b := [JStr("]"), JStr("[")];
    assert IndexOf(b, JStr("[")) == Some(1);
    assert IndexOf(b, JStr("]")) == Some(0);
  }

  // ---------------------------------------------------------------------
  // Document assembly

  function TokenKey(i: nat): string
  {
    "token_" + NatToString(i)
  }

  const LengthKey: string := "length"

  /** The entries `token_0 .. token_{n-1}` before the `length` field is added. */
  function BlockEntries(blocks: seq<seq<Json>>): map<string, Json>
  {
    if |blocks| == 0 then map[]
    else BlockEntries(blocks[..|blocks| - 1])[TokenKey(|blocks| - 1) := JArr(blocks[|blocks| - 1])]
  }

  function DocumentOf(blocks: seq<seq<Json>>): map<string, Json>
  {
    BlockEntries(blocks)[LengthKey := JNum(|blocks|)]
  }

  lemma TokenKeyInjective(i: nat, j: nat)
    requires TokenKey(i) == TokenKey(j)
    ensures i == j
  {
    assert TokenKey(i)[6..] == NatToString(i);
    assert TokenKey(j)[6..] == NatToString(j);
    NatToStringInjective(i, j);
  }

  lemma TokenKeyNotLength(i: nat)
    ensures TokenKey(i) != LengthKey
  {
    assert |TokenKey(i)| >= 7;
  }

  lemma {:induction false} BlockEntriesKeys(blocks: seq<seq<Json>>)
    ensures BlockEntries(blocks).Keys == set i | 0 <= i < |blocks| :: TokenKey(i)
    decreases |blocks|
  {
    if |blocks| > 0 {
      var n := |blocks| - 1;
      BlockEntriesKeys(blocks[..n]);
      var all := set i | 0 <= i < |blocks| :: TokenKey(i);
      var before := set i | 0 <= i < n :: TokenKey(i);
      forall x | x in all ensures x in before + {TokenKey(n)} {
        var i :| 0 <= i < |blocks| && x == TokenKey(i);
        if i < n {
          assert x in before;
        } else {
          assert i == n;
        }
      }
      forall x | x in before ensures x in all {
        var i :| 0 <= i < n && x == TokenKey(i);
        assert x in all;
      }
      assert TokenKey(n) in all;
      assert all == before + {TokenKey(n)};
      assert BlockEntries(blocks).Keys == BlockEntries(blocks[..n]).Keys + {TokenKey(n)};
    }
  }

  lemma {:induction false} BlockEntriesValues(blocks: seq<seq<Json>>)
    ensures forall i :: 0 <= i < |blocks| ==> TokenKey(i) in BlockEntries(blocks)
    ensures forall i :: 0 <= i < |blocks| ==> BlockEntries(blocks)[TokenKey(i)] == JArr(blocks[i])
    decreases |blocks|
  {
    if |blocks| > 0 {
      var n := |blocks| - 1;
      var prev := blocks[..n];
      BlockEntriesValues(prev);
      forall i | 0 <= i < n
        ensures BlockEntries(blocks)[TokenKey(i)] == JArr(blocks[i])
      {
        if TokenKey(i) == TokenKey(n) {
          TokenKeyInjective(i, n);
        }
        assert prev[i] == blocks[i];
      }
    }
  }

  /** The assembled document has exactly the keys `token_0 .. token_{n-1}` and
      `length`, holds block `i` under `token_i` in block order, and `length == n`. */
  lemma DocumentOfSpec(blocks: seq<seq<Json>>)
    ensures DocumentOf(blocks).Keys == (set i | 0 <= i < |blocks| :: TokenKey(i)) + {LengthKey}
    ensures DocumentOf(blocks)[LengthKey] == JNum(|blocks|)
    ensures forall i :: 0 <= i < |blocks| ==> DocumentOf(blocks)[TokenKey(i)] == JArr(blocks[i])
  {
    BlockEntriesKeys(blocks);
    BlockEntriesValues(blocks);
    forall i | 0 <= i < |blocks| ensures TokenKey(i) != LengthKey {
      TokenKeyNotLength(i);
    }
  }

  /** The `data` dictionary of `convert_pbrt`, filled block by block. */
  method AssembleDocument(blocks: seq<seq<Json>>) returns (data: map<string, Json>)
    ensures data == DocumentOf(blocks)
  {
    data := map[];
    for idx := 0 to |blocks|
      invariant data == BlockEntries(blocks[..idx])
    {
      assert blocks[..idx + 1][..idx] == blocks[..idx];
      data := data[TokenKey(idx) := JArr(blocks[idx])];
    }
    assert blocks[..|blocks|] == blocks;
    data := data[LengthKey := JNum(|blocks|)];
  }

  // ---------------------------------------------------------------------
  // The whole conversion

  function CancelAll(blocks: seq<seq<string>>): Result<seq<seq<Json>>, ParseError>
  {
    if |blocks| == 0 then Ok([])
    else match CancelBrackets(Words(blocks[0]))
      case Err(e) => Err(e)
      case Ok(b) =>
        match CancelAll(blocks[1..])
        case Err(e) => Err(e)
        case Ok(bs) => Ok([b] + bs)
  }

  function RewriteAll(blocks: seq<seq<string>>): (r: seq<seq<string>>)
    ensures |r| == |blocks|
  {
    seq(|blocks|, k requires 0 <= k < |blocks| => RewriteBlock(blocks[k]))
  }

  predicate NoSceneIncludes(blocks: seq<seq<string>>)
  {
    forall k :: 0 <= k < |blocks| ==> !IsSceneInclude(blocks[k])
  }

  function HasEmptyToken(tokens: seq<string>): bool
  {
    exists i :: 1 <= i < |tokens| && tokens[i] == ""
  }

  /** The document a list of split blocks converts to: includes rewritten,
      brackets cancelled, blocks numbered. */
  function BlocksDocument(blocks: seq<seq<string>>): Result<map<string, Json>, ParseError>
  {
    match CancelAll(RewriteAll(blocks))
    case Err(e) => Err(e)
    case Ok(cancelled) => Ok(DocumentOf(cancelled))
  }

  /** The document one scene file converts to, as a function of its lines,
      for a given keyword table (the converter's is `TotalKeywords`). */
  function DocumentFor(keywords: seq<string>, lines: seq<string>): Result<map<string, Json>, ParseError>
  {
    match Tokens(lines)
    case Err(e) => Err(e)
    case Ok(tokens) =>
      if "" !in keywords && HasEmptyToken(tokens) then Err(EmptyTokenError)
      else BlocksDocument(SplitBlocks(keywords, tokens))
  }

  datatype Written = Written(path: string, document: map<string, Json>)

  /** The last document written is `document`, saved at `target`. */
  predicate LastWritten(written: seq<Written>, target: string, document: Result<map<string, Json>, ParseError>)
  {
    document.Ok? && |written| >= 1 && written[|written| - 1] == Written(target, document.value)
  }

  /** The last document written is the one the scene file `source` converts
      to, saved at `target`. */
  predicate EndsWithDocument(written: seq<Written>, keywords: seq<string>, files: map<string, seq<string>>,
                             source: string, target: string)
  {
    source in files && LastWritten(written, target, DocumentFor(keywords, files[source]))
  }

  /** The blocks a scene file splits into, once its tokens are read. */
  function FileBlocks(keywords: seq<string>, lines: seq<string>): Result<seq<seq<string>>, ParseError>
  {
    match Tokens(lines)
    case Err(e) => Err(e)
    case Ok(tokens) =>
      if "" !in keywords && HasEmptyToken(tokens) then Err(EmptyTokenError)
      else Ok(SplitBlocks(keywords, tokens))
  }

  /** Every document `convert_pbrt` writes when it converts the scene file
      `source` into `target`, in the order it writes them: the documents of
      the scenes it includes, depth first and in block order, then its own.
      `depth` is the number of nested `convert_pbrt` calls the interpreter's
      stack still allows; a call with none left fails. */
  function Converted(keywords: seq<string>, files: map<string, seq<string>>, source: string, target: string,
                     depth: nat): Result<seq<Written>, ParseError>
    decreases depth, 0
  {
    if depth == 0 then Err(RecursionLimit)
    else OpenedConverted(keywords, files, source, target, depth - 1)
  }

  /** The call itself: the scene file is opened, or the call fails. */
  function OpenedConverted(keywords: seq<string>, files: map<string, seq<string>>, source: string, target: string,
                           depth: nat): Result<seq<Written>, ParseError>
    decreases depth, 6
  {
    if source !in files then Err(FileNotFound(source))
    else LinesConverted(keywords, files[source], files, source, target, depth)
  }

  /** The conversion of the lines read: tokenize and split them, `out_dir` is
      the directory of `target` and `in_root` that of `source`. */
  function LinesConverted(keywords: seq<string>, lines: seq<string>, files: map<string, seq<string>>, source: string,
                          target: string, depth: nat): Result<seq<Written>, ParseError>
    decreases depth, 5
  {
    match FileBlocks(keywords, lines)
    case Err(e) => Err(e)
    case Ok(blocks) => BlocksConverted(keywords, blocks, files, PyDirname(target), target, PyDirname(source), depth)
  }

  /** The rest of the conversion once the blocks are split: the included
      scenes are converted while `split_by_keyword` runs, then the brackets are
      cancelled and the document is written. */
  function BlocksConverted(keywords: seq<string>, blocks: seq<seq<string>>, files: map<string, seq<string>>,
                           outDir: string, outFile: string, inRoot: string, depth: nat): Result<seq<Written>, ParseError>
    decreases depth, 4
  {
    match IncludesConverted(keywords, blocks, |blocks|, outDir, inRoot, files, depth)
    case Err(e) => Err(e)
    case Ok(nested) =>
      match BlocksDocument(blocks)
      case Err(e) => Err(e)
      case Ok(document) => Ok(nested + [Written(outFile, document)])
  }

  /** The documents the scene includes among the first `n` blocks write, in
      block order; the first failure ends the loop. */
  function IncludesConverted(keywords: seq<string>, blocks: seq<seq<string>>, n: nat, outRoot: string,
                             inRoot: string, files: map<string, seq<string>>, depth: nat): Result<seq<Written>, ParseError>
    requires n <= |blocks|
    decreases depth, 3, n
  {
    if n == 0 then Ok([])
    else match IncludesConverted(keywords, blocks, n - 1, outRoot, inRoot, files, depth)
      case Err(e) => Err(e)
      case Ok(before) =>
        match BlockConverted(keywords, blocks[n - 1], outRoot, inRoot, files, depth)
        case Err(e) => Err(e)
        case Ok(nested) => Ok(before + nested)
  }

  /** The documents one block writes: only a scene include writes any. */
  function BlockConverted(keywords: seq<string>, block: seq<string>, outRoot: string, inRoot: string,
                          files: map<string, seq<string>>, depth: nat): Result<seq<Written>, ParseError>
    decreases depth, 2
  {
    if IsSceneInclude(block) then IncludeConverted(keywords, block[1], outRoot, inRoot, files, depth) else Ok([])
  }

  /** The documents the nested call converting the included scene
      `<in_root>/<x>` into `<out_root>/<dirname(x)>/<basename>.json` writes. */
  function IncludeConverted(keywords: seq<string>, included: string, outRoot: string, inRoot: string,
                            files: map<string, seq<string>>, depth: nat): Result<seq<Written>, ParseError>
    decreases depth, 1
  {
    Converted(keywords, files, inRoot + "/" + included, outRoot + "/" + IncludedDocumentPath(included), depth)
  }

  lemma DocumentForFile(keywords: seq<string>, lines: seq<string>)
    ensures FileBlocks(keywords, lines).Err? ==> DocumentFor(keywords, lines) == Err(FileBlocks(keywords, lines).error)
    ensures FileBlocks(keywords, lines).Ok? ==> DocumentFor(keywords, lines) == BlocksDocument(FileBlocks(keywords, lines).value)
  {
  }

  /** The conversion of a scene's lines succeeds exactly when they split into
      blocks, every scene they include converts and the brackets cancel; it
      then writes the included scenes' documents and, last, its own. */
  lemma LinesConvertedOutcome(keywords: seq<string>, lines: seq<string>, files: map<string, seq<string>>,
                              source: string, target: string, depth: nat)
    ensures var r := LinesConverted(keywords, lines, files, source, target, depth);
      r.Ok? <==>
        FileBlocks(keywords, lines).Ok? && DocumentFor(keywords, lines).Ok?
        && IncludesConverted(keywords, FileBlocks(keywords, lines).value, |FileBlocks(keywords, lines).value|,
                             PyDirname(target), PyDirname(source), files, depth).Ok?
    ensures var r := LinesConverted(keywords, lines, files, source, target, depth);
      r.Ok? ==> (r.value ==
        IncludesConverted(keywords, FileBlocks(keywords, lines).value, |FileBlocks(keywords, lines).value|,
                          PyDirname(target), PyDirname(source), files, depth).value
        + [Written(target, DocumentFor(keywords, lines).value)])
  {
    DocumentForFile(keywords, lines);
  }

  /** A conversion succeeds exactly when the stack allows the call, the file
      is present, splits into blocks, converts every scene it includes (one
      level deeper) and cancels its brackets; it then writes the included
      scenes' documents and, last, its own. */
  lemma ConvertedOutcome(keywords: seq<string>, files: map<string, seq<string>>, source: string,
                         target: string, depth: nat)
    ensures var r := Converted(keywords, files, source, target, depth);
      r.Ok? <==>
        depth > 0 && source in files && FileBlocks(keywords, files[source]).Ok? && DocumentFor(keywords, files[source]).Ok?
        && IncludesConverted(keywords, FileBlocks(keywords, files[source]).value, |FileBlocks(keywords, files[source]).value|,
                             PyDirname(target), PyDirname(source), files, depth - 1).Ok?
    ensures var r := Converted(keywords, files, source, target, depth);
      r.Ok? ==> (r.value ==
        IncludesConverted(keywords, FileBlocks(keywords, files[source]).value, |FileBlocks(keywords, files[source]).value|,
                          PyDirname(target), PyDirname(source), files, depth - 1).value
        + [Written(target, DocumentFor(keywords, files[source]).value)])
  {
    if depth > 0 && source in files {
      LinesConvertedOutcome(keywords, files[source], files, source, target, depth - 1);
    }
  }

  /** The last document a successful conversion writes is the file's own. */
  lemma ConvertedEnds(keywords: seq<string>, files: map<string, seq<string>>, source: string, target: string, depth: nat)
    requires Converted(keywords, files, source, target, depth).Ok?
    ensures EndsWithDocument(Converted(keywords, files, source, target, depth).value, keywords, files, source, target)
  {
    ConvertedOutcome(keywords, files, source, target, depth);
    var w := Converted(keywords, files, source, target, depth).value;
    assert w[|w| - 1] == Written(target, DocumentFor(keywords, files[source]).value);
  }

  /** The include loop succeeds exactly when every block among the first `n`
      converts. */
  lemma {:induction false} IncludesConvertedOutcome(keywords: seq<string>, blocks: seq<seq<string>>, n: nat, outRoot: string,
                                                    inRoot: string, files: map<string, seq<string>>, depth: nat)
    requires n <= |blocks|
    ensures IncludesConverted(keywords, blocks, n, outRoot, inRoot, files, depth).Ok? <==>
      forall k :: 0 <= k < n ==> BlockConverted(keywords, blocks[k], outRoot, inRoot, files, depth).Ok?
  {
    if n > 0 {
      IncludesConvertedOutcome(keywords, blocks, n - 1, outRoot, inRoot, files, depth);
    }
  }

  /** Without scene includes the include loop writes nothing. */
  lemma {:induction false} IncludesConvertedNone(keywords: seq<string>, blocks: seq<seq<string>>, n: nat, outRoot: string,
                                                 inRoot: string, files: map<string, seq<string>>, depth: nat)
    requires n <= |blocks|
    requires forall k :: 0 <= k < n ==> !IsSceneInclude(blocks[k])
    ensures IncludesConverted(keywords, blocks, n, outRoot, inRoot, files, depth) == Ok([])
  {
    if n > 0 {
      IncludesConvertedNone(keywords, blocks, n - 1, outRoot, inRoot, files, depth);
      var empty: seq<Written> := [];
      assert empty + empty == empty;
    }
  }

  /** Once the include loop fails, its later rounds do not run: the error is
      the loop's result. */
  lemma {:induction false} IncludesFailureStays(keywords: seq<string>, blocks: seq<seq<string>>, n: nat, m: nat,
                                                outRoot: string, inRoot: string, files: map<string, seq<string>>, depth: nat)
    requires n <= m <= |blocks|
    requires IncludesConverted(keywords, blocks, n, outRoot, inRoot, files, depth).Err?
    ensures IncludesConverted(keywords, blocks, m, outRoot, inRoot, files, depth)
         == IncludesConverted(keywords, blocks, n, outRoot, inRoot, files, depth)
    decreases m
  {
    if m > n {
      IncludesFailureStays(keywords, blocks, n, m - 1, outRoot, inRoot, files, depth);
    }
  }

  /** Lines that include no scene convert to their own document only. */
  lemma LeafLinesConvert(keywords: seq<string>, lines: seq<string>, files: map<string, seq<string>>, source: string,
                         target: string, depth: nat)
    requires FileBlocks(keywords, lines).Ok? && NoSceneIncludes(FileBlocks(keywords, lines).value)
    requires DocumentFor(keywords, lines).Ok?
    ensures LinesConverted(keywords, lines, files, source, target, depth) == Ok([Written(target, DocumentFor(keywords, lines).value)])
  {
    var blocks := FileBlocks(keywords, lines).value;
    IncludesConvertedNone(keywords, blocks, |blocks|, PyDirname(target), PyDirname(source), files, depth);
    DocumentForFile(keywords, lines);
    var own := [Written(target, DocumentFor(keywords, lines).value)];
    assert [] + own == own;
  }

  /** A scene that includes no scene converts whenever the stack allows the
      call, writing only its own document. */
  lemma LeafSceneConverts(keywords: seq<string>, files: map<string, seq<string>>, source: string, target: string, depth: nat)
    requires depth > 0 && source in files && FileBlocks(keywords, files[source]).Ok?
    requires NoSceneIncludes(FileBlocks(keywords, files[source]).value)
    requires DocumentFor(keywords, files[source]).Ok?
    ensures Converted(keywords, files, source, target, depth) == Ok([Written(target, DocumentFor(keywords, files[source]).value)])
  {
    LeafLinesConvert(keywords, files[source], files, source, target, depth - 1);
  }

  /** The depth only cuts the nesting off: a conversion that succeeds within
      a depth gives the same documents with any larger one. */
  lemma {:induction false} ConvertedDeeper(keywords: seq<string>, files: map<string, seq<string>>, source: string,
                                           target: string, depth: nat)
    requires Converted(keywords, files, source, target, depth).Ok?
    ensures Converted(keywords, files, source, target, depth + 1) == Converted(keywords, files, source, target, depth)
    decreases depth, 0
  {
    OpenedConvertedDeeper(keywords, files, source, target, depth - 1);
  }

  lemma {:induction false} OpenedConvertedDeeper(keywords: seq<string>, files: map<string, seq<string>>, source: string,
                                                 target: string, depth: nat)
    requires OpenedConverted(keywords, files, source, target, depth).Ok?
    ensures OpenedConverted(keywords, files, source, target, depth + 1) == OpenedConverted(keywords, files, source, target, depth)
    decreases depth, 6
  {
    LinesConvertedDeeper(keywords, files[source], files, source, target, depth);
  }

  lemma {:induction false} LinesConvertedDeeper(keywords: seq<string>, lines: seq<string>, files: map<string, seq<string>>,
                                                source: string, target: string, depth: nat)
    requires LinesConverted(keywords, lines, files, source, target, depth).Ok?
    ensures LinesConverted(keywords, lines, files, source, target, depth + 1)
         == LinesConverted(keywords, lines, files, source, target, depth)
    decreases depth, 5
  {
    var blocks := FileBlocks(keywords, lines).value;
    BlocksConvertedDeeper(keywords, blocks, files, PyDirname(target), target, PyDirname(source), depth);
  }

  lemma {:induction false} BlocksConvertedDeeper(keywords: seq<string>, blocks: seq<seq<string>>, files: map<string, seq<string>>,
                                                 outDir: string, outFile: string, inRoot: string, depth: nat)
    requires BlocksConverted(keywords, blocks, files, outDir, outFile, inRoot, depth).Ok?
    ensures BlocksConverted(keywords, blocks, files, outDir, outFile, inRoot, depth + 1)
         == BlocksConverted(keywords, blocks, files, outDir, outFile, inRoot, depth)
    decreases depth, 4
  {
    IncludesConvertedDeeper(keywords, blocks, |blocks|, outDir, inRoot, files, depth);
  }

  lemma {:induction false} IncludesConvertedDeeper(keywords: seq<string>, blocks: seq<seq<string>>, n: nat, outRoot: string,
                                                   inRoot: string, files: map<string, seq<string>>, depth: nat)
    requires n <= |blocks|
    requires IncludesConverted(keywords, blocks, n, outRoot, inRoot, files, depth).Ok?
    ensures IncludesConverted(keywords, blocks, n, outRoot, inRoot, files, depth + 1)
         == IncludesConverted(keywords, blocks, n, outRoot, inRoot, files, depth)
    decreases depth, 3, n
  {
    if n > 0 {
      IncludesConvertedDeeper(keywords, blocks, n - 1, outRoot, inRoot, files, depth);
      BlockConvertedDeeper(keywords, blocks[n - 1], outRoot, inRoot, files, depth);
    }
  }

  lemma {:induction false} BlockConvertedDeeper(keywords: seq<string>, block: seq<string>, outRoot: string, inRoot: string,
                                                files: map<string, seq<string>>, depth: nat)
    requires BlockConverted(keywords, block, outRoot, inRoot, files, depth).Ok?
    ensures BlockConverted(keywords, block, outRoot, inRoot, files, depth + 1)
         == BlockConverted(keywords, block, outRoot, inRoot, files, depth)
    decreases depth, 2
  {
    if IsSceneInclude(block) {
      ConvertedDeeper(keywords, files, inRoot + "/" + block[1], outRoot + "/" + IncludedDocumentPath(block[1]), depth);
    }
  }

  /** `convert_pbrt` with the converter's own keyword table. */
  method ConvertScene(files: map<string, seq<string>>, outFile: string, pbrtFile: string, depth: nat)
    returns (r: Result<seq<Written>, ParseError>)
    ensures r == Converted(TotalKeywords, files, pbrtFile, outFile, depth)
    ensures depth > 0 && pbrtFile !in files ==> r == Err(FileNotFound(pbrtFile))
    ensures r.Ok? ==> EndsWithDocument(r.value, TotalKeywords, files, pbrtFile, outFile)
  {
    r := ConvertPbrt(TotalKeywords, files, outFile, pbrtFile, depth);
    if r.Ok? {
      ConvertedEnds(TotalKeywords, files, pbrtFile, outFile, depth);
    }
  }

  /** `convert_pbrt`: converts `pbrtFile`, first converting every scene it
      includes (depth first, in block order), and lists the documents written,
      the top-level one last. */
  method ConvertPbrt(keywords: seq<string>, files: map<string, seq<string>>, outFile: string,
                     pbrtFile: string, depth: nat)
    returns (r: Result<seq<Written>, ParseError>)
    ensures r == Converted(keywords, files, pbrtFile, outFile, depth)
    decreases depth, 0
  {
    if depth == 0 {
      return Err(RecursionLimit);
    }
    if pbrtFile !in files {
      return Err(FileNotFound(pbrtFile));
    }
    r := ConvertLines(keywords, files[pbrtFile], files, outFile, pbrtFile, depth - 1);
  }

  /** The body of `convert_pbrt` once the file is read: tokenize, split into
      blocks (converting the included scenes), cancel brackets, write. */
  method ConvertLines(keywords: seq<string>, lines: seq<string>, files: map<string, seq<string>>,
                      outFile: string, pbrtFile: string, depth: nat)
    returns (r: Result<seq<Written>, ParseError>)
    ensures r == LinesConverted(keywords, lines, files, pbrtFile, outFile, depth)
    ensures r.Ok? ==> LastWritten(r.value, outFile, DocumentFor(keywords, lines))
    decreases depth, 5
  {
    var tokens :- Tokenize(lines);
    var outDir := PyDirname(outFile);
    var split, warnings := SplitByKeyword(tokens, keywords);
    if split.Err? {
      return Err(split.error);
    }
    r := ConvertBlocks(keywords, split.value, files, outDir, outFile, PyDirname(pbrtFile), depth);
    if r.Ok? {
      DocumentForBlocks(keywords, lines, tokens);
    }
  }

  lemma DocumentForBlocks(keywords: seq<string>, lines: seq<string>, tokens: seq<string>)
    requires Tokens(lines) == Ok(tokens) && !("" !in keywords && HasEmptyToken(tokens))
    ensures DocumentFor(keywords, lines) == BlocksDocument(SplitBlocks(keywords, tokens))
  {
  }

  /** The rest of `convert_pbrt` once the blocks are split: includes are
      resolved, brackets cancelled in every block and the document written. */
  method ConvertBlocks(keywords: seq<string>, blocks: seq<seq<string>>, files: map<string, seq<string>>,
                       outDir: string, outFile: string, inRoot: string, depth: nat)
    returns (r: Result<seq<Written>, ParseError>)
    ensures r == BlocksConverted(keywords, blocks, files, outDir, outFile, inRoot, depth)
    ensures r.Ok? ==> LastWritten(r.value, outFile, BlocksDocument(blocks))
    decreases depth, 4
  {
    var rewritten :- ResolveIncludes(keywords, blocks, outDir, inRoot, files, depth);
    var cancelled :- CancelAll(rewritten.0);
    var data := AssembleDocument(cancelled);
    var written := rewritten.1 + [Written(outFile, data)];
    assert written[|written| - 1] == Written(outFile, data);
    r := Ok(written);
  }

  /** `semantic` holds the rewritten blocks before `idx` and the original ones after. */
  predicate RewrittenUpTo(semantic: seq<seq<string>>, blocks: seq<seq<string>>, idx: nat)
  {
    |semantic| == |blocks| && idx <= |blocks|
    && (forall k :: 0 <= k < idx ==> semantic[k] == RewriteBlock(blocks[k]))
    && (forall k :: idx <= k < |blocks| ==> semantic[k] == blocks[k])
  }

  lemma RewriteStep(semantic: seq<seq<string>>, blocks: seq<seq<string>>, idx: nat)
    requires RewrittenUpTo(semantic, blocks, idx) && idx < |blocks|
    ensures !IsSceneInclude(blocks[idx]) ==> RewrittenUpTo(semantic, blocks, idx + 1)
    ensures IsSceneInclude(blocks[idx]) ==>
      RewrittenUpTo(semantic[idx := blocks[idx][1 := IncludedDocumentPath(blocks[idx][1])]], blocks, idx + 1)
  {
  }

  lemma RewriteDone(semantic: seq<seq<string>>, blocks: seq<seq<string>>)
    requires RewrittenUpTo(semantic, blocks, |blocks|)
    ensures semantic == RewriteAll(blocks)
  {
  }

  /** The second loop of `split_by_keyword`: every `Include <x>.pbrt` block
      has its scene converted (see `ConvertInclude`) and is rewritten in place
      to `<dirname(x)>/<basename>.json`. */
  method ResolveIncludes(keywords: seq<string>, blocks: seq<seq<string>>, outRoot: string, inRoot: string,
                         files: map<string, seq<string>>, depth: nat)
    returns (r: Result<(seq<seq<string>>, seq<Written>), ParseError>)
    ensures r.Ok? <==> IncludesConverted(keywords, blocks, |blocks|, outRoot, inRoot, files, depth).Ok?
    ensures r.Ok? ==> r.value == (RewriteAll(blocks), IncludesConverted(keywords, blocks, |blocks|, outRoot, inRoot, files, depth).value)
    ensures r.Err? ==> r.error == IncludesConverted(keywords, blocks, |blocks|, outRoot, inRoot, files, depth).error
    decreases depth, 3
  {
    var semantic := blocks;
    var written: seq<Written> := [];
    for idx := 0 to |semantic|
      invariant RewrittenUpTo(semantic, blocks, idx)
      invariant IncludesConverted(keywords, blocks, idx, outRoot, inRoot, files, depth) == Ok(written)
    {
      RewriteStep(semantic, blocks, idx);
      var resolved := ResolveBlock(keywords, semantic[idx], outRoot, inRoot, files, depth);
      if resolved.Err? {
        IncludesFailureStays(keywords, blocks, idx + 1, |blocks|, outRoot, inRoot, files, depth);
        return Err(resolved.error);
      }
      if IsSceneInclude(semantic[idx]) {
        semantic := semantic[idx := resolved.value.0];
      }
      written := written + resolved.value.1;
    }
    RewriteDone(semantic, blocks);
    r := Ok((semantic, written));
  }

  /** One iteration of that loop: a block other than `Include <x>.pbrt` is
      left alone; an include has its scene converted and its path rewritten. */
  method ResolveBlock(keywords: seq<string>, current: seq<string>, outRoot: string, inRoot: string,
                      files: map<string, seq<string>>, depth: nat)
    returns (r: Result<(seq<string>, seq<Written>), ParseError>)
    ensures r.Ok? <==> BlockConverted(keywords, current, outRoot, inRoot, files, depth).Ok?
    ensures r.Ok? ==> r.value == (RewriteBlock(current), BlockConverted(keywords, current, outRoot, inRoot, files, depth).value)
    ensures r.Err? ==> r.error == BlockConverted(keywords, current, outRoot, inRoot, files, depth).error
    ensures !IsSceneInclude(current) ==> r == Ok((current, []))
    decreases depth, 2
  {
    if |current| != 2 {
      return Ok((current, []));
    }
    if current[0] == "Include" && HasSuffix(current[1], SceneExtension) {
      var nested :- ConvertInclude(keywords, current[1], outRoot, inRoot, files, depth);
      return Ok((current[1 := IncludedDocumentPath(current[1])], nested));
    }
    return Ok((current, []));
  }

  /** The include branch of `split_by_keyword`: the scene `<in_root>/<x>` is
      converted into `<out_root>/<dirname(x)>/<basename>.json`, after every
      scene it includes in turn. */
  method ConvertInclude(keywords: seq<string>, included: string, outRoot: string, inRoot: string,
                        files: map<string, seq<string>>, depth: nat)
    returns (r: Result<seq<Written>, ParseError>)
    ensures r == IncludeConverted(keywords, included, outRoot, inRoot, files, depth)
    decreases depth, 1
  {
    var converted := outRoot + "/" + IncludedDocumentPath(included);
    r := ConvertPbrt(keywords, files, converted, inRoot + "/" + included, depth);
  }
}
