# A verified model of the pbrt scene pipeline

This project models, in Dafny, the scene-description half of a small
physically based renderer and the discrete machinery around its rendering
core. It covers these parts:

- **The converter** (`pbrt_parser.py`). It turns a text scene file into a
  JSON document. It tokenizes the lines, splits the tokens into one block
  per directive keyword, and converts every included scene file first,
  rewriting the `Include` path. It then cancels each `[ ... ]` run into one
  nested list and writes the blocks as `token_0 .. token_{n-1}` plus
  `length`.
- **The scene-file lexer** (`src/scene/lexer.rs`). This is a cursor over the
  characters of a file, with a position and a line counter.
- **The path helpers** (`src/scene/util.rs`) and **the typed parameter
  dictionary** (`src/scene/parameter_dict.rs`).
- **The scene builder** (`src/scene/scene_builder.rs`). It reads the
  converter's document directive by directive as a stack machine over
  graphics states. It keeps a map of named coordinate systems, a list of
  shapes, and the film and camera entities.
- **The piecewise-linear spectrum** (`src/spectra/const_piecewise_linear_spectrum.rs`).
  This covers its binary interval search, evaluation, scaling, inner product
  and interleaved constructors.
- **The BVH accelerator** (`src/accelerator/bvh.rs`). This covers the
  midpoint-split build, the depth-first flattening into an array and the
  stack-based traversal.
- **The BxDF flag algebra** (`src/base/bxdf.rs`), **the RGB-to-spectrum
  table layout** (`src/spectra/rgb_to_spectrum_table.rs`) and **the
  stratified sampler** (`src/samplers/stratified.rs`).

One Dafny module models each source file:

| Module | File | Source |
|---|---|---|
| `PbrtParser` | `pbrt_parser.dfy` | `pbrt_parser.py` |
| `SceneLexer` | `lexer.dfy` | `src/scene/lexer.rs` |
| `SceneUtil` | `scene_util.dfy` | `src/scene/util.rs` |
| `SceneParameters` | `parameter_dict.dfy` | `src/scene/parameter_dict.rs` |
| `Scene` | `scene_builder.dfy` | `src/scene/scene_builder.rs` |
| `ConstSpectrum` | `spectrum.dfy` | `src/spectra/const_piecewise_linear_spectrum.rs` |
| `Bvh` | `bvh.dfy` | `src/accelerator/bvh.rs` |
| `Bxdf` | `bxdf.dfy` | `src/base/bxdf.rs` |
| `RgbTable` | `rgb_table.dfy` | `src/spectra/rgb_to_spectrum_table.rs` |
| `Stratified` | `stratified.dfy` | `src/samplers/stratified.rs` |

Three further modules are shared:

- `Wrappers` holds `Option` and `Result`.
- `Json` holds the JSON values that pass between the converter and the
  builder.
- `Strings` holds string helpers: splitting, searching, suffixes and
  number printing.

Some conventions hold throughout:

- **Panics and exceptions are error results.** Every panic, failed
  assertion, Python exception or `unwrap` on a missing value becomes an
  `Err` of a datatype that names the cause. Callers are never required to
  avoid them.
- **Non-termination is an explicit outcome.** The source loops forever in
  some cases:
  - the lexer on a comment or a quoted string that never ends;
  - `cancel_brackets` when a `]` comes before the first `[`;
  - the converter and the builder on cyclic includes.

  The model reports each of these as an error. Include nesting is bounded by
  a `depth` or `fuel` parameter.
- **Floating-point numbers are `real`.** Arithmetic and ordering are exact,
  and rounding is not modelled. Parsing numbers from text is a function
  parameter that stands for Rust's `str::parse`. Transforms are symbolic
  matrix terms.
- **Files and randomness are parameters.**
  - Files are a map from path to contents.
  - The documents the converter writes are returned as a list.
  - The random number generator is a stream of draws.
- **The shape of each source file is kept.**
  - Code that changes state step by step is a class with `modifies` clauses,
    or a method with loops. Examples are `Lexer`, `ParameterDict`,
    `SceneBuilder`, `BvhAggregate`, `RgbToSpectrumTable`, `StratifiedSampler`,
    and the loops of the converter and the spectrum.
  - Each such method is proved against a specification function.
  - The properties are lemmas about those functions.

## Model

| member | source | states |
|---|---|---|
| PbrtParser.LineWordsComment | pbrt_parser.py:60-66 | A line's words ignore everything from its first `#` on. |
| PbrtParser.CommentLineAddsNothing | pbrt_parser.py:60-66 | A line that is all comment adds no token to the raw token list. |
| PbrtParser.RawTokens | pbrt_parser.py:59-66 | Every raw token is non-empty and holds no whitespace. |
| PbrtParser.ReadWords | pbrt_parser.py:59-66 | The first loop of `tokenize` collects exactly the words of the lines, in line order. |
| PbrtParser.RawTokensStep | pbrt_parser.py:59-66 | One more line appends exactly that line's words. |
| PbrtParser.JoinQuoted | pbrt_parser.py:68-82 | The merge loop computes the quote reassembly `Assemble`. A lone trailing opener, which indexes out of range in the source, is an error. |
| PbrtParser.AssembleOutcome | pbrt_parser.py:68-82 | Reassembly fails only when the last raw token opens a `"` phrase. With no opener it returns the raw tokens unchanged. |
| PbrtParser.AssembleRoundTrip | pbrt_parser.py:68-82 | Splitting every reassembled token at its space gives back the raw tokens. Reassembly joins an opener with exactly the next token by one space. |
| PbrtParser.AssembleExamples | pbrt_parser.py:75-82 | `"float fov"` split in two is rejoined. A single-quoted opener is not rejoined, because the merge checks only `"`. A trailing opener fails. |
| PbrtParser.TrimQuote | pbrt_parser.py:84-88 | One matching pair of `"` or of `'` is removed: the result is the inner characters. Any other token comes back unchanged. |
| PbrtParser.TrimQuoteRoundTrip | pbrt_parser.py:84-88 | Trimming undoes quoting with either quote character. |
| PbrtParser.TrimQuoteExamples | pbrt_parser.py:84-88 | Trimming a double-quoted word, a single-quoted word, a lone `"` (which becomes empty) and an unquoted word. |
| PbrtParser.TrimAll | pbrt_parser.py:90 | Trimming keeps the number of tokens. |
| PbrtParser.Tokenize | pbrt_parser.py:58-90 | `tokenize` equals the specification `Tokens`: the words, then reassembly, then trimming. |
| PbrtParser.SplitFrom | pbrt_parser.py:96-110 | The block being filled is the start of the first block produced. At least one block is produced. |
| PbrtParser.SplitFromFlatten | pbrt_parser.py:96-110 | Concatenating the blocks gives back the tokens exactly. |
| PbrtParser.SplitFromHeads | pbrt_parser.py:98-105 | Every block after the first starts with a keyword. |
| PbrtParser.SplitFromInterior | pbrt_parser.py:98-105 | No block holds a keyword past its first position. |
| PbrtParser.SplitFromNoKeyword | pbrt_parser.py:98-110 | With no keyword left, the rest joins the current block. |
| PbrtParser.SplitBlocksProper | pbrt_parser.py:96-110 | The split is proper: its blocks concatenate to the input, each later block starts with a keyword, and no block holds an inner keyword. With no keyword after index 0 there is exactly one block. |
| PbrtParser.UnhandledWordsSpec | pbrt_parser.py:107-108 | The "Did you miss parsing" diagnostics are exactly the upper-case non-keyword tokens after index 0. |
| PbrtParser.UnhandledWordsSnoc | pbrt_parser.py:107-108 | The diagnostic set grows by one token exactly when that token is unhandled. |
| PbrtParser.SplitStepFirst | pbrt_parser.py:97-100 | The loop skips index 0, which opens the first block, and records no diagnostic for it. |
| PbrtParser.SplitStepKeyword | pbrt_parser.py:102-105 | At a keyword, the block being filled is closed and a new one starts at the keyword. |
| PbrtParser.SplitStepOther | pbrt_parser.py:107-108 | Any other token joins the block being filled. |
| PbrtParser.SplitStepLast | pbrt_parser.py:110 | After the loop, the block being filled is appended. |
| PbrtParser.SplitByKeyword | pbrt_parser.py:93-110 | The first loop fails exactly when a token after index 0 is empty and so has no `[0]`, unless `""` is a keyword. Otherwise it returns `SplitBlocks` and the set of diagnostics. |
| PbrtParser.ReplaceKeepsSuffix | pbrt_parser.py:121-122 | Replacing every `.pbrt` in a name that ends with `.pbrt` leaves a name that ends with `.json`. |
| PbrtParser.BasenameKeepsSuffix | pbrt_parser.py:121 | The base name of a `.pbrt` path still ends with `.pbrt`. |
| PbrtParser.RewriteBlockSpec | pbrt_parser.py:112-131 | Only a block of exactly `Include` and a `.pbrt` path changes. Its path becomes the include folder, `/`, and the base name with `.json`. Every other block is untouched. |
| PbrtParser.ReplaceExample | pbrt_parser.py:121-122 | The base name `m.pbrt` becomes `m.json`. |
| PbrtParser.DirnameExample | pbrt_parser.py:121-124 | Python's dirname and basename split `g/m.pbrt` into `g` and `m.pbrt`. |
| PbrtParser.IncludeExampleFolder | pbrt_parser.py:124-131 | An include with a folder keeps it: `g/m.pbrt` becomes `g/m.json`. |
| PbrtParser.IncludeExampleBare | pbrt_parser.py:124-131 | A bare name gets a leading `/` from the empty folder: `m.pbrt` becomes `/m.json`. |
| PbrtParser.IncludeExampleOther | pbrt_parser.py:117-118 | An include of a file other than `.pbrt` is left alone. |
| PbrtParser.RewriteStep | pbrt_parser.py:112-131 | One iteration of the second loop rewrites exactly the block at `idx`, if it is a scene include. |
| PbrtParser.RewriteDone | pbrt_parser.py:112-131 | After the loop every block is rewritten. |
| PbrtParser.ResolveIncludes | pbrt_parser.py:112-131 | The second loop of `split_by_keyword` fails exactly when the include loop `IncludesConverted` does, with its error. Otherwise it returns every block rewritten and exactly the documents the included scenes write, in block order. |
| PbrtParser.ResolveBlock | pbrt_parser.py:113-131 | One iteration: the block rewritten, with the documents its nested conversion writes, or that conversion's error. A block that is not a scene include is returned unchanged and writes nothing. |
| PbrtParser.ConvertInclude | pbrt_parser.py:119-129 | The nested call converts `in_root/x` into `out_root/dirname(x)/basename.json` one stack level down, with the same outcome and documents as `Converted` gives for that pair. |
| PbrtParser.Collapse | pbrt_parser.py:146-149 | The recursive call's argument: the prefix before the first `[`, one nested list of the inner span, then the rest after the first `]`, with its exact length. |
| PbrtParser.FirstAtIndexOf | pbrt_parser.py:143-144 | `list.index` finds exactly the first occurrence. |
| PbrtParser.BracketRecursionRepeats | pbrt_parser.py:143-149 | When the first `]` comes before the first `[`, the recursive call gets a longer list with the same defect. The recursion therefore never ends by itself, and CPython stops it with `RecursionError`. |
| PbrtParser.ExpandAppend | pbrt_parser.py:139-149 | Writing nested lists back out distributes over concatenation. |
| PbrtParser.ExpandSplice | pbrt_parser.py:146-149 | Replacing a bracketed span by one nested list does not change the written-out tokens. |
| PbrtParser.CancelBracketsSpec | pbrt_parser.py:139-149 | Bracket cancelling loses nothing: the nested lists written out again give the input. No top-level `[` is left. |
| PbrtParser.CancelBracketsIdempotent | pbrt_parser.py:139-141 | Cancelling an already cancelled block changes nothing. |
| PbrtParser.CancelBracketsExample | pbrt_parser.py:139-149 | A directive with one bracketed pair of values becomes the directive and one nested list. |
| PbrtParser.CancelBracketsFailures | pbrt_parser.py:143-149 | An unclosed `[` fails, because `index("]")` raises. A `]` before the first `[` is the `RecursionError` of the unbounded recursion. |
| PbrtParser.Words | pbrt_parser.py:166 | Each token becomes one JSON string. |
| PbrtParser.TokenKeyInjective | pbrt_parser.py:170 | Distinct block indices give distinct `token_i` keys. |
| PbrtParser.TokenKeyNotLength | pbrt_parser.py:170-171 | No `token_i` key collides with `length`. |
| PbrtParser.BlockEntriesKeys | pbrt_parser.py:169-170 | The entries have exactly the keys `token_0 .. token_{n-1}`. |
| PbrtParser.BlockEntriesValues | pbrt_parser.py:169-170 | Entry `token_i` holds block `i`. |
| PbrtParser.DocumentOfSpec | pbrt_parser.py:168-171 | The document has exactly the keys `token_0 .. token_{n-1}` and `length`. `length` is `n`, and `token_i` holds block `i`. |
| PbrtParser.AssembleDocument | pbrt_parser.py:168-171 | The loop filling `data` builds `DocumentOf(blocks)`. |
| PbrtParser.RewriteAll | pbrt_parser.py:112-131 | Rewriting keeps the number of blocks. |
| PbrtParser.DocumentForBlocks | pbrt_parser.py:152-171 | Once tokenizing and splitting succeed, a file's document is the document of its split blocks. |
| PbrtParser.ConvertBlocks | pbrt_parser.py:163-177 | After the split, the result is `BlocksConverted`: the included scenes' documents, then the blocks' own document at `out_file`, or the first error. |
| PbrtParser.ConvertPbrt | pbrt_parser.py:152-177 | `convert_pbrt` writes exactly the documents `Converted` lists, in its order, or fails with its error: no stack left, a missing file, a tokenizing or splitting error, a failing nested include, or unbalanced brackets. |
| PbrtParser.ConvertScene | pbrt_parser.py:152-177 | The same with the 39-entry keyword table. A missing file is `FileNotFound`, and on success the last document written is the file's own, at `out_file`. |
| PbrtParser.ConvertLines | pbrt_parser.py:152-177 | Once the file is read, the result is `LinesConverted`, and on success the last document written is the file's own document at `out_file`. |
| PbrtParser.DocumentForFile | pbrt_parser.py:152-171 | A file's document fails with the error of tokenizing and splitting, or is the document of its split blocks. |
| PbrtParser.LinesConvertedOutcome | pbrt_parser.py:152-177 | Converting read lines succeeds exactly when they split, their document builds and every included scene converts. It then writes the included scenes' documents and, last, its own. |
| PbrtParser.ConvertedOutcome | pbrt_parser.py:152-177 | A conversion succeeds exactly when the stack allows the call, the file exists, its lines split, its document builds and every included scene converts one level deeper. It then writes the included documents and, last, its own at `out_file`. |
| PbrtParser.ConvertedEnds | pbrt_parser.py:166-175 | The last document a successful conversion writes is the source file's own document, at the target. |
| PbrtParser.IncludesConvertedOutcome | pbrt_parser.py:112-131 | The include loop succeeds exactly when every block's nested conversion succeeds. |
| PbrtParser.IncludesConvertedNone | pbrt_parser.py:112-131 | Blocks without a scene include write no document. |
| PbrtParser.IncludesFailureStays | pbrt_parser.py:119-129 | Once a nested conversion fails, the loop's later rounds do not run and its error is the loop's result. |
| PbrtParser.LeafLinesConvert | pbrt_parser.py:152-177 | Lines that include no scene convert to their own document only. |
| PbrtParser.LeafSceneConverts | pbrt_parser.py:152-177 | A scene that includes no other converts whenever the stack allows one call, writing only its own document. |
| PbrtParser.ConvertedDeeper | pbrt_parser.py:152-177 | The depth only cuts nesting off: a conversion that succeeds with some stack depth gives the same documents with a deeper one. |
| PbrtParser.OpenedConvertedDeeper | pbrt_parser.py:152-156 | The same for the call once its stack frame is taken. |
| PbrtParser.LinesConvertedDeeper | pbrt_parser.py:158-177 | The same for the conversion of read lines. |
| PbrtParser.BlocksConvertedDeeper | pbrt_parser.py:163-177 | The same for the conversion of split blocks. |
| PbrtParser.IncludesConvertedDeeper | pbrt_parser.py:112-131 | The same for the include loop. |
| PbrtParser.BlockConvertedDeeper | pbrt_parser.py:113-131 | The same for one block. |
| SceneLexer.ParseIdentifier | src/scene/lexer.rs:78-86 | The result is a keyword exactly when the word is not one of `WorldBegin`, `AttributeBegin`, `AttributeEnd`, `true` or `false`. A keyword or string carries the word itself. No other token kind arises. |
| SceneLexer.ParseIdentifierInverse | src/scene/lexer.rs:78-86 | The identifier reads back from its token. Parsing a non-reserved keyword, a section token, or the string `true` or `false` written out gives that token again. |
| SceneLexer.QuotedTokenCases | src/scene/lexer.rs:236-246 | Content without a space is a `String`. Otherwise the result is a `Variable` of the two parts around the one space, or an error. |
| SceneLexer.QuotedPair | src/scene/lexer.rs:236-246 | A typed name `"type name"` is a `Variable(type, name)`. |
| SceneLexer.BlankEnd | src/scene/lexer.rs:159-187 | Blank skipping stops on a character that is neither a blank nor `#`, or at the end. A comment without a line feed is the error that stands for the source's endless loop. |
| SceneLexer.IdentifierEnd | src/scene/lexer.rs:212-221 | The identifier run ends at a non-letter or at the end of the input. |
| SceneLexer.NumberEnd | src/scene/lexer.rs:189-210 | The number run ends at a character other than `-`, `.` and a digit, or at the end. |
| SceneLexer.FindFrom | src/scene/lexer.rs:179-187 | A found index holds `c` and is not before `i`. |
| SceneLexer.IdentifierRun | src/scene/lexer.rs:212-221 | Every character of the identifier run is a letter or `_`. |
| SceneLexer.NumberRun | src/scene/lexer.rs:189-210 | Every character of the number run is `-`, `.` or a digit. |
| SceneLexer.IdentifierEndExact | src/scene/lexer.rs:212-221 | A run of letters followed by a non-letter ends exactly there: the run is maximal. |
| SceneLexer.NumberEndExact | src/scene/lexer.rs:189-210 | The same maximality for numbers. |
| SceneLexer.FindFromSpec | src/scene/lexer.rs:179-187 | The search fails exactly when no `c` follows. Otherwise no `c` comes before the index found. |
| SceneLexer.FindFromAt | src/scene/lexer.rs:179-187 | The first `c` after `i` is the one found. |
| SceneLexer.BlankEndComment | src/scene/lexer.rs:179-187 | Inside a comment, skipping runs on to the next line feed, or fails if there is none. |
| SceneLexer.ScanTokenAt | src/scene/lexer.rs:273-306 | `next_token` moves the cursor forward, except on EOF and an illegal character, and stays within one past the input. |
| SceneLexer.ScanHereAt | src/scene/lexer.rs:280-306 | The same bounds for the `match` on the current character. |
| SceneLexer.ListAt | src/scene/lexer.rs:249-271 | A list scan ends past its start and within the input. |
| SceneLexer.ScanTokenSpace | src/scene/lexer.rs:159-177 | A blank in front of a token changes neither the token nor the rest of the file's tokens. |
| SceneLexer.ScanTokenComment | src/scene/lexer.rs:179-187 | A comment in front of a token is skipped past its line feed. With no line feed it is the endless-loop error. |
| SceneLexer.ScanTokenPrintable | src/scene/lexer.rs:273-306 | Every token a scan yields, other than EOF and Illegal, has the shape of the text it came from. |
| SceneLexer.ScanHerePrintable | src/scene/lexer.rs:280-306 | The same for the `match` on the current character. |
| SceneLexer.QuotedPrintable | src/scene/lexer.rs:223-247 | The token of quoted text holds no quote. |
| SceneLexer.WordPrintable | src/scene/lexer.rs:287-289 | An identifier read from the input parses into a printable token. |
| SceneLexer.WordIsPlain | src/scene/lexer.rs:131-133 | A word of letters is plain text. |
| SceneLexer.NumberPrintable | src/scene/lexer.rs:291-293 | A number read from the input is number text. |
| SceneLexer.ListPlain | src/scene/lexer.rs:249-271 | The items of a list are plain text. |
| SceneLexer.LexFromPrintable | src/scene/lexer.rs:102-116 | Every token the file loop collects is printable. |
| SceneLexer.ScanWord | src/scene/lexer.rs:287-289 | A word followed by a space scans as its identifier token, ending on the space. |
| SceneLexer.ScanNumber | src/scene/lexer.rs:291-293 | A number followed by a space scans as that number. |
| SceneLexer.ScanQuoted | src/scene/lexer.rs:223-247 | Quoted text scans as the token for its content. The cursor passes the closing quote and one more character, because `next_token` reads once more after the match. |
| SceneLexer.ItemText | src/scene/lexer.rs:259-260 | The text kept of a printable number or string is plain text. |
| SceneLexer.ListTurn | src/scene/lexer.rs:253-268 | One turn of `read_list`'s loop. `]` ends the list. A number or string is appended. Anything else is the panic. |
| SceneLexer.LexTurn | src/scene/lexer.rs:103-116 | One turn of `parse_pbrt_into_token`'s loop. EOF ends it. Illegal or an error panics. Any other token is appended. |
| SceneLexer.FromParserTokenInverse | src/scene/lexer.rs:58-77 | The conversion refuses exactly Illegal, EOF and RightBracket. It loses nothing: converting back gives the token. Every scene token except `Bool` comes from a lexer token. |
| SceneLexer.ConvertAll | src/scene/lexer.rs:118-121 | A successful conversion keeps the number of tokens. |
| SceneLexer.ConvertAllSpec | src/scene/lexer.rs:118-121 | Conversion succeeds exactly when every token converts, and then converts each token in place. |
| SceneLexer.TokensSpec | src/scene/lexer.rs:88-122 | A file yields scene tokens exactly when it lexes and no stray `]` is among its tokens. Then there is one scene token per lexer token. |
| SceneLexer.CharAt | src/scene/lexer.rs:150-154 | The character under the cursor, or `None` at and past the end. |
| SceneLexer.Lexer.constructor | src/scene/lexer.rs:140-147 | Nothing read yet: position 0, no current character, line 1. |
| SceneLexer.Lexer.ReadChar | src/scene/lexer.rs:149-157 | The position advances by one. The current character is the one at the old position, or `None` at and past the end. |
| SceneLexer.Lexer.SkipSpace | src/scene/lexer.rs:159-177 | Afterwards the current character is `None` or not a blank. The line counter rises by the line feeds passed. The cursor agrees with `BlankEnd`. |
| SceneLexer.Lexer.SkipComment | src/scene/lexer.rs:179-187 | The cursor stops on the next line feed and counts one line, or runs off the end. Running off the end is the case where the source never returns. |
| SceneLexer.Lexer.SkipBlank | src/scene/lexer.rs:274-278 | The loop of blanks and comments succeeds exactly when `BlankEnd` does, and leaves the cursor there. |
| SceneLexer.Lexer.ReadIdentifier | src/scene/lexer.rs:212-221 | Reads the maximal run of letters from the cursor and returns exactly that text. |
| SceneLexer.Lexer.ReadNumber | src/scene/lexer.rs:189-210 | Reads the maximal run of number characters and returns exactly that text. |
| SceneLexer.Lexer.ReadQuotedString | src/scene/lexer.rs:223-247 | Without a closing quote, the result is the error that stands for the endless loop. Otherwise the result is the token of the text between the quotes, and the cursor is past the closing quote. |
| SceneLexer.Lexer.ReadList | src/scene/lexer.rs:249-271 | The items, the error and the final cursor are those of `ListAt`. |
| SceneLexer.Lexer.ScanCurrent | src/scene/lexer.rs:280-306 | The token, the error and the final cursor are those of `ScanHereAt`. |
| SceneLexer.Lexer.NextToken | src/scene/lexer.rs:273-306 | The token, the error and the final cursor are those of `ScanTokenAt`. |
| SceneLexer.ParsePbrtIntoTokens | src/scene/lexer.rs:88-122 | A missing file is an error. Otherwise the result is `Tokens` of the file's text. |
| SceneLexer.TokenText | src/scene/lexer.rs:48-55 | `convert_to_string` succeeds exactly on a `String` token and returns its text. Any other token panics. |
| SceneLexer.TokenFloat | src/scene/lexer.rs:34-46 | `convert_to_float` succeeds exactly on a `Number` token whose text parses, and returns the parsed value. Otherwise it panics. |
| SceneLexer.ConvertedText | src/scene/lexer.rs:48-77 | Of the converted lexer tokens, only quoted strings read back as text, and as the text they were lexed with. |
| SceneUtil.Basename | src/scene/util.rs:3-10 | A path without `/` panics. Otherwise the result is the suffix after the last `/`, and it holds no `/`. |
| SceneUtil.Dirname | src/scene/util.rs:12-19 | A path without `/` panics. Otherwise the result is the prefix before the last `/`, which is empty for `/x`. |
| SceneUtil.Extension | src/scene/util.rs:21-30 | A path without `.` panics. Otherwise the result is the suffix after the last `.`, and it holds no `.`. |
| SceneUtil.ChangeExtension | src/scene/util.rs:32-46 | A path without `.` panics, and that is the only failure. Otherwise the result is the path up to and including its last `.` (the path without `get_extension`'s text), then `extension`. |
| SceneUtil.DirnameBasename | src/scene/util.rs:3-19 | For a path with a `/`, the dirname, `/` and the basename give back the path. |
| SceneUtil.ExtensionOfChanged | src/scene/util.rs:21-46 | The new extension is what `get_extension` reads back, provided it holds no `.`. |
| SceneUtil.ChangeExtensionKeepsStem | src/scene/util.rs:21-46 | Changing the extension to the one already there gives back the path. |
| SceneUtil.ChangeExtensionIdempotent | src/scene/util.rs:32-46 | Changing the extension twice to the same one is the same as doing it once. |
| SceneUtil.LastAt | src/scene/util.rs:3-33 | `rfind` finds the last occurrence, wherever it is. |
| SceneParameters.JsonText | src/scene/parameter_dict.rs:135 | `json_value_to_string` succeeds exactly on a JSON string, and gives its text. |
| SceneParameters.TrimDeclaration | src/scene/parameter_dict.rs:135 | The declaration is trimmed of one pair of quotes. An empty declaration panics on its first character. |
| SceneParameters.SplitVariableTypeName | src/scene/parameter_dict.rs:47-52 | Succeeds exactly when the token has two whitespace-separated words, and returns those two words. |
| SceneParameters.TypeNameRoundTrip | src/scene/parameter_dict.rs:47-52 | `"<type> <name>"` of two words splits into those words. |
| SceneParameters.Texts | src/scene/parameter_dict.rs:60-66 | A list converts exactly when every element is a JSON string, and then into their texts, in order. |
| SceneParameters.FirstNonText | src/scene/parameter_dict.rs:60-66 | Names an element that is not a string, which is the one the source fails on. |
| SceneParameters.FetchVariableValue | src/scene/parameter_dict.rs:54-68 | A string gives a one-element list and an array gives its texts. Anything else panics. |
| SceneParameters.ConvertAll | src/scene/parameter_dict.rs:82-90 | Succeeds exactly when every text parses, and then gives each parsed value in place. |
| SceneParameters.Pairs | src/scene/parameter_dict.rs:162-169 | An even count gives point `k` from numbers `2k` and `2k+1`. An odd count panics on the missing coordinate. |
| SceneParameters.Triples | src/scene/parameter_dict.rs:171-196 | A count divisible by three gives element `k` from numbers `3k`, `3k+1` and `3k+2`. Any other count panics. |
| SceneParameters.GroupPairs | src/scene/parameter_dict.rs:165-168 | The `point2` loop computes `Pairs`. |
| SceneParameters.GroupTriples | src/scene/parameter_dict.rs:174-195 | The `point3` and `normal` loops compute `Triples`. |
| SceneParameters.ReadValue | src/scene/parameter_dict.rs:140-226 | The `match variable_type` computes `ValueBinding`. That function covers `filename` put under the directory, the count assertions, a missing texture and an unknown type. |
| SceneParameters.ReadEntry | src/scene/parameter_dict.rs:134-139 | One loop turn computes `EntryBinding`: the declaration, then the value, whose absence panics. |
| SceneParameters.BuildParameterDict | src/scene/parameter_dict.rs:119-240 | The built dictionary fails exactly when `Build` does. Otherwise it is new and holds `Build`'s maps. |
| SceneParameters.BuildKeepsBools | src/scene/parameter_dict.rs:119-240 | Building never touches the `bools` map. |
| SceneParameters.BuiltBoolIsDefault | src/scene/parameter_dict.rs:310-312 | So `get_one_bool` on a built dictionary answers only with its default, and panics without one. |
| SceneParameters.BuildAppend | src/scene/parameter_dict.rs:134 | Building from pairs followed by more pairs continues from the first pairs' result. |
| SceneParameters.BuildShift | src/scene/parameter_dict.rs:134 | Building from `a + b` past the end of `a` is building from `b`. |
| SceneParameters.StringEntry | src/scene/parameter_dict.rs:141-155 | A one-word `string` declaration binds that name to the text, put under the directory for `filename`. |
| SceneParameters.LastStringWins | src/scene/parameter_dict.rs:141-155 | A `string` parameter declared last is stored, whatever came before: `HashMap::insert` overwrites. |
| SceneParameters.GetOneVal | src/scene/parameter_dict.rs:92-107 | A stored list gives its one value, and any other length panics even when a default is given. An absent key gives the default, or panics without one. |
| SceneParameters.InsertThenGetOne | src/scene/parameter_dict.rs:250-272 | After a new key is added, reading it gives the one value, and no other key changes. |
| SceneParameters.GetArray | src/scene/parameter_dict.rs:109-116 | An absent key panics. Otherwise the result is the stored list. |
| SceneParameters.GetOrDefault | src/scene/parameter_dict.rs:274-292 | The stored value comes first, then the default. It panics when neither exists. |
| SceneParameters.ParameterDict.constructor | src/scene/parameter_dict.rs:15-29 | Every map is empty. |
| SceneParameters.ParameterDict.FromParams | src/scene/parameter_dict.rs:229-239 | The dictionary holds the maps given. |
| SceneParameters.ParameterDict.Clone | src/scene/parameter_dict.rs:31-45 | A new dictionary with the same maps. |
| SceneParameters.ParameterDict.HasRgb | src/scene/parameter_dict.rs:242-244 | True exactly when the name is a key of `rgbs`. |
| SceneParameters.ParameterDict.HasTexture | src/scene/parameter_dict.rs:246-248 | True exactly when the name is a key of `textures`. |
| SceneParameters.ParameterDict.InsertInteger | src/scene/parameter_dict.rs:250-256 | A duplicate key panics and changes nothing. Otherwise only that key is added. |
| SceneParameters.ParameterDict.InsertFloat | src/scene/parameter_dict.rs:258-264 | The same for `floats`. |
| SceneParameters.ParameterDict.InsertString | src/scene/parameter_dict.rs:266-272 | The same for `strings`. |
| SceneParameters.ParameterDict.GetRgb | src/scene/parameter_dict.rs:274-282 | `GetOrDefault` on `rgbs`. |
| SceneParameters.ParameterDict.GetString | src/scene/parameter_dict.rs:284-292 | `GetOrDefault` on `strings`. |
| SceneParameters.ParameterDict.GetTexture | src/scene/parameter_dict.rs:294-301 | The stored handle. An absent key panics. |
| SceneParameters.ParameterDict.GetOneFloat | src/scene/parameter_dict.rs:302-304 | `GetOneVal` on `floats`. |
| SceneParameters.ParameterDict.GetOneInteger | src/scene/parameter_dict.rs:306-308 | `GetOneVal` on `integers`. |
| SceneParameters.ParameterDict.GetOneBool | src/scene/parameter_dict.rs:310-312 | `GetOneVal` on `bools`. |
| SceneParameters.ParameterDict.GetOnePoint3 | src/scene/parameter_dict.rs:322-336 | The `GetOneVal` rule on `point3s`, with `unreachable!` in place of the panics. |
| SceneParameters.ParameterDict.GetIntegerArray | src/scene/parameter_dict.rs:314-316 | `GetArray` on `integers`. |
| SceneParameters.ParameterDict.GetPoint2Array | src/scene/parameter_dict.rs:318-320 | `GetArray` on `point2s`. |
| SceneParameters.ParameterDict.GetPoint3Array | src/scene/parameter_dict.rs:338-340 | `GetArray` on `point3s`. |
| SceneParameters.ParameterDict.GetNormal3Array | src/scene/parameter_dict.rs:342-349 | The stored list, or empty when the key is absent. This getter does not panic. |
| ConstSpectrum.StrictlyIncreasingOrdered | src/spectra/const_piecewise_linear_spectrum.rs:23-33 | Strictly increasing adjacent pairs order the whole list strictly. |
| ConstSpectrum.StrictlyIncreasingSorted | src/spectra/const_piecewise_linear_spectrum.rs:23-33 | A strictly increasing table is sorted, which is what the search relies on. |
| ConstSpectrum.Clamp | src/spectra/const_piecewise_linear_spectrum.rs:20 | `clamp_usize` lies within the bounds and keeps a value already inside them. |
| ConstSpectrum.IntervalFrom | src/spectra/const_piecewise_linear_spectrum.rs:3-21 | The reference linear scan: every wavelength up to the result is at most `lam`, and the next one is above it. |
| ConstSpectrum.Interval | src/spectra/const_piecewise_linear_spectrum.rs:3-21 | The reference interval lies in `[0, N-2]`. Wavelengths `1 ..= r` are at most `lam`, and the one after `r` is above it. |
| ConstSpectrum.Search | src/spectra/const_piecewise_linear_spectrum.rs:9-18 | The halving search stays within its range. |
| ConstSpectrum.LambdaInterval | src/spectra/const_piecewise_linear_spectrum.rs:3-21 | Fewer than two wavelengths underflow `len() - 2`. Otherwise the result lies in `[0, N-2]`. |
| ConstSpectrum.SearchSorted | src/spectra/const_piecewise_linear_spectrum.rs:3-21 | On a sorted table the binary search finds what the linear scan finds. |
| ConstSpectrum.LambdaIntervalSorted | src/spectra/const_piecewise_linear_spectrum.rs:3-21 | On a sorted table `find_lambda_interval` equals the reference interval. |
| ConstSpectrum.FindLambdaInterval | src/spectra/const_piecewise_linear_spectrum.rs:3-21 | The loop computes `LambdaInterval`. |
| ConstSpectrum.IntervalBrackets | src/spectra/const_piecewise_linear_spectrum.rs:58-64 | Within `[lambdas[0], lambdas[N-1]]` on a sorted table, `lambdas[o] <= lam <= lambdas[o+1]`: the assertion of `const_eval` holds. |
| ConstSpectrum.IntervalAtSample | src/spectra/const_piecewise_linear_spectrum.rs:3-21 | Each listed wavelength except the last lies in its own interval. |
| ConstSpectrum.StrictlySorted | src/spectra/const_piecewise_linear_spectrum.rs:23-33 | True exactly when every adjacent pair strictly increases. An empty table underflows `len() - 1`. |
| ConstSpectrum.Eval | src/spectra/const_piecewise_linear_spectrum.rs:57-69 | Zero for an empty table and outside `[lambdas[0], lambdas[N-1]]`. |
| ConstSpectrum.ConstEval | src/spectra/const_piecewise_linear_spectrum.rs:57-69 | `const_eval` computes `Eval`, using the binary search. |
| ConstSpectrum.InterpolateEnds | src/spectra/const_piecewise_linear_spectrum.rs:66-68 | The interpolated line passes through both of its end points. |
| ConstSpectrum.EvalAtSample | src/spectra/const_piecewise_linear_spectrum.rs:57-69 | A valid spectrum evaluates without failing at every listed wavelength, and gives that wavelength's value. |
| ConstSpectrum.EvalBetweenSamples | src/spectra/const_piecewise_linear_spectrum.rs:57-69 | Inside the range, the value lies between the two samples around `lam`. |
| ConstSpectrum.LerpBetween | src/spectra/const_piecewise_linear_spectrum.rs:68 | `lerp` with `t` in `[0, 1]` lies between its end values. |
| ConstSpectrum.Scaled | src/spectra/const_piecewise_linear_spectrum.rs:71-84 | Scaling keeps the number of values. |
| ConstSpectrum.ConstScale | src/spectra/const_piecewise_linear_spectrum.rs:71-84 | The wavelengths are kept and each value is multiplied by `s`. |
| ConstSpectrum.ScaledTwice | src/spectra/const_piecewise_linear_spectrum.rs:71-84 | Scaling twice is scaling by the product, and scaling by one changes nothing. |
| ConstSpectrum.EvalScaled | src/spectra/const_piecewise_linear_spectrum.rs:57-84 | Scaling the values scales the spectrum at every wavelength. |
| ConstSpectrum.NonZero | src/spectra/const_piecewise_linear_spectrum.rs:171-179 | True exactly when some value is positive. |
| ConstSpectrum.HasPositiveScaled | src/spectra/const_piecewise_linear_spectrum.rs:171-179 | Scaling by a positive factor keeps a spectrum non-zero, and keeps a zero spectrum zero. |
| ConstSpectrum.SumStep | src/spectra/const_piecewise_linear_spectrum.rs:93-96 | One loop step adds the product of the two evaluations at the current wavelength. The first failure wins. |
| ConstSpectrum.ConstInnerProduct | src/spectra/const_piecewise_linear_spectrum.rs:86-99 | The loop computes the sum over the whole wavelengths 360 ..= 830. |
| ConstSpectrum.AddProduct | src/spectra/const_piecewise_linear_spectrum.rs:94-95 | One loop turn keeps the accumulator plus the sum still to come unchanged. A failed evaluation is the failure of that whole remaining sum. |
| ConstSpectrum.PointwiseScaled | src/spectra/const_piecewise_linear_spectrum.rs:94 | Scaling one spectrum scales the product at every wavelength. |
| ConstSpectrum.InnerProductScaled | src/spectra/const_piecewise_linear_spectrum.rs:86-99 | Scaling one spectrum scales the inner product. |
| ConstSpectrum.BuildSpectrum | src/spectra/const_piecewise_linear_spectrum.rs:101-113 | Computes `BuildSpec`. A table that is not strictly increasing fails the assertion. A successful build keeps the wavelengths. |
| ConstSpectrum.NormalizedIntegral | src/spectra/const_piecewise_linear_spectrum.rs:107-112 | A normalised spectrum has inner product `CIE_Y_INTEGRAL` with the curve it was normalised against. |
| ConstSpectrum.Evens | src/spectra/const_piecewise_linear_spectrum.rs:128-131 | The wavelengths of an interleaved table: half its length. |
| ConstSpectrum.Odds | src/spectra/const_piecewise_linear_spectrum.rs:128-131 | The values of an interleaved table: half its length. |
| ConstSpectrum.Interleave | src/spectra/const_piecewise_linear_spectrum.rs:115-135 | Interleaving doubles the length. |
| ConstSpectrum.InterleaveRoundTrip | src/spectra/const_piecewise_linear_spectrum.rs:115-135 | Splitting an interleaved table and interleaving it again gives it back, and the same holds the other way round. |
| ConstSpectrum.FromInterleavedFull | src/spectra/const_piecewise_linear_spectrum.rs:115-135 | The table must reach below `LAMBDA_MIN` and above `LAMBDA_MAX`, or the assertion fails. Then `lambdas[i] = samples[2i]` and `values[i] = samples[2i+1]`, built by `build_spectrum`. |
| ConstSpectrum.Padded | src/spectra/const_piecewise_linear_spectrum.rs:146-160 | The padded table has two more entries than the pairs of samples. |
| ConstSpectrum.PaddedSplit | src/spectra/const_piecewise_linear_spectrum.rs:149-160 | `LAMBDA_MIN - 1` with the first value, the samples, then `LAMBDA_MAX + 1` with the last value. |
| ConstSpectrum.FromInterleavedMissingAsWritten | src/spectra/const_piecewise_linear_spectrum.rs:137-142 | As written, the constructor always reads past the end of its samples. |
| ConstSpectrum.FromInterleavedMissing | src/spectra/const_piecewise_linear_spectrum.rs:137-163 | As corrected: the samples must start above `LAMBDA_MIN`, or the assertion fails. The padded table is then built by `build_spectrum`. |
| Bvh.AsU32 | src/accelerator/bvh.rs:120-130 | `as u32` stays below 2^32 and keeps every value that fits. |
| Bvh.UnionEncloses | src/accelerator/bvh.rs:186-202 | The sum of two boxes encloses both, and it is empty only when both are. |
| Bvh.UnionLeast | src/accelerator/bvh.rs:186-202 | Any box enclosing both summands encloses their sum. |
| Bvh.UnionPoint | src/accelerator/bvh.rs:222-225 | Extending a box by a point gives a nonempty box. |
| Bvh.MaxDimension | src/accelerator/bvh.rs:227 | `max_dimension` names one of the three axes. |
| Bvh.MakePrimitive | src/accelerator/bvh.rs:76-84 | `BVHPrimitive::new` keeps the index and the bounds. The centroid of a proper box lies inside it. |
| Bvh.Indices | src/accelerator/bvh.rs:206-209 | One index per primitive, in order. |
| Bvh.FullBoundsEncloses | src/accelerator/bvh.rs:199-202 | The summed bounds enclose the bounds of every primitive. |
| Bvh.CentroidBounds | src/accelerator/bvh.rs:222-225 | The centroid bounds are empty exactly when there are no primitives. |
| Bvh.CentroidBoundsEncloses | src/accelerator/bvh.rs:222-225 | Every centroid lies in the centroid bounds. |
| Bvh.PartitionSides | src/accelerator/bvh.rs:235-243 | The left side holds input primitives whose centroid along the axis is at most the midpoint. The right side holds the others. |
| Bvh.PartitionPermutation | src/accelerator/bvh.rs:235-243 | The two sides together are the input as a multiset. |
| Bvh.PartitionLengths | src/accelerator/bvh.rs:235-243 | Every primitive goes to exactly one side. |
| Bvh.PartitionIndices | src/accelerator/bvh.rs:235-243 | The indices on the two sides together are the input's indices, with multiplicities. |
| Bvh.PartitionIndicesAll | src/accelerator/bvh.rs:235-243 | The same holds for the whole input. |
| Bvh.MakeLeaf | src/accelerator/bvh.rs:166-178 | `build_leaf` makes a leaf with the given first offset, count and bounds. |
| Bvh.MakeInterior | src/accelerator/bvh.rs:180-192 | `build_interior` makes an interior node with the given children and axis. Its bounds enclose both children's. |
| Bvh.SplitOf | src/accelerator/bvh.rs:218-248 | The split decision either declines, or names an axis and a midpoint that leave both sides nonempty. |
| Bvh.SplitOfRule | src/accelerator/bvh.rs:218-248 | The midpoint rule is a valid splitting rule, so the recursion terminates. |
| Bvh.BuildLeafCase | src/accelerator/bvh.rs:204-248 | When the rule declines, the result is one leaf over all the primitives, with their indices in input order. |
| Bvh.BuildInteriorCase | src/accelerator/bvh.rs:251-257 | Otherwise the left side is built first, and the right side's leaves start after the left's entries. |
| Bvh.BuildWithInteriorCase | src/accelerator/bvh.rs:251-257 | The same interior step holds under any splitting rule. |
| Bvh.BuildWithCovers | src/accelerator/bvh.rs:194-258 | Under any rule the build appends one ordered entry per primitive. The leaves cover consecutive ranges from the first offset. |
| Bvh.BuildWithPermutation | src/accelerator/bvh.rs:194-258 | Under any rule the appended entries are a permutation of the input's indices. |
| Bvh.BuildWithWellBuilt | src/accelerator/bvh.rs:194-258 | Under any rule a nonempty input gives leaves that all hold primitives and axes below 3. Every node's bounds enclose its children's. |
| Bvh.BuildPermutation | src/accelerator/bvh.rs:194-258 | `build_recursive` appends exactly a permutation of the primitives' indices, and its leaves cover them consecutively. |
| Bvh.BuildWellBuilt | src/accelerator/bvh.rs:194-258 | A nonempty input builds a well-formed, properly nested tree. |
| Bvh.BuildEmpty | src/accelerator/bvh.rs:218-248 | With no primitives the build falls through to an empty leaf holding none. |
| Bvh.BuildLeafBounds | src/accelerator/bvh.rs:204-216 | A leaf's bounds enclose every primitive it holds. |
| Bvh.CoversWithin | src/accelerator/bvh.rs:35-36 | Leaves covering consecutive ranges stay inside the ordered list, so the leaf loop's indices are in range. |
| Bvh.SizeBound | src/accelerator/bvh.rs:194-258 | A tree whose leaves all hold primitives has fewer than twice as many nodes as primitives. |
| Bvh.FlattenErrorTooMany | src/accelerator/bvh.rs:115-130 | A well-built tree fails to flatten only on a leaf holding more than `u16::MAX` primitives. |
| Bvh.Linear | src/accelerator/bvh.rs:106-132 | `flatten_bvh` pushes exactly one entry per node. |
| Bvh.SubtreeEnd | src/accelerator/bvh.rs:106-132 | A subtree of the flat array that starts at `i` ends after `i`, within the array. |
| Bvh.LaidOutEnd | src/accelerator/bvh.rs:106-132 | The subtree of a laid-out tree ends where its entries end. |
| Bvh.SubtreeEndInterior | src/accelerator/bvh.rs:126-130 | An interior entry's subtree ends where its second child's subtree ends. |
| Bvh.LinearLaidOut | src/accelerator/bvh.rs:106-132 | The entries `flatten_bvh` pushes lay the tree out in depth-first order. Each interior entry's offset names its second child. |
| Bvh.LinearEntries | src/accelerator/bvh.rs:115-130 | Every flat entry is usable by the traversal. A leaf has `1..=u16::MAX` primitives inside the ordered list. An interior entry's axis is below 3. |
| Bvh.FlattenInteriorStep | src/accelerator/bvh.rs:125-131 | Patching an interior entry with its second child's offset after both subtrees are pushed gives the layout `Linear` describes. |
| Bvh.Primitives | src/accelerator/bvh.rs:145-148 | The build primitives are `BVHPrimitive::new(idx, bounds[idx])` in input order. |
| Bvh.PrimitivesIndices | src/accelerator/bvh.rs:145-148 | Their indices are 0 to n-1. |
| Bvh.FlattenLayoutValid | src/accelerator/bvh.rs:106-132 | Flattening a well-built tree that covers the ordered list gives the layout `intersect` relies on. |
| Bvh.BuildLayoutValid | src/accelerator/bvh.rs:134-163 | Building and then flattening, when no leaf is too large, gives a valid layout. The ordered list is a permutation of 0 to n-1. |
| Bvh.SubtreeEndStep | src/accelerator/bvh.rs:34-58 | A leaf's subtree is its own entry. An interior entry's subtree is the entry, then its first child's subtree, then the one at `offset`. |
| Bvh.StackPop | src/accelerator/bvh.rs:22-29 | The node popped from the traversal stack is in range and has not been popped before. |
| Bvh.StackPush | src/accelerator/bvh.rs:52-58 | Pushing both children of an interior entry, in either order, keeps the stack's subtrees disjoint and unvisited. |
| Bvh.TracedFacts | src/accelerator/bvh.rs:21-59 | Popped nodes are distinct and in range. After a descent into an interior node, the next one popped is its near child. |
| Bvh.UnseenStep | src/accelerator/bvh.rs:21-29 | Popping a node not popped before shrinks the set of unpopped nodes, so the loop terminates. |
| Bvh.TraceStep | src/accelerator/bvh.rs:21-59 | One more pop keeps the trace's shape. |
| Bvh.LeafScanResult | src/accelerator/bvh.rs:35-46 | The leaf loop either keeps the prior best, or ends with a hit on one of its primitives at the returned distance. |
| Bvh.LeafScanFound | src/accelerator/bvh.rs:35-46 | The best hit is always one of the ordered primitives. |
| Bvh.LeafScanCloser | src/accelerator/bvh.rs:35-46 | When primitives report only hits within the distance they are given, the best distance never grows. |
| Bvh.Children | src/accelerator/bvh.rs:52-58 | Both children are pushed, and the near one (`i + 1`, or `offset` when the ray's direction is negative on the axis) is pushed last, so it is popped next. |
| Bvh.WalkStart | src/accelerator/bvh.rs:17 | The traversal starts from the root alone. |
| Bvh.WalkPop | src/accelerator/bvh.rs:22-29 | The popped node is an entry not popped before. |
| Bvh.WalkStep | src/accelerator/bvh.rs:21-59 | A round of the loop, descending or not, keeps the traversal invariant. |
| Bvh.WalkDone | src/accelerator/bvh.rs:21-59 | When the stack runs empty, the root was popped first and no node twice, and each descent was followed by the near child. |
| Bvh.ReplayPrefix | src/accelerator/bvh.rs:21-29 | Popping one more node does not change the best distance and hit computed for the nodes popped before it. |
| Bvh.ReplayResult | src/accelerator/bvh.rs:17-46 | After any number of popped nodes there is either no hit, at `t_max`, or a hit on a primitive of one of the popped leaves, whose distance is the best distance. |
| Bvh.ReplayCloser | src/accelerator/bvh.rs:30-46 | When a primitive never reports a hit beyond the distance it is given, the best distance only shrinks as nodes are popped and never exceeds `t_max`. Later box tests therefore use tighter distances. |
| Bvh.PrunedStep | src/accelerator/bvh.rs:30-58 | Popping a node keeps the record that each popped node was descended into exactly when it is interior and its box is hit within the best distance at its pop. |
| Bvh.ReachedStep | src/accelerator/bvh.rs:50-58 | Pushing both children on a descent keeps every child of a descended node popped or waiting on the stack. |
| Bvh.ProgressStep | src/accelerator/bvh.rs:21-59 | One round keeps the pruning record, the best distance and hit equal to the replay of the popped nodes, and the children listed. |
| Bvh.LoopStart | src/accelerator/bvh.rs:17-19 | The loop starts with the root alone on the stack, `t_max` and no hit, which satisfies the loop invariant. |
| Bvh.LoopPop | src/accelerator/bvh.rs:22-29 | The popped node is a usable entry, in range and not popped before. |
| Bvh.LoopStep | src/accelerator/bvh.rs:21-59 | A round that skips a missed box, scans a leaf or pushes an interior node's children keeps the loop invariant, with the best distance and hit the round computes. |
| Bvh.LoopDone | src/accelerator/bvh.rs:21-61 | When the stack runs empty, the popped nodes and the best hit have the shape `Explored` states. |
| Bvh.RoundsStep | src/accelerator/bvh.rs:21-59 | Popping the top of the stack and doing what the loop body does with it gives the next round's state. |
| Bvh.RoundsStay | src/accelerator/bvh.rs:22-26 | Once the stack is empty, further rounds change nothing. |
| Bvh.RoundsLoop | src/accelerator/bvh.rs:21-59 | After any number of rounds the state satisfies the loop invariant. |
| Bvh.PopRoundLoop | src/accelerator/bvh.rs:21-59 | One round keeps the loop invariant. |
| Bvh.RoundsPop | src/accelerator/bvh.rs:22-29 | A round with a non-empty stack pops a usable entry that was not popped before, so the set of unpopped entries shrinks and the loop ends. |
| Bvh.RoundsDone | src/accelerator/bvh.rs:21-61 | When the rounds empty the stack, their trace meets `Traversal`. |
| Bvh.TraversalUnique | src/accelerator/bvh.rs:9-62 | Two traces of the same ray through the same layout that both meet `Traversal` pop the same nodes, descend into the same ones and return the same hit. |
| Bvh.ReachedDone | src/accelerator/bvh.rs:21-29 | With an empty stack, both children of every descended node have been popped. |
| Bvh.BvhAggregate.New | src/accelerator/bvh.rs:134-163 | `BVHAggregate::new` fails on no primitives (the missing child of `flatten_bvh`) or on a leaf over `u16::MAX`. Otherwise the result is the built tree laid out validly, with the ordered primitives a permutation of the input. |
| Bvh.BvhAggregate.Intersect | src/accelerator/bvh.rs:9-62 | The popped nodes, the descents and the returned hit are those of the loop run from the root alone on the stack until the stack is empty (`Rounds`). So only children of descended nodes are popped, last in first out, and `TraversalUnique` shows nothing else meets the contract. It pops the root first and no node twice. It descends into a popped node exactly when the node is interior and its box is hit within the best distance found before it, and then pops the near child next. Both children of every descended node are popped. The hit returned is the one the primitives of the popped leaves give in popping order (`Replay`), and it is an ordered primitive. |
| Bvh.BvhAggregate.LeafHits | src/accelerator/bvh.rs:35-46 | The leaf loop computes `LeafScan`, and its hit is an ordered primitive. |
| Bvh.BvhAggregate.Init | src/accelerator/bvh.rs:150-156 | The aggregate starts with no ordered primitives and no nodes. |
| Bvh.BvhAggregate.AppendLeaf | src/accelerator/bvh.rs:204-216 | `closure_build_leaf` appends the primitives' indices in order and returns the leaf over them. |
| Bvh.BvhAggregate.BuildRecursive | src/accelerator/bvh.rs:194-258 | `build_recursive` returns `Build`'s tree and appends `Build`'s ordered indices. |
| Bvh.BvhAggregate.Flatten | src/accelerator/bvh.rs:106-132 | `flatten_bvh` returns the node's own index and appends `Linear`'s entries, or fails with the first oversized leaf or missing child. |
| Bvh.ChooseSplit | src/accelerator/bvh.rs:218-248 | The loops compute `SplitOf`. A declined split is a leaf of `Build`. An accepted one gives two strictly smaller sides and the interior step of `Build`. |
| Bvh.CentroidBoundsOf | src/accelerator/bvh.rs:222-225 | The loop computes the centroid bounds. |
| Bvh.PartitionOf | src/accelerator/bvh.rs:235-243 | The loop computes the two sides of the partition. |
| Bxdf.Not | src/base/bxdf.rs:9-16 | `TransportMode::not` always returns the other mode. |
| Bxdf.NotInvolution | src/base/bxdf.rs:9-16 | Flipping the mode twice gives it back. |
| Bxdf.ReflTransBits | src/base/bxdf.rs:18-24 | The discriminants of the reflection/transmission flags fit in two bits. |
| Bxdf.ReflTransFromBits | src/base/bxdf.rs:26-47 | `from` succeeds exactly on 0 to 3, giving the member with that discriminant. Any other value is the "illegal value" panic, carrying the value. |
| Bxdf.ReflTransRoundTrip | src/base/bxdf.rs:18-47 | Converting a member to its discriminant and back gives the member. |
| Bxdf.ReflTransClosed | src/base/bxdf.rs:49-63 | `\|` and `&` on these flags never panic, and they act bitwise on the discriminants. |
| Bxdf.ReflTransUnits | src/base/bxdf.rs:19-63 | `Unset` is the unit of `\|` and `All` the unit of `&`. Reflection `\|` Transmission is `All`, and their `&` is `Unset`. |
| Bxdf.IsSet | src/base/bxdf.rs:65-69 | `is_set` holds exactly when some bit is set. |
| Bxdf.FlagBits | src/base/bxdf.rs:71-88 | The discriminants of the lobe flags fit in five bits. |
| Bxdf.FlagsFromBits | src/base/bxdf.rs:90-111 | `from` succeeds exactly on the fourteen declared discriminants, giving the member with that discriminant. Any other value is the "illegal value" panic. |
| Bxdf.FlagsRoundTrip | src/base/bxdf.rs:71-111 | Converting a member to its discriminant and back gives the member. |
| Bxdf.FlagsOrNotClosed | src/base/bxdf.rs:102-119 | `Diffuse \| Specular` is 20, which `from` rejects, so lobe flags are not closed under `\|`. |
| Bxdf.IsNonSpecular | src/base/bxdf.rs:138-141 | `is_non_specular` holds exactly when the flag is diffuse or glossy. |
| Bxdf.FlagsDecompose | src/base/bxdf.rs:129-154 | The five `is_*` predicates read back exactly the five bits of the flag. |
| Bxdf.FlagsDetermined | src/base/bxdf.rs:129-154 | Two flags that agree on all five predicates are the same flag. |
| Bxdf.SpecularExcludesNonSpecular | src/base/bxdf.rs:138-149 | No declared lobe except `All` is both specular and non-specular. |
| Bxdf.SampleDelegates | src/base/bxdf.rs:167-179 | A sample's predicates are those of its flags. A specular reflection sample is reflective and specular, and not transmissive. |
| RgbTable.Flat | src/spectra/rgb_to_spectrum_table.rs:21-33 | The running counter at position `[m][z][y][x][c]` lies inside the flat list. |
| RgbTable.DivModBy | src/spectra/rgb_to_spectrum_table.rs:21-33 | Quotient and remainder recover a mixed-radix digit. |
| RgbTable.FlatUnflatten | src/spectra/rgb_to_spectrum_table.rs:21-33 | Every table position reads its own entry of the flat list, and that entry maps back to the position. |
| RgbTable.UnflattenFlat | src/spectra/rgb_to_spectrum_table.rs:21-33 | Every entry of the flat list is copied to some position. |
| RgbTable.FlatInjective | src/spectra/rgb_to_spectrum_table.rs:21-33 | No two positions read the same entry. |
| RgbTable.RgbToSpectrumTable.Init | src/spectra/rgb_to_spectrum_table.rs:39-42 | The table keeps the z nodes and the coefficients it is given. |
| RgbTable.RgbToSpectrumTable.New | src/spectra/rgb_to_spectrum_table.rs:13-43 | `new` fails exactly when the list does not hold 3·64³·3 coefficients ("data length mismatched"). Otherwise each position holds its entry of the flat list, and the z nodes are kept. The "wrong index" check never fires. |
| RgbTable.Fill | src/spectra/rgb_to_spectrum_table.rs:18-33 | The five nested loops copy entry `Flat(m, z, y, x, c)` to every position, and the counter ends at 3·64³·3. |
| RgbTable.Store | src/spectra/rgb_to_spectrum_table.rs:27-28 | One store extends the filled prefix by one entry. |
| Stratified.Index | src/samplers/stratified.rs:55 | The index the slice shuffle draws from a draw in [0, 1) lies below its bound. |
| Stratified.Rng.FromEntropy | src/samplers/stratified.rs:15-66 | A fresh generator draws from the given stream, from its start. |
| Stratified.Rng.Gen | src/samplers/stratified.rs:29-107 | `rng.gen::<f32>()` returns the next draw and consumes it. |
| Stratified.Rng.GenIndex | src/samplers/stratified.rs:55 | The shuffle's index is `Index` of the next draw, which it consumes. |
| Stratified.Stratified1D | src/samplers/stratified.rs:25-33 | `size` samples, and sample `i` lies in the `i`-th stratum `[i/size, (i+1)/size)`. |
| Stratified.Stratum | src/samplers/stratified.rs:27-29 | `(i + u) · (1/n) · n` lies in `[i, i + 1)`. |
| Stratified.FloorSqrtFits | src/samplers/stratified.rs:37-49 | The square grid fits in `size` and is nonempty when `size` is, so the remainder recursion terminates. |
| Stratified.SqrtFromBounds | src/samplers/stratified.rs:37 | Counting up from a root whose square fits finds the integer square root. |
| Stratified.FloorSqrtBounds | src/samplers/stratified.rs:37 | `(size as f32).sqrt() as usize` is the integer square root: `s² <= size < (s+1)²`. |
| Stratified.Cells | src/samplers/stratified.rs:41-46 | The inner loop yields one cell per column. |
| Stratified.GridLength | src/samplers/stratified.rs:40-47 | The two loops yield `s · s` cells. |
| Stratified.Grid2D | src/samplers/stratified.rs:36-52 | `generate_samples` yields exactly `size` samples, the remainder included. |
| Stratified.Grid2DSplit | src/samplers/stratified.rs:36-52 | The samples are the `s × s` grid, followed by the remainder's samples when `size` is not a square. The remainder's draws come after the grid's. |
| Stratified.Jitter | src/samplers/stratified.rs:42-43 | `(i + u) / n` lies in [0, 1) for `i < n`. |
| Stratified.CellsInUnitSquare | src/samplers/stratified.rs:41-46 | Every cell of a row lies in the unit square. |
| Stratified.GridInUnitSquare | src/samplers/stratified.rs:40-47 | Every cell of the grid lies in the unit square. |
| Stratified.Grid2DInUnitSquare | src/samplers/stratified.rs:36-52 | Every sample of `generate_samples` lies in the unit square. |
| Stratified.Swap | src/samplers/stratified.rs:55 | A swap keeps the length. |
| Stratified.SwapPermutation | src/samplers/stratified.rs:55 | A swap only reorders. |
| Stratified.ShuffleDown | src/samplers/stratified.rs:55 | The shuffle from position `i` down keeps the length. |
| Stratified.ShuffleDownStep | src/samplers/stratified.rs:55 | Each step swaps position `i` with a drawn index up to `i`, then goes on with the next draw. |
| Stratified.Shuffled | src/samplers/stratified.rs:55 | `shuffle` keeps the length. |
| Stratified.ShuffleDownPermutation | src/samplers/stratified.rs:55 | Every stretch of the shuffle only reorders. |
| Stratified.ShuffledPermutation | src/samplers/stratified.rs:55 | `shuffle` only reorders. |
| Stratified.Stratified2D | src/samplers/stratified.rs:35-57 | `generate_stratified_2d_samples` yields `size` samples. |
| Stratified.Stratified2DSamples | src/samplers/stratified.rs:35-57 | The 2D samples are the stratified grid, reordered, and all lie in the unit square. |
| Stratified.DimensionStartIs | src/samplers/stratified.rs:75-82 | Dimension `d` of `preprocess` starts after `d` dimensions' worth of draws. |
| Stratified.Column1D | src/samplers/stratified.rs:76 | One 1D sample per round. |
| Stratified.Column2D | src/samplers/stratified.rs:77 | One 2D sample per round. |
| Stratified.GenerateStratified1D | src/samplers/stratified.rs:25-33 | The loop computes `Stratified1D` and takes one draw per sample. |
| Stratified.GenerateSamples | src/samplers/stratified.rs:36-52 | `generate_samples` computes `Grid2D` and takes two draws per sample. |
| Stratified.GenerateGrid | src/samplers/stratified.rs:40-47 | The two loops compute the grid, row by row. |
| Stratified.GenerateRow | src/samplers/stratified.rs:41-46 | The inner loop computes row `ix`, two draws per cell. |
| Stratified.Shuffle | src/samplers/stratified.rs:55 | `shuffle` computes `Shuffled` and takes one draw per step. |
| Stratified.GenerateStratified2D | src/samplers/stratified.rs:35-57 | The grid is generated and then shuffled, computing `Stratified2D`. |
| Stratified.Column | src/samplers/stratified.rs:78-81 | One entry of dimension `d` per round. |
| Stratified.Prepared1DStratified | src/samplers/stratified.rs:64-83 | After `preprocess`, dimension `d`'s 1D samples across the `spp` rounds are stratified. Round `r` lies in `[r/spp, (r+1)/spp)`. |
| Stratified.Prepared2DStratified | src/samplers/stratified.rs:64-83 | After `preprocess`, dimension `d`'s 2D samples across the rounds are the stratified grid, reordered, and all in the unit square. |
| Stratified.PrepareDimension | src/samplers/stratified.rs:75-82 | One pass of the outer loop fills dimension `d` of both tables and keeps the earlier dimensions. |
| Stratified.SetColumn | src/samplers/stratified.rs:78-81 | The inner loop sets entry `d` of every round and leaves every other entry. |
| Stratified.StratifiedSampler.Default | src/samplers/stratified.rs:12-23 | A fresh generator, every counter at `usize::MAX`, no 1D samples and one empty round of 2D samples. |
| Stratified.StratifiedSampler.Fork | src/samplers/stratified.rs:60-62 | `fork` returns a new sampler in the default state, sharing nothing. |
| Stratified.StratifiedSampler.Preprocess | src/samplers/stratified.rs:64-83 | A fresh generator and counters at zero. Every dimension of both tables is filled, in order, from the generator's draws. |
| Stratified.StratifiedSampler.UpdateRound | src/samplers/stratified.rs:85-89 | The round advances, wrapping at `usize::MAX`, and both dimensions return to zero. Nothing else changes. |
| Stratified.StratifiedSampler.Get1DSample | src/samplers/stratified.rs:91-101 | A prepared sample when one is left for this round, advancing the dimension. Otherwise a fresh draw, with the dimension unchanged. |
| Stratified.StratifiedSampler.Get2DSample | src/samplers/stratified.rs:103-113 | The same, with two fresh draws when none is left. |
| Scene.InverseInvolutive | src/euclidean_space/transform.rs:51-56 | `inverse` swaps the matrix and its inverse, so inverting twice gives the transform back. |
| Scene.InverseOfProduct | src/euclidean_space/transform.rs:447-456 | The inverse of a product is the product of the inverses in reverse order. |
| Scene.LookAtAlongUp | src/scene/scene_builder.rs:11-14 | A `look` point along `up` from the position is the degenerate case on which `build_look_at_transform` panics. |
| Scene.DirectiveOf | src/scene/scene_builder.rs:384-493 | Every recognised directive is recognised by its own name. |
| Scene.DirectiveNameRoundTrip | src/scene/scene_builder.rs:384-493 | Each of the 24 directives `parse_file` dispatches on maps back to itself from its name. |
| Scene.Text | src/scene/scene_builder.rs:160-164 | `json_value_to_string` succeeds exactly on a JSON string and returns its text. Any other value is an error. |
| Scene.FirstToken | src/scene/scene_builder.rs:381-382 | A block's first token must be a nonempty JSON string. Its text is returned with the quotes trimmed. |
| Scene.Floats | src/scene/scene_builder.rs:179-184 | Every value is read as a number, in order. |
| Scene.FloatsFailure | src/scene/scene_builder.rs:179-184 | A failure is the failure of the first value that is not a number. |
| Scene.ReadFloats | src/scene/scene_builder.rs:179-184 | The loop computes `Floats`. |
| Scene.GraphicsOnlyKeepsTheRest | src/scene/scene_builder.rs:232-274 | The transform directives and `ReverseOrientation` change the graphics state only. Only `ReverseOrientation` touches the orientation flag. |
| Scene.AttributeEndRestores | src/scene/scene_builder.rs:385-398 | `AttributeEnd` restores the state the matching `AttributeBegin` pushed, and the stack returns to what it was. |
| Scene.UnmatchedAttributeEndPanics | src/scene/scene_builder.rs:389-393 | `AttributeEnd` panics exactly when nothing was pushed. |
| Scene.AttributeScope | src/scene/scene_builder.rs:385-398 | Between `AttributeBegin` and `AttributeEnd`, a directive that changes only the graphics state leaves no trace. |
| Scene.ReverseTwice | src/scene/scene_builder.rs:427-430 | `ReverseOrientation` flips the flag, and twice is no change at all. |
| Scene.CoordSysTransformLookup | src/scene/scene_builder.rs:161-171 | `CoordSysTransform` panics exactly on an unknown name. Otherwise it makes the recorded transform current and changes nothing else. |
| Scene.WorldBeginRecordsWorld | src/scene/scene_builder.rs:452-456 | After `WorldBegin` the current transform is the identity, and `CoordSysTransform "world"` finds it. |
| Scene.CameraRecordsCameraSystem | src/scene/scene_builder.rs:209-230 | `Camera` marks the camera declared and keeps the graphics state. `CoordSysTransform "camera"` then makes the current transform the inverse of camera-from-world. |
| Scene.FilmIsRgb | src/scene/scene_builder.rs:196-207 | `Film` succeeds exactly when it has a name. It then records a declared `rgb` film with the remaining tokens as parameters, whatever name was given, and changes nothing else. |
| Scene.IncludeParsesFile | src/scene/scene_builder.rs:412-417 | `Include` requires exactly one path, and parses `root/path` with the same builder. |
| Scene.UnknownDirectivePanics | src/scene/scene_builder.rs:491-493 | A block fails with "unknown token" exactly when its first token names no directive. |
| Scene.UnknownTokenIsUnknown | src/scene/scene_builder.rs:376-496 | No included file reports "unknown token" for a name that is a directive. |
| Scene.DefaultConsistent | src/scene/scene_builder.rs:141-154 | The default builder declares no film, no camera and no shapes. |
| Scene.ApplyConsistent | src/scene/scene_builder.rs:384-493 | Every block keeps the builder's invariant. A declared film is `rgb`, a declared camera has its transform and the `camera` system, and every recorded shape builds primitives. |
| Scene.RunFileConsistent | src/scene/scene_builder.rs:376-496 | A whole file, includes and all, keeps the invariant. |
| Scene.SceneHasFilmAndCamera | src/scene/scene_builder.rs:498-513 | `parse_scene` panics on a missing film first, then on a missing camera. When it gets past both, the scene has an `rgb` film and a camera with its coordinate system. |
| Scene.ReadsBlocksFrom | src/scene/scene_builder.rs:378-381 | The builder reads the blocks `token_0` to `token_{length-1}` of a converted document in order. |
| Scene.ReadsConvertedDocument | src/scene/scene_builder.rs:376-496 | The builder applies exactly the blocks the converter wrote, in order, which ties the builder to the converter's output. |
| Scene.SceneBuilder.Default | src/scene/scene_builder.rs:141-154 | `SceneBuilder::default` is the default state. |
| Scene.SceneBuilder.ParseScene | src/scene/scene_builder.rs:498-513 | `parse_scene` (up to the renderer) reports `SceneOf` and leaves its state. |
| Scene.SceneBuilder.ParseFile | src/scene/scene_builder.rs:376-496 | The loop over the blocks reports `RunFile` and leaves its state. |
| Scene.SceneBuilder.ParseBlock | src/scene/scene_builder.rs:381-494 | One block reports `Apply` and leaves its state. |
| Scene.SceneBuilder.ParseDirective | src/scene/scene_builder.rs:384-493 | The `match` on the first token reports `Step`. |
| Scene.SceneBuilder.PushGraphicsState | src/scene/scene_builder.rs:385-387 | `AttributeBegin` pushes a copy of the graphics state. |
| Scene.SceneBuilder.PopGraphicsState | src/scene/scene_builder.rs:389-398 | `AttributeEnd` pops and restores the state, or panics on an empty stack. |
| Scene.SceneBuilder.WorldBegin | src/scene/scene_builder.rs:452-456 | `WorldBegin` resets the current transform and records it as `world`. |
| Scene.SceneBuilder.ParseInclude | src/scene/scene_builder.rs:412-417 | `Include` reports `IncludeStep`. |
| Scene.SceneBuilder.ParseCamera | src/scene/scene_builder.rs:209-230 | `parse_camera` reports `CameraStep`. |
| Scene.SceneBuilder.ParseCoordSysTransform | src/scene/scene_builder.rs:161-171 | `parse_coord_sys_transform` reports `CoordSysStep`. |
| Scene.SceneBuilder.ParseFilm | src/scene/scene_builder.rs:196-207 | `parse_film` reports `FilmStep`. |
| Scene.SceneBuilder.ParseLookAt | src/scene/scene_builder.rs:173-194 | `parse_look_at` reports `LookAtStep`. It needs ten tokens, all numbers, and a non-degenerate `up`. |
| Scene.SceneBuilder.ParseRotate | src/scene/scene_builder.rs:232-241 | `parse_rotate` reports `RotateStep`. |
| Scene.SceneBuilder.ParseScale | src/scene/scene_builder.rs:243-252 | `parse_scale` reports `ScaleStep`. |
| Scene.SceneBuilder.ParseTransform | src/scene/scene_builder.rs:254-263 | `parse_transform` reports `SetTransformStep`. |
| Scene.SceneBuilder.ParseTranslate | src/scene/scene_builder.rs:265-274 | `parse_translate` reports `TranslateStep`. |
| Scene.SceneBuilder.ParseShape | src/scene/scene_builder.rs:276-374 | `parse_shape` reports `ShapeStep`. |

## Left out

- The converter's I/O is not modelled: creating the output folder, reading files, `json.dump` with its indentation policy, coloured printing and the `__main__` driver that globs the input folder. Input files are a map from path to lines, and written documents are returned as a list.
- Cyclic or very deep includes: the converter's recursion is stopped by CPython's recursion limit, which raises `RecursionError`. The `depth` parameter stands for that limit: it counts the `convert_pbrt` calls the interpreter's stack still allows, and a call with none left fails with `RecursionLimit`. The interpreter's actual limit and the frames other calls take are not modelled.
- The Rust builder recurses on cyclic includes until its stack overflows. The `fuel` parameter bounds its `Include` nesting instead and reports `IncludeTooDeep`.
- PbrtParser.ConvertPbrt: Python writes each included scene's document (pbrt_parser.py:126-127) and then its own (pbrt_parser.py:173-174) as it goes. When a later step fails, the files already written stay on disk, while the model returns only the error and no list of documents.
- PbrtParser.StartsUpper tests ASCII `A`-`Z`. Python's `str.isupper` (pbrt_parser.py:107) is Unicode-aware, so a token starting with a non-ASCII capital draws a diagnostic in the source but not in the model.
- Scene.SceneBuilder.ParseShape: the parameter lookups of the shape branches are not modelled, and neither are their panics. `get_integer_array("indices")` and `get_point3_array("P")` (src/scene/scene_builder.rs:294-297 and :328-329) panic on a missing key through `get_array`, and `get_string("filename", None)` (:351) panics without a stored value. The model records such a shape and returns `Ok`.
- The lexer's diagnostic `println!` output (with `line_number`) is not modelled. The line counter itself is.
- SceneUtil: paths are taken one character per byte. `rfind` returns a byte offset, while `chars().skip/take` count characters, so the source differs from the model on non-ASCII paths.
- Floating-point numbers are reals throughout. NaN placeholders (the `[Float::NAN; N]` arrays, `Transform::nan`, `CameraTransform::nan`) become fixed values that are always overwritten before they are read. `finite` holds of every real. A division by zero, which gives infinity or NaN in the source, is reported as an error.
- Parsing a number from text (`str::parse`) is a function parameter.
- Transforms are symbolic: the model records which matrices were multiplied, inverted or transposed, and never computes a matrix entry. `SquareMatrix::inverse` and the arithmetic of `build_look_at_transform` are not modelled. Its degenerate-`up` test is modelled through the cross product.
- BVH: `Bounds3f::fast_intersect` and `Primitive::intersect` are parameters, because ray-box and ray-shape tests are floating-point geometry. `ordered_primitives` holds indices into the input instead of shared pointers.
- BVH: the `size_of::<LinearBVHNode>() > 32` check is a property of the compiled layout and is not modelled. Nor is the `println!` after the build.
- Bvh.BvhAggregate.New requires fewer than 2^31 primitives so that node and primitive offsets fit the `u32` fields. It does not model wrap-around beyond that.
- Bvh.BvhAggregate.Intersect: the contract does not say that the returned hit is the closest along the ray, because that depends on the geometry of the box and primitive tests, which are parameters. It states the whole trace: the nodes popped, in the stack's last-in first-out order, and which are descended into and why (`Rounds`, unique by TraversalUnique). It also states that the hit is the replay of the popped leaves. ReplayCloser adds that, with a primitive test that never reports a hit beyond its distance, the best distance only shrinks.
- Stratified: the generator is a stream of draws in [0, 1). `slice::shuffle` draws its index as `floor(u · bound)`, which stands for `gen_range`. `StdRng::from_entropy` is the parameter `entropy`.
- Stratified.StratifiedSampler.UpdateRound wraps at `usize::MAX`, as a release build does. A debug build would panic on the first call after `default`.
- RgbTable: the Gauss-Newton optimisation that produces the coefficients (`rgb_to_spectrum_data.rs`) is not part of this model. The table is built from any list of the right length.
- Scene: `ParameterDict::build_from_vec`, which `parse_film`, `parse_camera` and `parse_shape` call, is not defined in the dictionary source modelled here. The builder stores each entity's raw parameter list instead, so a malformed list does not fail at that point. The dictionary itself is modelled in `SceneParameters`.
- Scene: `parse_shape` builds no geometry. A known shape is recorded with its name, transform, orientation and parameters. The meshes, spheres, subdivision surfaces and the `read_ply` of `plymesh` are not modelled.
- Scene: `parse_json` reads a file from a map of documents. A missing path or a document without `length` is an error.
- Scene: `json_values_to_floats`, `json_value_to_floats` and `get_folder_potion` are not part of this model. Numbers are read one by one as `parse_look_at` does, and the folder of the scene file is the parameter `root`.
- Scene.FirstToken uses the converter's `trim_quote`. The Rust copy in `src/scene_builder.rs` underflows `len - 2` on a one-character quote token, but no converted block starts with one.
- Scene: the film warning `println!` and everything `parse_scene` does after its film and camera checks are not modelled. That covers the film, camera, sampler, BVH, colour space and integrator construction.

## Findings

| source | as written | input that shows it | evidently intended | confidence | as-written member | corrected member |
|---|---|---|---|---|---|---|
| src/spectra/const_piecewise_linear_spectrum.rs:142 | `samples` holds `N * 2 - 4` entries, but the last wavelength is read from `samples[N * 2 - 2]`, two entries past its end. The constructor therefore panics for every `N`. | `N = 4` with `samples = [400.0, 1.0, 500.0, 2.0]`: index 6 of a 4-entry array. | The last given wavelength, `samples[samples.len() - 2]`. The rest of the constructor then pads the table at both ends. | not executed | ConstSpectrum.FromInterleavedMissingAsWritten | ConstSpectrum.FromInterleavedMissing |
