# A verified model of the FpDbTest query-template parser

`QueryParser::parse($query, $params, $skipValue)` turns an SQL template into a
query for MySQL. It makes one left-to-right pass over the template's
characters with a small state machine (`General`, `StringToken`,
`PlaceholderToken`). The pass does the following:

- It replaces the placeholders `?`, `?d`, `?f`, `?a` and `?#` by SQL literals
  built from the parameters, which it takes in order.
- It copies single-quoted literals verbatim.
- It keeps or drops each conditional block `{...}`. A block is dropped when one
  of the values read inside it is strictly equal (`===`) to the skip value.
- It throws `ParseError` for a malformed template. It throws
  `InvalidArgumentException` for a missing parameter or a value it cannot render.

The model is organised as follows.

- `php_values.dfy` (module `PhpValues`) holds PHP's values, as far as the
  parser meets them. It also holds the few conversions the parser relies
  on: `(string)`, `(int)`, `(float)`, `implode` and `array_is_list`.
- `query_parser_state.dfy` (module `QueryParserState`) holds the scanner's states.
- `query_parser.dfy` (module `QueryParser`) holds the helpers `getParam`,
  `autoParam`, `identifierParam`, `arrayParam` and `includeConditional`, and the
  parser itself, in two forms:
  - as functions: `Step` is one turn of the `foreach`, `Run` is the fold of
    `Step` over the template, `Finish` handles the end of the template, and
    `Parsed` is the whole parse;
  - as the imperative code the source is: `Parse` is the loop over the
    characters, `ScanCharacter` the `switch`, and `OpenBlock`, `CloseBlock`
    and `ScanTypedPlaceholder` its cases. Each is proved to compute the
    corresponding function. `ArrayParam` keeps the `foreach` of the keyed
    branch of `arrayParam` as a loop.
- `parser_properties.dfy` (module `ParserProperties`) states what the parser
  promises over those functions: failures are final, exactly which steps fail
  and how, literals are copied verbatim, block verdicts, the placeholder
  quirks around braces and quotes, and that parameters are read in order and
  only as far as needed.
- `rendering_properties.dfy` (module `RenderingProperties`) gives the shape of
  an `?a` rendering, and shows that an `?#` rendering reads back as the names
  it quotes, as long as the names hold no backtick.
- `template_semantics.dfy` (module `TemplateSemantics`) is a reference
  semantics. A template is built from text, literals, placeholders and blocks.
  Its expected rendering is defined piece by piece, without a scanner. The
  module proves that `parse` returns exactly that rendering for every
  well-formed template, and never a `ParseError`.
- `database_test_cases.dfy` (module `DatabaseTestCases`) and
  `database_error_cases.dfy` (module `ErrorCases`) prove the expectations of
  `DatabaseTest::testBuildQuery`. They use the skip value of `Database::skip()`,
  which is `null`.

The driver's escaping (`mysqli::real_escape_string`) and PHP's conversions
involving floats or numeric strings are not defined in the repository. They are
parameters of the model: the fields of `PhpValues.Runtime`. The test cases
assume only that the escaping leaves `Jack` and `jack@me.com` unchanged.

Three behaviours of the code are modelled as written:

- `?'` drops the placeholder. The quote case does not look at a pending `?`,
  so no parameter is read and no literal is opened.
- The skip test compares the raw values a block read. For `?d` and `?f` this is
  the value before the cast.
- `?{` writes its value to the main output, before the block opens, and does not
  record it for the skip test. `?}` renders its value into the block and records
  it.

`?a` on a non-array, and `?#` on `null`, reach a parameter declared as
`array` or `string|array`. PHP then raises a `TypeError` rather than an
`InvalidArgumentException`, so the model has a third failure kind, `TypeError`.
A bool, int or float passed to `?#` is converted to a string, as PHP's
coercive typing mode does.

## Model

| member | source | states |
|---|---|---|
| QueryParser.GetParam | src/QueryParser.php:255-264 | succeeds exactly when the index exists, with the parameter at that index; otherwise fails with InvalidArgument |
| QueryParser.AutoParam | src/QueryParser.php:266-281 | among the modelled values (no objects or resources), fails (InvalidArgument) exactly on arrays; null renders as `null`, a bool as `1` or `0`, a float as the runtime's text of it |
| QueryParser.AutoParamNumeral | src/QueryParser.php:274-275 | an int renders as a decimal numeral that reads back as that int |
| QueryParser.AutoParamQuoted | src/QueryParser.php:271-272 | a string renders as the driver's escaping of it between two single quotes |
| PhpValues.IntTextRoundTrip | src/QueryParser.php:274-275 | `'' . $int` is a decimal numeral that reads back as the same int, negative values included |
| QueryParser.IdentifierParam | src/QueryParser.php:286-295 | fails (TypeError) exactly on null; a string is wrapped in backticks |
| QueryParser.QuotedItems | src/QueryParser.php:291-294 | one entry per array item, in iteration order, each item converted to a string and wrapped in backticks |
| QueryParser.Pieces | src/QueryParser.php:302-317 | a failure is InvalidArgument; a success has one piece per entry |
| QueryParser.PiecesFailure | src/QueryParser.php:302-317 | the rendering of the entries fails exactly when some entry holds an array |
| QueryParser.ArrayText | src/QueryParser.php:300-318 | a failure is TypeError on a value that is not an array, and InvalidArgument on an array |
| QueryParser.ArrayTextFailure | src/QueryParser.php:300-318 | `?a` fails exactly when the value is not an array, or when one of its entries holds an array |
| QueryParser.ArrayParam | src/QueryParser.php:300-318 | the loop over a keyed array, and the list branch, compute `ArrayText` |
| RenderingProperties.PiecesRendering | src/QueryParser.php:302-317 | for an array without nested arrays, the rendering is the pieces of its entries, one per entry, in iteration order |
| RenderingProperties.ListRendering | src/QueryParser.php:302-307 | `?a` on a list of scalars is the `autoParam` renderings of its values joined by `, ` |
| RenderingProperties.KeyedRendering | src/QueryParser.php:313-317 | `?a` on a keyed array of scalars is `` `key` = value `` for every entry, in iteration order, joined by `, ` |
| RenderingProperties.ReadJoinedNames | src/QueryParser.php:291-294 | backticked names joined by `, ` read back as the names, if none holds a backtick |
| RenderingProperties.IdentifierRoundTrip | src/QueryParser.php:288-290 | `?#` on a scalar reads back as its string form |
| RenderingProperties.IdentifierListRoundTrip | src/QueryParser.php:291-294 | `?#` on a non-empty array reads back as its items' string forms, in iteration order |
| RenderingProperties.BacktickInName | src/QueryParser.php:288-290 | backticks are not escaped: `` a`b `` renders as `` `a`b` ``, which no longer reads back as one name |
| QueryParser.IncludeConditionalStrict | src/QueryParser.php:320-325 | a block is kept exactly when every value it read differs strictly from the skip value |
| QueryParser.IncludeConditionalIn | src/QueryParser.php:320-325 | a block is kept exactly when the skip value is not among the values it read (`in_array` in strict mode) |
| TemplateSemantics.SkipReadExcluded | src/QueryParser.php:320-325 | the reference semantics drops a block exactly when `includeConditional` rejects the parameters that block read |
| QueryParser.TypedParam | src/QueryParser.php:80-134 | `?d` and `?f` never fail; no typed placeholder fails with ParseError; what `?d` and `?f` render is stated by QueryParser.TypedParamRendering |
| QueryParser.TypedParamRendering | src/QueryParser.php:80-106 | `?d` and `?f` render null as `null`; any other value is cast first, so `?d` gives a numeral that reads back as `(int)` of the value and `?f` the text of `(float)` of it; on null, a bool or an int `?d` renders as `?` does |
| PhpValues.IntCast | src/QueryParser.php:88 | definition of `(int)`; see QueryParser.TypedParamRendering |
| PhpValues.FloatCast | src/QueryParser.php:102 | definition of `(float)`; see QueryParser.TypedParamRendering |
| PhpValues.PhpString | src/QueryParser.php:293 | definition of `(string)` as concatenation applies it; see QueryParser.QuotedItems and RenderingProperties.IdentifierListRoundTrip |
| QueryParser.IncludeConditional | src/QueryParser.php:320-325 | definition; see QueryParser.IncludeConditionalStrict and QueryParser.IncludeConditionalIn |
| QueryParser.StepQuote | src/QueryParser.php:61-66 | definition of the `'` case; see ParserProperties.PlainRun and ParserProperties.QuoteAfterPlaceholder |
| QueryParser.StepQuestion | src/QueryParser.php:68-78 | definition of the `?` case; see ParserProperties.DoubleQuestionMark and ParserProperties.StepErrors |
| QueryParser.StepMark | src/QueryParser.php:80-134 | definition of the `d`, `f`, `a`, `#` cases; see QueryParser.ScanTypedPlaceholder and ParserProperties.StepInBlock |
| QueryParser.StepOpen | src/QueryParser.php:136-159 | definition of the `{` case; see ParserProperties.NestedBlock and ParserProperties.PlaceholderBeforeBlock |
| QueryParser.StepClose | src/QueryParser.php:161-186 | definition of the `}` case; see ParserProperties.UnopenedClose, ParserProperties.CloseStep and ParserProperties.BlockVerdict |
| QueryParser.StepOther | src/QueryParser.php:199-211 | definition of the `default` case; see ParserProperties.PlainRun and ParserProperties.StepInBlock |
| QueryParser.Step | src/QueryParser.php:59-222 | definition of one turn of the `foreach`; see QueryParser.ScanCharacter and ParserProperties.StepErrors |
| QueryParser.Run | src/QueryParser.php:53-226 | definition of the `foreach`; see ParserProperties.FailureIsFinal and ParserProperties.RunInBlock |
| QueryParser.Finish | src/QueryParser.php:228-248 | definition of the end of the template; see ParserProperties.EndOfTemplate |
| QueryParser.Parsed | src/QueryParser.php:29-249 | definition of what `parse` returns or throws; see QueryParser.Parse and TemplateSemantics.TemplateParsed |
| QueryParser.RenderTyped | src/QueryParser.php:80-134 | the cases `d`, `f`, `a` and `#` render their parameter as `TypedParam` says: `autoParam` of the int or float cast (null stays null), `arrayParam`, `identifierParam` |
| QueryParser.ScanTypedPlaceholder | src/QueryParser.php:80-134 | a typed placeholder takes the next parameter, records it in an open block, and emits its rendering; a missing parameter or refused value is the step's failure |
| QueryParser.OpenBlock | src/QueryParser.php:136-159 | `{` outside a literal computes `StepOpen`: an error inside a block, otherwise an empty open block, after writing a pending `?` to the main output |
| QueryParser.CloseBlock | src/QueryParser.php:161-186 | `}` outside a literal computes `StepClose`: an error outside a block, otherwise a pending `?` joins the block and the block is judged |
| QueryParser.ScanCharacter | src/QueryParser.php:60-222 | one turn of the `foreach`, including where its token goes, computes `Step` |
| QueryParser.Parse | src/QueryParser.php:29-249 | the loop over the template and the end-of-template handling compute `Parsed` |
| ParserProperties.FailureIsFinal | src/QueryParser.php:53-226 | once a prefix of the template has failed, nothing after it changes the outcome |
| ParserProperties.StepErrors | src/QueryParser.php:60-212 | a step fails with ParseError exactly on `??`, on `{` in an open block or on `}` with none open, in both cases outside literals; any other failure comes from resolving a placeholder, which reads parameter `next`, fails with InvalidArgument past the end, and advances `next` by exactly one |
| ParserProperties.PlainRun | src/QueryParser.php:60-66 | outside placeholders, text without `?`, `{` or `}` is copied one token per character, and each quote flips the literal state |
| ParserProperties.Passthrough | src/QueryParser.php:29-249 | a template without `?`, `{` or `}` and with balanced quotes comes back unchanged, whatever the parameters |
| ParserProperties.LiteralRun | src/QueryParser.php:68-186 | inside a literal, every character but the quote is copied verbatim and reads no parameter |
| ParserProperties.QuotedLiteral | src/QueryParser.php:61-66 | a whole quoted literal is copied verbatim and leaves state, block and parameter index as they were |
| ParserProperties.DoubleQuestionMark | src/QueryParser.php:72-74 | `??` outside a literal is a ParseError, whatever follows |
| ParserProperties.NestedBlock | src/QueryParser.php:141-144 | `{` while a block is open is a ParseError |
| ParserProperties.UnopenedClose | src/QueryParser.php:166-169 | `}` with no block open is a ParseError |
| ParserProperties.EndOfTemplate | src/QueryParser.php:228-248 | at the end, an open block or literal is a ParseError and nothing else is; a pending `?` takes parameter `next`; otherwise the output is the tokens joined |
| ParserProperties.StepInBlock | src/QueryParser.php:214-221 | inside a block, a non-brace character leaves the main output alone and records exactly the parameter it reads |
| ParserProperties.RunInBlock | src/QueryParser.php:213-221 | the same over brace-free text: the block records exactly the parameters read, in order |
| ParserProperties.BlockVerdict | src/QueryParser.php:161-186 | a block `{t}` records the parameters read between its braces, and the main output gains its tokens if and only if none is strictly equal to the skip value |
| ParserProperties.CloseStep | src/QueryParser.php:170-182 | the `}` step records a pending `?`'s parameter and keeps the block's tokens exactly when the skip value is not among its values |
| ParserProperties.PlainBlockKept | src/QueryParser.php:136-186 | a block without placeholders is always kept, its text copied to the main output |
| ParserProperties.PlaceholderBeforeBlock | src/QueryParser.php:148-155 | `?{` writes the value to the main output and opens an empty block that has not recorded it |
| ParserProperties.PlaceholderBeforeClose | src/QueryParser.php:170-182 | `?}` renders the value into the block and records it before the skip test |
| ParserProperties.QuoteAfterPlaceholder | src/QueryParser.php:61-66 | `?'` drops the placeholder: no parameter is read and no literal is opened |
| ParserProperties.StepTruncated | src/QueryParser.php:255-264 | with fewer parameters, a step is the same unless the parameter it resolves is missing, and then it fails with InvalidArgument |
| ParserProperties.TruncatedParams | src/QueryParser.php:255-264 | dropping trailing parameters either leaves the result unchanged or turns it into InvalidArgument, never into another result |
| ParserProperties.ExtraParamsIgnored | src/QueryParser.php:255-264 | parameters beyond those a successful parse reads are ignored |
| TemplateSemantics.TemplateParsed | src/QueryParser.php:29-249 | for every well-formed template, `parse` returns exactly the reference rendering (placeholders filled in order, literals verbatim, each block shown unless it read the skip value) or fails as that rendering does, never with ParseError |
| TemplateSemantics.FlatParsed | src/QueryParser.php:29-249 | a template without blocks renders as its pieces one after another |
| TemplateSemantics.UnterminatedLiteral | src/QueryParser.php:233-236 | a literal left open at the end is a ParseError |
| TemplateSemantics.UnclosedBlock | src/QueryParser.php:229-232 | a block left open at the end is a ParseError, with or without a pending `?` |
| TemplateSemantics.DoubledMarkInBlock | src/QueryParser.php:72-74 | `??` inside a block is a ParseError |
| TemplateSemantics.BlockInBlock | src/QueryParser.php:141-144 | `{` inside a block is a ParseError |
| TemplateSemantics.StrayClose | src/QueryParser.php:166-169 | `}` after a closed block is a ParseError |
| DatabaseTestCases.PlainQuery | src/DatabaseTest.php:20 | a query without placeholders comes back unchanged |
| DatabaseTestCases.NamePlaceholder | src/DatabaseTest.php:22-25 | `?` on `Jack` gives `'Jack'` |
| DatabaseTestCases.UsersPlaceholders | src/DatabaseTest.php:27-30 | `?#` on a list quotes each name; `?d` on `2` and on `true` gives `2` and `1` |
| DatabaseTestCases.KeyedUpdate | src/DatabaseTest.php:32-35 | `?a` on a keyed array gives `` `name` = 'Jack', `email` = null `` |
| DatabaseTestCases.SkippedBlock | src/DatabaseTest.php:37-42 | a block whose `?d` reads null, the skip value, is dropped |
| DatabaseTestCases.KeptBlock | src/DatabaseTest.php:37-42 | the same block with `true` is kept, as ` and block = 1` |
| DatabaseTestCases.QuotedParsed | src/DatabaseTest.php:76-87 | any quoted literal is copied as it stands, and a trailing `?` takes the first parameter |
| DatabaseTestCases.QuotedMark | src/DatabaseTest.php:76-80 | a `?` inside a literal is not a placeholder |
| DatabaseTestCases.QuotedBraces | src/DatabaseTest.php:83-87 | placeholders and braces inside a literal mean nothing |
| DatabaseTestCases.BracketSkipped | src/DatabaseTest.php:90-94 | after `?{`, a block reading null is dropped, and the value before the `{` stays |
| DatabaseTestCases.BracketKeptCase | src/DatabaseTest.php:96-100 | the same block reading `true` is kept, its placeholders filled |
| DatabaseTestCases.SkippedAfterMark | src/DatabaseTest.php:103-107 | `?{ ... ?}` with null before the `}` drops the block |
| DatabaseTestCases.KeptAfterMark | src/DatabaseTest.php:109-113 | the same block with a string before the `}` is kept, the string quoted |
| ErrorCases.UnterminatedCase | src/DatabaseTest.php:128-136 | a literal left open is a ParseError |
| ErrorCases.UnclosedCase | src/DatabaseTest.php:138-149 | a block left open, ending in `?`, is a ParseError |
| ErrorCases.DoubledMarkCase | src/DatabaseTest.php:151-163 | `??` in a block is a ParseError |
| ErrorCases.NestedCase | src/DatabaseTest.php:165-177 | `{{` is a ParseError |
| ErrorCases.StrayCloseCase | src/DatabaseTest.php:179-191 | `}}` after a block is a ParseError |

## Left out

- The `Comments` state and `QueryParserState::delimiters()` are not modelled. The parser never enters that state; its cases are commented out.
- Error message texts are not modelled; only which exception is thrown (`ParseError`, `InvalidArgument`, `TypeError`).
- `mysqli::real_escape_string` is a parameter of the model, `Runtime.escape`, because it belongs to the database driver.
- PHP's float-to-string, float-to-int, string-to-int, int-to-float and string-to-float conversions are parameters, because they are floating-point or locale-free numeric-string parsing outside the repository.
- Floats are bit patterns, so strict equality of floats in the skip test is bitwise: NaN and signed zeros compare differently than in PHP.
- Parameter and skip values are null, bool, int, float, string or array. Objects and resources are not modelled: `autoParam` refuses them with InvalidArgumentException, `?#` converts a Stringable object to a string and refuses any other object with TypeError, `?d` and `?f` cast an object to 1 and 1.0, and the skip test compares objects by identity.
- Integers are unbounded: PHP's 64-bit ints and their overflow into floats are not modelled.
- `mb_str_split` is taken as given: the template is already a sequence of characters, and invalid UTF-8 is not modelled.
- `$params` is a list: `getParam` on a PHP array with gaps or string keys is not modelled.
- Array keys are already normalised: PHP's conversion of numeric-string keys to ints happens before the parser sees the array.
- PHP's "Array to string conversion" warning, for an array item of `?#`, is not modelled; the item renders as `Array`, as PHP returns.
- `src/Database.php`, `seed.php` and `test.php` are not part of this model. Their only role here is the skip value, `null`, which the test cases use.
- RenderingProperties.IdentifierRoundTrip: holds only for names without a backtick, because `identifierParam` does not escape backticks (see `BacktickInName`).
