/** The query-template parser: a single left-to-right pass over the template
    that replaces typed placeholders (`?`, `?d`, `?f`, `?a`, `?#`) by SQL
    literals, passes single-quoted literals through untouched, and keeps or
    drops one `{...}` block at a time depending on the values used inside it. */
module QueryParser {
  import opened PhpValues
  import opened QueryParserState

  /** The ways a parse can fail: a malformed template (`ParseError`), a missing
      parameter or a value `autoParam` cannot render
      (`InvalidArgumentException`), and a value the typed parameter of
      `arrayParam` or `identifierParam` refuses (PHP's `TypeError`). */
  datatype Failure = ParseError | InvalidArgument | TypeError

  datatype Result<T> = Ok(value: T) | Err(error: Failure) {
    predicate IsFailure() { Err? }
    function PropagateFailure<U>(): Result<U>
      requires Err?
    {
      Err(error)
    }
    function Extract(): T
      requires Ok?
    {
      value
    }
  }

  // ---------------------------------------------------------------------
  // The helpers.

  /** `getParam`: the parameter at `index`, or InvalidArgument when the list
      has no such index. */
  function GetParam(params: seq<Value>, index: nat): (r: Result<Value>)
    ensures r.Ok? <==> index < |params|
    ensures r.Ok? ==> r.value == params[index]
    ensures r.Err? ==> r.error == InvalidArgument
  {
    if index < |params| then Ok(params[index]) else Err(InvalidArgument)
  }

  /** `autoParam`: a scalar as an SQL literal. */
  function AutoParam(rt: Runtime, v: Value): (r: Result<string>)
    ensures r.Err? <==> v.Arr?
    ensures r.Err? ==> r.error == InvalidArgument
    ensures v.Null? ==> r.value == "null"
    ensures v.Bool? ==> r.value == (if v.b then "1" else "0")
    ensures v.Float? ==> r.value == rt.floatText(v.bits)
  {
    match v
    case Null => Ok("null")
    case Str(s) => Ok("'" + rt.escape(s) + "'")
    case Int(i) => Ok(IntText(i))
    case Float(f) => Ok(rt.floatText(f))
    case Bool(b) => Ok(if b then "1" else "0")
    case Arr(_) => Err(InvalidArgument)
  }

  /** An int renders as a numeral that reads back as that int. */
  lemma AutoParamNumeral(rt: Runtime, i: int)
    ensures NumeralValue(AutoParam(rt, Int(i)).value) == Some(i)
  {
    IntTextRoundTrip(i);
  }

  /** A string renders as the driver's escaping of it between single quotes. */
  lemma AutoParamQuoted(rt: Runtime, s: string)
    ensures var r := AutoParam(rt, Str(s)).value;
      && |r| == |rt.escape(s)| + 2
      && r[0] == '\'' && r[|r| - 1] == '\''
      && r[1..|r| - 1] == rt.escape(s)
  {
  }

  function Backticked(name: string): string
  {
    "`" + name + "`"
  }

  /** The items of an array, each converted to a string and wrapped in backticks. */
  function QuotedItems(rt: Runtime, entries: seq<(Key, Value)>): (r: seq<string>)
    ensures |r| == |entries|
    ensures forall k :: 0 <= k < |entries| ==> r[k] == Backticked(PhpString(rt, entries[k].1))
  {
    seq(|entries|, k requires 0 <= k < |entries| => Backticked(PhpString(rt, entries[k].1)))
  }

  /** `identifierParam(string|array $identifiers)`. In PHP's coercive typing
      mode a bool, int or float argument is converted to a string; null is
      refused with a TypeError. */
  function IdentifierParam(rt: Runtime, v: Value): (r: Result<string>)
    ensures r.Err? <==> v.Null?
    ensures r.Err? ==> r.error == TypeError
    ensures v.Str? ==> r.value == Backticked(v.s)
  {
    match v
    case Null => Err(TypeError)
    case Arr(entries) => Ok(Join(", ", QuotedItems(rt, entries)))
    case _ => Ok(Backticked(PhpString(rt, v)))
  }

  /** One element of an `?a` rendering: the value alone for a list, or
      `` `key` = value `` for a keyed array. */
  function Piece(rt: Runtime, entry: (Key, Value), keyed: bool): (r: Result<string>)
    ensures r.Err? <==> entry.1.Arr?
  {
    if keyed then
      var name := IdentifierParam(rt, Str(KeyText(entry.0))).value;
      var text :- AutoParam(rt, entry.1);
      Ok(name + " = " + text)
    else
      AutoParam(rt, entry.1)
  }

  /** The pieces of all entries, in iteration order; the first entry that
      cannot be rendered makes the whole rendering fail. */
  function Pieces(rt: Runtime, entries: seq<(Key, Value)>, keyed: bool): (r: Result<seq<string>>)
    ensures r.Err? ==> r.error == InvalidArgument
    ensures r.Ok? ==> |r.value| == |entries|
  {
    if |entries| == 0 then Ok([])
    else
      var first :- Piece(rt, entries[0], keyed);
      var rest :- Pieces(rt, entries[1..], keyed);
      Ok([first] + rest)
  }

  /** `arrayParam(array $values)`: a list renders as its values, a keyed array
      as `` `key` = value `` pairs, joined by ", ". */
  function ArrayText(rt: Runtime, v: Value): (r: Result<string>)
    ensures r.Err? ==> r.error == (if v.Arr? then InvalidArgument else TypeError)
  {
    match v
    case Arr(entries) =>
      var parts :- Pieces(rt, entries, !IsList(entries));
      Ok(Join(", ", parts))
    case _ => Err(TypeError)
  }

  /** The rendering of an array fails exactly when one of its entries holds
      an array. */
  lemma {:induction false} PiecesFailure(rt: Runtime, entries: seq<(Key, Value)>, keyed: bool)
    ensures Pieces(rt, entries, keyed).Err? <==> exists k :: 0 <= k < |entries| && entries[k].1.Arr?
  {
    if |entries| > 0 {
      PiecesFailure(rt, entries[1..], keyed);
      if exists k :: 0 <= k < |entries[1..]| && entries[1..][k].1.Arr? {
        var k :| 0 <= k < |entries[1..]| && entries[1..][k].1.Arr?;
        assert entries[k + 1].1.Arr?;
      }
      if exists k :: 0 <= k < |entries| && entries[k].1.Arr? {
        var k :| 0 <= k < |entries| && entries[k].1.Arr?;
        if k > 0 {
          assert entries[1..][k - 1].1.Arr?;
        }
      }
    }
  }

  /** `arrayParam` fails exactly on a value that is not an array, or on an
      array one of whose entries holds an array. */
  lemma ArrayTextFailure(rt: Runtime, v: Value)
    ensures ArrayText(rt, v).Err? <==> !v.Arr? || exists k :: 0 <= k < |v.entries| && v.entries[k].1.Arr?
  {
    if v.Arr? {
      PiecesFailure(rt, v.entries, !IsList(v.entries));
    }
  }

  /** `prefix` in front of a successful rendering. */
  function Prefixed(prefix: seq<string>, r: Result<seq<string>>): Result<seq<string>>
  {
    match r
    case Ok(parts) => Ok(prefix + parts)
    case Err(e) => Err(e)
  }

  lemma PiecesFirst(rt: Runtime, entries: seq<(Key, Value)>, keyed: bool)
    requires |entries| > 0
    ensures Pieces(rt, entries, keyed) ==
      match Piece(rt, entries[0], keyed)
      case Ok(p) => Prefixed([p], Pieces(rt, entries[1..], keyed))
      case Err(e) => Err(e)
  {
  }

  lemma PrefixedTwice(a: seq<string>, b: seq<string>, r: Result<seq<string>>)
    ensures Prefixed(a, Prefixed(b, r)) == Prefixed(a + b, r)
  {
    if r.Ok? {
      assert a + (b + r.value) == (a + b) + r.value;
    }
  }

  /** One turn of the loop over a keyed array: the entry's piece joins the
      rendered prefix, or the whole rendering fails as the entry does. */
  lemma KeyedEntry(rt: Runtime, values: seq<(Key, Value)>, k: nat, result: seq<string>)
    requires k < |values|
    requires Pieces(rt, values, true) == Prefixed(result, Pieces(rt, values[k..], true))
    ensures AutoParam(rt, values[k].1).Err? ==> Pieces(rt, values, true) == Err(InvalidArgument)
    ensures AutoParam(rt, values[k].1).Ok? ==>
      Pieces(rt, values, true) ==
        Prefixed(result + [IdentifierParam(rt, Str(KeyText(values[k].0))).value + " = " + AutoParam(rt, values[k].1).value],
                 Pieces(rt, values[k + 1..], true))
  {
    assert values[k..][1..] == values[k + 1..];
    PiecesFirst(rt, values[k..], true);
    if AutoParam(rt, values[k].1).Ok? {
      var piece := IdentifierParam(rt, Str(KeyText(values[k].0))).value + " = " + AutoParam(rt, values[k].1).value;
      assert Piece(rt, values[k], true) == Ok(piece);
      PrefixedTwice(result, [piece], Pieces(rt, values[k + 1..], true));
    }
  }

  /** `arrayParam`, with the keyed branch written as the loop it is. */
  method ArrayParam(rt: Runtime, v: Value) returns (r: Result<string>)
    ensures r == ArrayText(rt, v)
  {
    if !v.Arr? {
      return Err(TypeError);
    }
    var values := v.entries;
    if IsList(values) {
      var parts :- Pieces(rt, values, false);
      return Ok(Join(", ", parts));
    }
    var result: seq<string> := [];
    var k := 0;
    assert values[k..] == values;
    if Pieces(rt, values, true).Ok? {
      assert result + Pieces(rt, values, true).value == Pieces(rt, values, true).value;
    }
    while k < |values|
      invariant 0 <= k <= |values|
      invariant Pieces(rt, values, true) == Prefixed(result, Pieces(rt, values[k..], true))
    {
      KeyedEntry(rt, values, k, result);
      var name := IdentifierParam(rt, Str(KeyText(values[k].0))).value;
      var text :- AutoParam(rt, values[k].1);
      result := result + [name + " = " + text];
      k := k + 1;
    }
    assert values[k..] == [];
    assert result + [] == result;
    return Ok(Join(", ", result));
  }

  /** `includeConditional`: keep a block unless one of its values is
      strictly equal to the skip value (`in_array` with strict comparison,
      scanning the values in order). */
  function IncludeConditional(blockParams: seq<Value>, skip: Value): bool
    decreases |blockParams|
  {
    |blockParams| == 0 || (blockParams[0] != skip && IncludeConditional(blockParams[1..], skip))
  }

  /** The block is kept exactly when every one of its values differs from
      the skip value. */
  lemma {:induction false} IncludeConditionalStrict(blockParams: seq<Value>, skip: Value)
    ensures IncludeConditional(blockParams, skip) <==>
      forall k :: 0 <= k < |blockParams| ==> blockParams[k] != skip
    decreases |blockParams|
  {
    if |blockParams| > 0 {
      var rest := blockParams[1..];
      IncludeConditionalStrict(rest, skip);
      if forall k :: 0 <= k < |blockParams| ==> blockParams[k] != skip {
        forall k | 0 <= k < |rest| ensures rest[k] != skip {
          assert rest[k] == blockParams[k + 1];
        }
      }
      if IncludeConditional(blockParams, skip) {
        forall k | 0 <= k < |blockParams| ensures blockParams[k] != skip {
          if k > 0 {
            assert blockParams[k] == rest[k - 1];
          }
        }
      }
    }
  }

  /** The block is kept exactly when the skip value is not among its values. */
  lemma {:induction false} IncludeConditionalIn(blockParams: seq<Value>, skip: Value)
    ensures IncludeConditional(blockParams, skip) <==> skip !in blockParams
    decreases |blockParams|
  {
    if |blockParams| > 0 {
      IncludeConditionalIn(blockParams[1..], skip);
      assert blockParams == [blockParams[0]] + blockParams[1..];
    }
  }

  // ---------------------------------------------------------------------
  // The scanner.

  /** Everything `parse` keeps while it scans: the state, whether a block is
      open, the tokens and raw values of the block, the index of the next
      parameter and the tokens of the main output. */
  datatype Scanner = Scanner(
    state: State,
    inBlock: bool,
    block: seq<string>,
    blockParams: seq<Value>,
    next: nat,
    out: seq<string>)

  const Initial := Scanner(General, false, [], [], 0, [])

  /** Appends a token to the open block, or else to the main output. */
  function Emit(sc: Scanner, token: string): Scanner
  {
    if sc.inBlock then sc.(block := sc.block + [token]) else sc.(out := sc.out + [token])
  }

  /** Records a raw value as used inside the open block, if there is one. */
  function Record(sc: Scanner, v: Value): Scanner
  {
    if sc.inBlock then sc.(blockParams := sc.blockParams + [v]) else sc
  }

  /** Closes the block, appending its tokens to the main output when kept. */
  function Close(sc: Scanner, skip: Value): Scanner
  {
    sc.(inBlock := false,
        out := if IncludeConditional(sc.blockParams, skip) then sc.out + sc.block else sc.out)
  }

  predicate IsTypeMark(c: char) {
    c == 'd' || c == 'f' || c == 'a' || c == '#'
  }

  /** The rendering of a typed placeholder `?d`, `?f`, `?a` or `?#`. */
  function TypedParam(rt: Runtime, mark: char, v: Value): (r: Result<string>)
    requires IsTypeMark(mark)
    ensures r.Err? ==> r.error != ParseError
    ensures (mark == 'd' || mark == 'f') ==> r.Ok?
  {
    if mark == 'd' then AutoParam(rt, if v != Null then Int(IntCast(rt, v)) else Null)
    else if mark == 'f' then AutoParam(rt, if v != Null then Float(FloatCast(rt, v)) else Null)
    else if mark == 'a' then ArrayText(rt, v)
    else IdentifierParam(rt, v)
  }

  /** What `?d` and `?f` render: null stays `null`; any other value is cast
      to int or float first, so `?d` gives a numeral that reads back as the
      cast value, and on null, bools and ints it renders as `?` does. */
  lemma TypedParamRendering(rt: Runtime, v: Value)
    ensures TypedParam(rt, 'd', Null) == Ok("null") == TypedParam(rt, 'f', Null)
    ensures v != Null ==> NumeralValue(TypedParam(rt, 'd', v).value) == Some(IntCast(rt, v))
    ensures v != Null ==> TypedParam(rt, 'f', v) == Ok(rt.floatText(FloatCast(rt, v)))
    ensures (v.Null? || v.Bool? || v.Int?) ==> TypedParam(rt, 'd', v) == AutoParam(rt, v)
  {
    if v != Null {
      AutoParamNumeral(rt, IntCast(rt, v));
      if v.Bool? {
        assert IntText(0) == "0" && IntText(1) == "1";
      }
    }
  }

  /** `'`: opens a literal from `General`, and otherwise returns to
      `General`; the quote itself is a token. */
  function StepQuote(sc: Scanner): Scanner
  {
    Emit(sc.(state := if sc.state == General then StringToken else General), "'")
  }

  /** `?`: starts a placeholder; a second `?` is an error; a literal keeps it. */
  function StepQuestion(sc: Scanner): Result<Scanner>
  {
    if sc.state == General then Ok(sc.(state := PlaceholderToken))
    else if sc.state == PlaceholderToken then Err(ParseError)
    else Ok(Emit(sc, "?"))
  }

  /** `d`, `f`, `a`, `#`: resolves a typed placeholder, or is plain text. */
  function StepMark(rt: Runtime, params: seq<Value>, sc: Scanner, c: char): Result<Scanner>
    requires IsTypeMark(c)
  {
    if sc.state == PlaceholderToken then
      var v :- GetParam(params, sc.next);
      var token :- TypedParam(rt, c, v);
      Ok(Emit(Record(sc.(state := General, next := sc.next + 1), v), token))
    else Ok(Emit(sc, [c]))
  }

  /** `{`: opens the block; a pending `?` goes to the main output first. */
  function StepOpen(rt: Runtime, params: seq<Value>, sc: Scanner): Result<Scanner>
  {
    if sc.state == StringToken then Ok(Emit(sc, "{"))
    else if sc.inBlock then Err(ParseError)
    else if sc.state == PlaceholderToken then
      var v :- GetParam(params, sc.next);
      var token :- AutoParam(rt, v);
      Ok(Scanner(General, true, [], [], sc.next + 1, sc.out + [token]))
    else Ok(sc.(inBlock := true, block := [], blockParams := []))
  }

  /** `}`: a pending `?` joins the block, then the block is closed. */
  function StepClose(rt: Runtime, params: seq<Value>, skip: Value, sc: Scanner): Result<Scanner>
  {
    if sc.state == StringToken then Ok(Emit(sc, "}"))
    else if !sc.inBlock then Err(ParseError)
    else if sc.state == PlaceholderToken then
      var v :- GetParam(params, sc.next);
      var token :- AutoParam(rt, v);
      Ok(Close(sc.(state := General, next := sc.next + 1,
                   blockParams := sc.blockParams + [v], block := sc.block + [token]), skip))
    else Ok(Close(sc, skip))
  }

  /** Any other character: a pending `?` is resolved as a generic
      placeholder, and the character follows it. */
  function StepOther(rt: Runtime, params: seq<Value>, sc: Scanner, c: char): Result<Scanner>
  {
    if sc.state == PlaceholderToken then
      var v :- GetParam(params, sc.next);
      var token :- AutoParam(rt, v);
      Ok(Emit(Record(sc.(state := General, next := sc.next + 1), v), token + [c]))
    else Ok(Emit(sc, [c]))
  }

  /** One turn of the `foreach` over the template's characters. */
  function Step(rt: Runtime, params: seq<Value>, skip: Value, sc: Scanner, c: char): Result<Scanner>
  {
    if c == '\'' then Ok(StepQuote(sc))
    else if c == '?' then StepQuestion(sc)
    else if IsTypeMark(c) then StepMark(rt, params, sc, c)
    else if c == '{' then StepOpen(rt, params, sc)
    else if c == '}' then StepClose(rt, params, skip, sc)
    else StepOther(rt, params, sc, c)
  }

  /** The scanner after the characters `s`, or the first failure. */
  function Run(rt: Runtime, params: seq<Value>, skip: Value, sc: Scanner, s: string): Result<Scanner>
    decreases |s|
  {
    if |s| == 0 then Ok(sc)
    else
      var after :- Step(rt, params, skip, sc, s[0]);
      Run(rt, params, skip, after, s[1..])
  }

  /** The end of the template: an open block or literal is an error, and a
      pending `?` takes the next parameter. */
  function Finish(rt: Runtime, params: seq<Value>, sc: Scanner): Result<string>
  {
    if sc.inBlock then Err(ParseError)
    else if sc.state == StringToken then Err(ParseError)
    else if sc.state == PlaceholderToken then
      var v :- GetParam(params, sc.next);
      var token :- AutoParam(rt, v);
      Ok(Concat(sc.out + [token]))
    else Ok(Concat(sc.out))
  }

  /** What `parse($query, $params, $skipValue)` returns or throws. */
  function Parsed(rt: Runtime, query: string, params: seq<Value>, skip: Value): Result<string>
  {
    var sc :- Run(rt, params, skip, Initial, query);
    Finish(rt, params, sc)
  }

  // ---------------------------------------------------------------------
  // The parser as the source writes it.

  lemma RunFirst(rt: Runtime, params: seq<Value>, skip: Value, sc: Scanner, s: string)
    requires |s| > 0
    ensures Run(rt, params, skip, sc, s) ==
      match Step(rt, params, skip, sc, s[0])
      case Ok(after) => Run(rt, params, skip, after, s[1..])
      case Err(e) => Err(e)
  {
  }

  /** The rendering a typed placeholder asks for, as the cases `d`, `f`, `a`
      and `#` of the `switch` in `parse` compute it. */
  method RenderTyped(rt: Runtime, mark: char, param: Value) returns (r: Result<string>)
    requires IsTypeMark(mark)
    ensures r == TypedParam(rt, mark, param)
  {
    if mark == 'd' {
      r := AutoParam(rt, if param != Null then Int(IntCast(rt, param)) else Null);
    } else if mark == 'f' {
      r := AutoParam(rt, if param != Null then Float(FloatCast(rt, param)) else Null);
    } else if mark == 'a' {
      r := ArrayParam(rt, param);
    } else {
      r := IdentifierParam(rt, param);
    }
  }

  /** The cases `d`, `f`, `a` and `#` of the `switch` in `parse` when they
      follow a `?`: the typed placeholder takes the next parameter. */
  method ScanTypedPlaceholder(rt: Runtime, params: seq<Value>, sc: Scanner, mark: char)
    returns (r: Result<Scanner>)
    requires IsTypeMark(mark) && sc.state == PlaceholderToken
    ensures r == StepMark(rt, params, sc, mark)
  {
    var param :- GetParam(params, sc.next);
    var text :- RenderTyped(rt, mark, param);
    var conditionalBlock, conditionalParams, result := sc.block, sc.blockParams, sc.out;
    if sc.inBlock {
      conditionalParams := conditionalParams + [param];
      conditionalBlock := conditionalBlock + [text];
    } else {
      result := result + [text];
    }
    return Ok(Scanner(General, sc.inBlock, conditionalBlock, conditionalParams, sc.next + 1, result));
  }

  /** The case `{` of the `switch` in `parse`, outside a literal. */
  method OpenBlock(rt: Runtime, params: seq<Value>, sc: Scanner) returns (r: Result<Scanner>)
    requires sc.state != StringToken
    ensures r == StepOpen(rt, params, sc)
  {
    var state := sc.state;
    var currentParam := sc.next;
    var result := sc.out;
    if sc.inBlock {
      return Err(ParseError);
    }
    if state == PlaceholderToken {
      var param :- GetParam(params, currentParam);
      currentParam := currentParam + 1;
      var text :- AutoParam(rt, param);
      result := result + [text];
      state := General;
    }
    return Ok(Scanner(state, true, [], [], currentParam, result));
  }

  /** The case `}` of the `switch` in `parse`, outside a literal. */
  method CloseBlock(rt: Runtime, params: seq<Value>, skip: Value, sc: Scanner) returns (r: Result<Scanner>)
    requires sc.state != StringToken
    ensures r == StepClose(rt, params, skip, sc)
  {
    var state := sc.state;
    var conditionalBlock := sc.block;
    var conditionalParams := sc.blockParams;
    var currentParam := sc.next;
    var result := sc.out;
    if !sc.inBlock {
      return Err(ParseError);
    }
    if state == PlaceholderToken {
      state := General;
      var param :- GetParam(params, currentParam);
      currentParam := currentParam + 1;
      conditionalParams := conditionalParams + [param];
      var text :- AutoParam(rt, param);
      conditionalBlock := conditionalBlock + [text];
    }
    if IncludeConditional(conditionalParams, skip) {
      result := result + conditionalBlock;
    }
    return Ok(Scanner(state, false, conditionalBlock, conditionalParams, currentParam, result));
  }

  /** The body of the `foreach` in `parse`: the `switch` on one character,
      working on the loop's state variables, followed by the placement of the
      token the case produced. */
  method ScanCharacter(rt: Runtime, params: seq<Value>, skip: Value, sc: Scanner, character: char)
    returns (r: Result<Scanner>)
    ensures r == Step(rt, params, skip, sc, character)
  {
    var state := sc.state;
    var conditionalState := sc.inBlock;
    var conditionalBlock := sc.block;
    var conditionalParams := sc.blockParams;
    var currentParam := sc.next;
    var result := sc.out;

    var token: Option<string> := None;
    if character == '\'' {
      assert Step(rt, params, skip, sc, character) == Ok(StepQuote(sc));
      state := if state == General then StringToken else General;
      token := Some("'");
    } else if character == '?' {
      assert Step(rt, params, skip, sc, character) == StepQuestion(sc);
      if state == General {
        state := PlaceholderToken;
      } else if state == PlaceholderToken {
        return Err(ParseError);
      } else {
        token := Some("?");
      }
    } else if character == 'd' || character == 'f' || character == 'a' || character == '#' {
      assert Step(rt, params, skip, sc, character) == StepMark(rt, params, sc, character);
      if state == PlaceholderToken {
        r := ScanTypedPlaceholder(rt, params, sc, character);
        return;
      } else {
        token := Some([character]);
      }
    } else if character == '{' {
      assert Step(rt, params, skip, sc, character) == StepOpen(rt, params, sc);
      if state == General || state == PlaceholderToken {
        r := OpenBlock(rt, params, sc);
        return;
      } else {
        token := Some([character]);
      }
    } else if character == '}' {
      assert Step(rt, params, skip, sc, character) == StepClose(rt, params, skip, sc);
      if state == General || state == PlaceholderToken {
        r := CloseBlock(rt, params, skip, sc);
        return;
      } else {
        token := Some([character]);
      }
    } else {
      assert Step(rt, params, skip, sc, character) == StepOther(rt, params, sc, character);
      if state == PlaceholderToken {
        var param :- GetParam(params, currentParam);
        currentParam := currentParam + 1;
        state := General;
        if conditionalState {
          conditionalParams := conditionalParams + [param];
        }
        var text :- AutoParam(rt, param);
        token := Some(text + [character]);
      } else {
        token := Some([character]);
      }
    }

    if token.Some? {
      if conditionalState {
        conditionalBlock := conditionalBlock + [token.value];
      } else {
        result := result + [token.value];
      }
    }
    return Ok(Scanner(state, conditionalState, conditionalBlock, conditionalParams, currentParam, result));
  }

  /** `parse`: the loop over the template's characters and the handling of
      the end of the template. */
  method Parse(rt: Runtime, query: string, params: seq<Value>, skip: Value) returns (r: Result<string>)
    ensures r == Parsed(rt, query, params, skip)
  {
    var sc := Initial;
    var i := 0;
    while i < |query|
      invariant 0 <= i <= |query|
      invariant Run(rt, params, skip, Initial, query) == Run(rt, params, skip, sc, query[i..])
    {
      RunFirst(rt, params, skip, sc, query[i..]);
      assert query[i..][0] == query[i] && query[i..][1..] == query[i + 1..];
      sc :- ScanCharacter(rt, params, skip, sc, query[i]);
      i := i + 1;
    }
    assert query[i..] == [];

    if sc.inBlock {
      return Err(ParseError);
    }
    if sc.state == StringToken {
      return Err(ParseError);
    }
    var result := sc.out;
    if sc.state == PlaceholderToken {
      var param :- GetParam(params, sc.next);
      var text :- AutoParam(rt, param);
      result := result + [text];
    }
    return Ok(Concat(result));
  }
}
