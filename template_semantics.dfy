/** A reference semantics for well-formed templates. A template is built
    from ordinary text, quoted literals, placeholders and `{...}` blocks;
    its expected rendering is defined piece by piece, without a scanner,
    and is proved to be what `parse` returns for it. */
module TemplateSemantics {
  import opened PhpValues
  import opened QueryParserState
  import opened QueryParser
  import opened ParserProperties

  // ---------------------------------------------------------------------
  // Pieces of text between blocks.

  /** `Text`: ordinary text; `Literal`: a quoted literal, written without its
      quotes; `Hole`: a generic `?` followed by an ordinary character;
      `Typed`: `?d`, `?f`, `?a` or `?#`. */
  datatype Part = Text(text: string) | Literal(body: string) | Hole(follower: char) | Typed(mark: TypeMark)

  /** The letter after a typed `?`: `d`, `f`, `a` or `#`. */
  datatype TypeMark = IntMark | FloatMark | ArrayMark | IdentifierMark

  function MarkChar(m: TypeMark): (c: char)
    ensures IsTypeMark(c)
  {
    match m
    case IntMark => 'd'
    case FloatMark => 'f'
    case ArrayMark => 'a'
    case IdentifierMark => '#'
  }

  predicate PartOk(p: Part) {
    match p
    case Text(s) => Ordinary(s)
    case Literal(s) => NoQuotes(s)
    case Hole(c) => Ordinary([c]) && !IsTypeMark(c)
    case Typed(_) => true
  }

  predicate PartsOk(parts: seq<Part>) {
    forall k :: 0 <= k < |parts| ==> PartOk(parts[k])
  }

  function PartSource(p: Part): string
  {
    match p
    case Text(s) => s
    case Literal(s) => "'" + s + "'"
    case Hole(c) => ['?', c]
    case Typed(m) => ['?', MarkChar(m)]
  }

  function Source(parts: seq<Part>): string
  {
    if |parts| == 0 then "" else PartSource(parts[0]) + Source(parts[1..])
  }

  /** The number of parameters a piece of text reads. */
  function PartUses(p: Part): nat
  {
    if p.Hole? || p.Typed? then 1 else 0
  }

  function Uses(parts: seq<Part>): nat
  {
    if |parts| == 0 then 0 else PartUses(parts[0]) + Uses(parts[1..])
  }

  /** The expected rendering of one piece, reading parameter `k` if it
      needs one. */
  function PartText(rt: Runtime, params: seq<Value>, k: nat, p: Part): (r: Result<string>)
    ensures r.Ok? && PartUses(p) == 1 ==> k < |params|
    ensures r.Err? ==> r.error != ParseError
  {
    match p
    case Text(s) => Ok(s)
    case Literal(s) => Ok("'" + s + "'")
    case Hole(c) =>
      var v :- GetParam(params, k);
      var t :- AutoParam(rt, v);
      Ok(t + [c])
    case Typed(m) =>
      var v :- GetParam(params, k);
      TypedParam(rt, MarkChar(m), v)
  }

  /** The expected rendering of consecutive pieces, from parameter `k`. */
  function Expand(rt: Runtime, params: seq<Value>, k: nat, parts: seq<Part>): (r: Result<string>)
    requires k <= |params|
    ensures r.Ok? ==> k + Uses(parts) <= |params|
    ensures r.Err? ==> r.error != ParseError
    decreases |parts|
  {
    if |parts| == 0 then Ok("")
    else
      var t :- PartText(rt, params, k, parts[0]);
      var rest :- Expand(rt, params, k + PartUses(parts[0]), parts[1..]);
      Ok(t + rest)
  }

  // ---------------------------------------------------------------------
  // Blocks and whole templates.

  /** `Flat`: pieces outside any block; `Block`: a `{...}` block, with a
      generic `?` directly before its `{` when `before`, and one directly
      before its `}` when `atClose`. */
  datatype Item = Flat(parts: seq<Part>) | Block(before: bool, inner: seq<Part>, atClose: bool)

  /** A whole template, with a generic `?` at its very end when `trailing`. */
  datatype Template = Template(items: seq<Item>, trailing: bool)

  predicate ItemOk(item: Item) {
    match item
    case Flat(parts) => PartsOk(parts)
    case Block(_, inner, _) => PartsOk(inner)
  }

  predicate TemplateOk(t: Template) {
    forall k :: 0 <= k < |t.items| ==> ItemOk(t.items[k])
  }

  function Question(present: bool): string
  {
    if present then "?" else ""
  }

  function ItemSource(item: Item): string
  {
    match item
    case Flat(parts) => Source(parts)
    case Block(before, inner, atClose) => Question(before) + "{" + Source(inner) + Question(atClose) + "}"
  }

  function ItemsSource(items: seq<Item>): string
  {
    if |items| == 0 then "" else ItemSource(items[0]) + ItemsSource(items[1..])
  }

  function TemplateSource(t: Template): string
  {
    ItemsSource(t.items) + Question(t.trailing)
  }

  function Count(present: bool): nat
  {
    if present then 1 else 0
  }

  function ItemUses(item: Item): nat
  {
    match item
    case Flat(parts) => Uses(parts)
    case Block(before, inner, atClose) => Count(before) + Uses(inner) + Count(atClose)
  }

  /** A generic placeholder that is not followed by an ordinary character:
      the `autoParam` rendering of parameter `k`, when `present`. */
  function Pending(rt: Runtime, params: seq<Value>, k: nat, present: bool): (r: Result<string>)
    ensures r.Ok? && present ==> k < |params|
    ensures r.Err? ==> r.error == InvalidArgument
  {
    if present then
      var v :- GetParam(params, k);
      AutoParam(rt, v)
    else Ok("")
  }

  /** The expected rendering of a block after its `{`, from parameter `k`:
      its pieces and the placeholder before its `}` show exactly when no
      parameter read up to the `}` is strictly equal to the skip value. */
  function Guarded(rt: Runtime, params: seq<Value>, skip: Value, k: nat,
                   inner: seq<Part>, atClose: bool): (r: Result<string>)
    requires k <= |params|
    ensures r.Ok? ==> k + Uses(inner) + Count(atClose) <= |params|
    ensures r.Err? ==> r.error != ParseError
  {
    var body :- Expand(rt, params, k, inner);
    var to := k + Uses(inner);
    var last :- Pending(rt, params, to, atClose);
    var upto := to + Count(atClose);
    Ok(if SkipRead(params, skip, k, upto) then "" else body + last)
  }

  /** Whether one of the parameters from `from` up to `upto` is strictly
      equal to the skip value. */
  predicate SkipRead(params: seq<Value>, skip: Value, from: nat, upto: nat)
    requires from <= upto <= |params|
    decreases upto - from
  {
    from < upto && (params[from] == skip || SkipRead(params, skip, from + 1, upto))
  }

  /** The block reads the skip value exactly when `includeConditional`
      rejects the parameters it read. */
  lemma {:induction false} SkipReadExcluded(params: seq<Value>, skip: Value, from: nat, upto: nat)
    requires from <= upto <= |params|
    ensures SkipRead(params, skip, from, upto) <==> !IncludeConditional(params[from..upto], skip)
    decreases upto - from
  {
    if from < upto {
      SkipReadExcluded(params, skip, from + 1, upto);
      var read := params[from..upto];
      assert read[0] == params[from] && read[1..] == params[from + 1..upto];
    }
  }

  /** The expected rendering of a block: the placeholder before its `{`
      always shows, the rest is guarded by the skip value. */
  function BlockText(rt: Runtime, params: seq<Value>, skip: Value, k: nat,
                     before: bool, inner: seq<Part>, atClose: bool): (r: Result<string>)
    requires k <= |params|
    ensures r.Ok? ==> k + Count(before) + Uses(inner) + Count(atClose) <= |params|
    ensures r.Err? ==> r.error != ParseError
  {
    var pre :- Pending(rt, params, k, before);
    var rest :- Guarded(rt, params, skip, k + Count(before), inner, atClose);
    Ok(pre + rest)
  }

  function ItemText(rt: Runtime, params: seq<Value>, skip: Value, k: nat, item: Item): (r: Result<string>)
    requires k <= |params|
    ensures r.Ok? ==> k + ItemUses(item) <= |params|
    ensures r.Err? ==> r.error != ParseError
  {
    match item
    case Flat(parts) => Expand(rt, params, k, parts)
    case Block(before, inner, atClose) => BlockText(rt, params, skip, k, before, inner, atClose)
  }

  function ItemsUses(items: seq<Item>): nat
  {
    if |items| == 0 then 0 else ItemUses(items[0]) + ItemsUses(items[1..])
  }

  function ItemsText(rt: Runtime, params: seq<Value>, skip: Value, k: nat, items: seq<Item>): (r: Result<string>)
    requires k <= |params|
    ensures r.Ok? ==> k + ItemsUses(items) <= |params|
    ensures r.Err? ==> r.error != ParseError
    decreases |items|
  {
    if |items| == 0 then Ok("")
    else
      var t :- ItemText(rt, params, skip, k, items[0]);
      var rest :- ItemsText(rt, params, skip, k + ItemUses(items[0]), items[1..]);
      Ok(t + rest)
  }

  /** The expected result of parsing a template. */
  function Expected(rt: Runtime, t: Template, params: seq<Value>, skip: Value): (r: Result<string>)
    ensures r.Err? ==> r.error != ParseError
  {
    var body :- ItemsText(rt, params, skip, 0, t.items);
    var last :- Pending(rt, params, ItemsUses(t.items), t.trailing);
    Ok(body + last)
  }

  // ---------------------------------------------------------------------
  // The scanner over pieces of text.

  lemma AppendText(out: seq<string>, text: string)
    ensures Concat(out + Chars(text)) == Concat(out) + text
  {
    ConcatAppend(out, Chars(text));
    ConcatChars(text);
  }

  lemma AppendToken(out: seq<string>, token: string)
    ensures Concat(out + [token]) == Concat(out) + token
  {
    ConcatAppend(out, [token]);
    assert Concat([token]) == token;
  }

  lemma AppendAssoc(a: string, b: string, c: string)
    ensures a + b + c == a + (b + c)
  {
  }

  /** `m` is `sc` after `text` has been written where `sc` writes and the
      parameters `sc.next` up to `sc.next + n` have been read. */
  predicate Advanced(params: seq<Value>, sc: Scanner, m: Scanner, text: string, n: nat) {
    && m.state == General && m.inBlock == sc.inBlock
    && m.next == sc.next + n && m.next <= |params|
    && (if sc.inBlock then
          && m.out == sc.out && Concat(m.block) == Concat(sc.block) + text
          && m.blockParams == sc.blockParams + params[sc.next..m.next]
        else
          && m.block == sc.block && m.blockParams == sc.blockParams
          && Concat(m.out) == Concat(sc.out) + text)
  }

  lemma FedAdvanced(params: seq<Value>, sc: Scanner, text: string)
    requires sc.state == General && sc.next <= |params|
    ensures Advanced(params, sc, Feed(sc, Chars(text)), text, 0)
  {
    AppendText(sc.out, text);
    AppendText(sc.block, text);
    assert params[sc.next..sc.next] == [];
    assert sc.blockParams + [] == sc.blockParams;
  }

  lemma EmittedAdvanced(params: seq<Value>, sc: Scanner, token: string)
    requires sc.state == General && sc.next < |params|
    ensures Advanced(params, sc, Emit(Record(sc.(next := sc.next + 1), params[sc.next]), token), token, 1)
  {
    AppendToken(sc.out, token);
    AppendToken(sc.block, token);
    assert params[sc.next..sc.next + 1] == [params[sc.next]];
  }

  /** The scanner's outcome `run` from `sc` agrees with the expected
      rendering: the same failure, or `sc` advanced by that rendering. */
  predicate Matches(params: seq<Value>, sc: Scanner, run: Result<Scanner>, expected: Result<string>, n: nat) {
    if expected.Err? then run == Err(expected.error)
    else run.Ok? && Advanced(params, sc, run.value, expected.value, n)
  }

  /** One piece of text: the scanner fails as the expected rendering does,
      or writes that rendering and reads the parameters it uses. */
  lemma PartRun(rt: Runtime, params: seq<Value>, skip: Value, sc: Scanner, p: Part)
    requires sc.state == General && sc.next <= |params| && PartOk(p)
    ensures Matches(params, sc, Run(rt, params, skip, sc, PartSource(p)), PartText(rt, params, sc.next, p), PartUses(p))
  {
    match p
    case Text(s) =>
      TextThen(rt, params, skip, sc, s, "");
      assert s + "" == s;
      FedAdvanced(params, sc, s);
    case Literal(s) =>
      QuotedLiteral(rt, params, skip, sc, s);
      FedAdvanced(params, sc, "'" + s + "'");
    case Hole(c) =>
      HoleRun(rt, params, skip, sc, c);
    case Typed(m) =>
      TypedRun(rt, params, skip, sc, m);
  }

  lemma HoleRun(rt: Runtime, params: seq<Value>, skip: Value, sc: Scanner, c: char)
    requires sc.state == General && sc.next <= |params| && PartOk(Hole(c))
    ensures Matches(params, sc, Run(rt, params, skip, sc, ['?', c]), PartText(rt, params, sc.next, Hole(c)), 1)
  {
    assert [c][0] == c;
    var waiting := sc.(state := PlaceholderToken);
    assert Step(rt, params, skip, sc, '?') == Ok(waiting);
    assert Step(rt, params, skip, waiting, c) == StepOther(rt, params, waiting, c);
    assert ['?', c][1..] == [c];
    RunFirst(rt, params, skip, waiting, [c]);
    if sc.next < |params| && !params[sc.next].Arr? {
      EmittedAdvanced(params, sc, AutoParam(rt, params[sc.next]).value + [c]);
    }
  }

  lemma TypedRun(rt: Runtime, params: seq<Value>, skip: Value, sc: Scanner, mark: TypeMark)
    requires sc.state == General && sc.next <= |params|
    ensures Matches(params, sc, Run(rt, params, skip, sc, ['?', MarkChar(mark)]),
                    PartText(rt, params, sc.next, Typed(mark)), 1)
  {
    var m := MarkChar(mark);
    var waiting := sc.(state := PlaceholderToken);
    assert Step(rt, params, skip, sc, '?') == Ok(waiting);
    assert Step(rt, params, skip, waiting, m) == StepMark(rt, params, waiting, m);
    assert ['?', m][1..] == [m];
    RunFirst(rt, params, skip, waiting, [m]);
    TypedMatches(rt, params, sc, mark, Run(rt, params, skip, sc, ['?', m]));
  }

  lemma TypedMatches(rt: Runtime, params: seq<Value>, sc: Scanner, mark: TypeMark, run: Result<Scanner>)
    requires sc.state == General && sc.next <= |params|
    requires run == StepMark(rt, params, sc.(state := PlaceholderToken), MarkChar(mark))
    ensures Matches(params, sc, run, PartText(rt, params, sc.next, Typed(mark)), 1)
  {
    var m := MarkChar(mark);
    if sc.next < |params| && TypedParam(rt, m, params[sc.next]).Ok? {
      EmittedAdvanced(params, sc, TypedParam(rt, m, params[sc.next]).value);
    }
  }

  /** Consecutive pieces of text, by induction over them. */
  lemma {:induction false} FlatRun(rt: Runtime, params: seq<Value>, skip: Value, sc: Scanner, parts: seq<Part>)
    requires sc.state == General && sc.next <= |params| && PartsOk(parts)
    ensures Matches(params, sc, Run(rt, params, skip, sc, Source(parts)), Expand(rt, params, sc.next, parts), Uses(parts))
    decreases |parts|
  {
    if |parts| == 0 {
      FedAdvanced(params, sc, "");
      assert Feed(sc, Chars("")) == sc by {
        assert sc.out + [] == sc.out && sc.block + [] == sc.block;
      }
    } else {
      var p, rest := parts[0], parts[1..];
      assert Source(parts) == PartSource(p) + Source(rest);
      PartRun(rt, params, skip, sc, p);
      RunAppend(rt, params, skip, sc, PartSource(p), Source(rest));
      var first := PartText(rt, params, sc.next, p);
      if first.Ok? {
        var m1 := Run(rt, params, skip, sc, PartSource(p)).value;
        assert PartsOk(rest) by {
          forall k | 0 <= k < |rest| ensures PartOk(rest[k]) {
            assert rest[k] == parts[k + 1];
          }
        }
        FlatRun(rt, params, skip, m1, rest);
        assert Run(rt, params, skip, sc, Source(parts)) == Run(rt, params, skip, m1, Source(rest));
        FlatStep(rt, params, sc, parts, m1, first.value, Run(rt, params, skip, sc, Source(parts)));
      }
    }
  }

  /** One step of `FlatRun`: the first piece advances the scanner, the
      others agree with their expected rendering from there. */
  lemma FlatStep(rt: Runtime, params: seq<Value>, sc: Scanner, parts: seq<Part>,
                 m1: Scanner, t1: string, run: Result<Scanner>)
    requires |parts| > 0 && sc.next <= |params|
    requires PartText(rt, params, sc.next, parts[0]) == Ok(t1)
    requires Advanced(params, sc, m1, t1, PartUses(parts[0]))
    requires Matches(params, m1, run, Expand(rt, params, m1.next, parts[1..]), Uses(parts[1..]))
    ensures Matches(params, sc, run, Expand(rt, params, sc.next, parts), Uses(parts))
  {
    var rest := parts[1..];
    assert m1.next == sc.next + PartUses(parts[0]);
    assert Expand(rt, params, sc.next, parts) == Then(Ok(t1), Expand(rt, params, m1.next, rest));
    assert Uses(parts) == PartUses(parts[0]) + Uses(rest);
    MatchesThen(params, sc, m1, run, t1, Expand(rt, params, m1.next, rest), PartUses(parts[0]), Uses(rest));
  }

  lemma MatchesThen(params: seq<Value>, sc: Scanner, m1: Scanner, run: Result<Scanner>,
                    t1: string, rest: Result<string>, n1: nat, n2: nat)
    requires Advanced(params, sc, m1, t1, n1) && Matches(params, m1, run, rest, n2)
    ensures Matches(params, sc, run, Then(Ok(t1), rest), n1 + n2)
  {
    if rest.Ok? {
      var m2 := run.value;
      if sc.inBlock {
        AppendAssoc(Concat(sc.block), t1, rest.value);
        assert params[sc.next..m2.next] == params[sc.next..m1.next] + params[m1.next..m2.next];
      } else {
        AppendAssoc(Concat(sc.out), t1, rest.value);
      }
    }
  }

  // ---------------------------------------------------------------------
  // The scanner over blocks and whole templates.

  /** `m` is `sc`, outside any block, after `text` has been written to the
      main output and `n` parameters have been read. */
  predicate Moved(params: seq<Value>, sc: Scanner, m: Scanner, text: string, n: nat) {
    && m.state == General && !m.inBlock
    && m.next == sc.next + n && m.next <= |params|
    && Concat(m.out) == Concat(sc.out) + text
  }

  /** The tokens a `Pending` rendering adds. */
  function Tokens(present: bool, token: string): seq<string>
  {
    if present then [token] else []
  }

  lemma TokensText(out: seq<string>, present: bool, token: string)
    requires !present ==> token == ""
    ensures Concat(out + Tokens(present, token)) == Concat(out) + token
  {
    if present {
      AppendToken(out, token);
    } else {
      assert out + [] == out;
    }
  }

  /** `{`, or `?{`, outside a block. */
  lemma OpenRun(rt: Runtime, params: seq<Value>, skip: Value, sc: Scanner, before: bool)
    requires sc.state == General && !sc.inBlock && sc.next <= |params|
    ensures Pending(rt, params, sc.next, before).Err? ==>
      Run(rt, params, skip, sc, Question(before) + "{") == Err(Pending(rt, params, sc.next, before).error)
    ensures Pending(rt, params, sc.next, before).Ok? ==>
      Run(rt, params, skip, sc, Question(before) + "{") ==
        Ok(Scanner(General, true, [], [], sc.next + Count(before),
                   sc.out + Tokens(before, Pending(rt, params, sc.next, before).value)))
  {
    if before {
      var waiting := sc.(state := PlaceholderToken);
      assert Step(rt, params, skip, sc, '?') == Ok(waiting);
      assert Step(rt, params, skip, waiting, '{') == StepOpen(rt, params, waiting);
      assert "?{"[1..] == "{";
      RunFirst(rt, params, skip, waiting, "{");
    } else {
      assert Step(rt, params, skip, sc, '{') == StepOpen(rt, params, sc);
      assert sc.out + [] == sc.out;
    }
  }

  /** `}`, or `?}`, in a block. */
  lemma CloseRun(rt: Runtime, params: seq<Value>, skip: Value, mid: Scanner, atClose: bool)
    requires mid.state == General && mid.inBlock && mid.next <= |params|
    ensures Pending(rt, params, mid.next, atClose).Err? ==>
      Run(rt, params, skip, mid, Question(atClose) + "}") == Err(Pending(rt, params, mid.next, atClose).error)
    ensures Pending(rt, params, mid.next, atClose).Ok? ==>
      && mid.next + Count(atClose) <= |params|
      && Run(rt, params, skip, mid, Question(atClose) + "}") ==
           Ok(Close(mid.(next := mid.next + Count(atClose),
                         blockParams := mid.blockParams + params[mid.next..mid.next + Count(atClose)],
                         block := mid.block + Tokens(atClose, Pending(rt, params, mid.next, atClose).value)),
                    skip))
  {
    if atClose {
      PendingCloseRun(rt, params, skip, mid);
    } else {
      assert Step(rt, params, skip, mid, '}') == StepClose(rt, params, skip, mid);
      assert params[mid.next..mid.next] == [];
      assert mid.blockParams + [] == mid.blockParams && mid.block + [] == mid.block;
    }
  }

  lemma PendingCloseRun(rt: Runtime, params: seq<Value>, skip: Value, mid: Scanner)
    requires mid.state == General && mid.inBlock && mid.next <= |params|
    ensures Pending(rt, params, mid.next, true).Err? ==>
      Run(rt, params, skip, mid, "?}") == Err(Pending(rt, params, mid.next, true).error)
    ensures Pending(rt, params, mid.next, true).Ok? ==>
      && mid.next < |params|
      && Run(rt, params, skip, mid, "?}") ==
           Ok(Close(mid.(next := mid.next + 1,
                         blockParams := mid.blockParams + params[mid.next..mid.next + 1],
                         block := mid.block + [Pending(rt, params, mid.next, true).value]),
                    skip))
  {
    var waiting := mid.(state := PlaceholderToken);
    assert Step(rt, params, skip, mid, '?') == Ok(waiting);
    assert "?}"[1..] == "}";
    RunFirst(rt, params, skip, waiting, "}");
    if mid.next < |params| && !params[mid.next].Arr? {
      PlaceholderBeforeClose(rt, params, skip, waiting);
      assert params[mid.next..mid.next + 1] == [params[mid.next]];
    } else {
      assert Step(rt, params, skip, waiting, '}') == StepClose(rt, params, skip, waiting);
    }
  }

  /** The scanner's outcome `run` from `sc`, outside any block, agrees with
      the expected rendering: the same failure, or `sc` moved by it. */
  predicate Lands(params: seq<Value>, sc: Scanner, run: Result<Scanner>, expected: Result<string>, n: nat) {
    if expected.Err? then run == Err(expected.error)
    else run.Ok? && Moved(params, sc, run.value, expected.value, n)
  }

  /** A whole block, outside any other: the scanner fails as the expected
      rendering does, or writes it to the main output. */
  lemma BlockRun(rt: Runtime, params: seq<Value>, skip: Value, sc: Scanner,
                 before: bool, inner: seq<Part>, atClose: bool)
    requires sc.state == General && !sc.inBlock && sc.next <= |params| && PartsOk(inner)
    ensures Lands(params, sc, Run(rt, params, skip, sc, ItemSource(Block(before, inner, atClose))),
                  BlockText(rt, params, skip, sc.next, before, inner, atClose),
                  Count(before) + Uses(inner) + Count(atClose))
  {
    var opening, rest := Question(before) + "{", Source(inner) + Question(atClose) + "}";
    assert ItemSource(Block(before, inner, atClose)) == opening + rest;
    RunAppend(rt, params, skip, sc, opening, rest);
    OpenRun(rt, params, skip, sc, before);
    var pre := Pending(rt, params, sc.next, before);
    if pre.Ok? {
      var start := Run(rt, params, skip, sc, opening).value;
      GuardedRun(rt, params, skip, start, inner, atClose);
      TokensText(sc.out, before, pre.value);
      BlockStep(rt, params, skip, sc, start, before, inner, atClose, pre.value, Run(rt, params, skip, start, rest));
    }
  }

  /** A block moves the scanner as its `{` and then its rest do. */
  lemma BlockStep(rt: Runtime, params: seq<Value>, skip: Value, sc: Scanner, start: Scanner,
                  before: bool, inner: seq<Part>, atClose: bool, pre: string, run: Result<Scanner>)
    requires sc.next <= |params| && Pending(rt, params, sc.next, before) == Ok(pre)
    requires start.next == sc.next + Count(before) && Concat(start.out) == Concat(sc.out) + pre
    requires Lands(params, start, run, Guarded(rt, params, skip, start.next, inner, atClose), Uses(inner) + Count(atClose))
    ensures Lands(params, sc, run, BlockText(rt, params, skip, sc.next, before, inner, atClose),
                  Count(before) + Uses(inner) + Count(atClose))
  {
    var tail := Guarded(rt, params, skip, start.next, inner, atClose);
    BlockTextThen(rt, params, skip, sc.next, before, inner, atClose, pre);
    if tail.Ok? {
      AppendAssoc(Concat(sc.out), pre, tail.value);
    }
  }

  lemma BlockTextThen(rt: Runtime, params: seq<Value>, skip: Value, k: nat,
                      before: bool, inner: seq<Part>, atClose: bool, pre: string)
    requires k <= |params| && Pending(rt, params, k, before) == Ok(pre)
    ensures k + Count(before) <= |params|
    ensures BlockText(rt, params, skip, k, before, inner, atClose) ==
      Then(Ok(pre), Guarded(rt, params, skip, k + Count(before), inner, atClose))
  {
  }

  /** The rest of a block, from just after its `{`. */
  lemma GuardedRun(rt: Runtime, params: seq<Value>, skip: Value, start: Scanner,
                   inner: seq<Part>, atClose: bool)
    requires start.state == General && start.inBlock && start.next <= |params|
    requires start.block == [] && start.blockParams == [] && PartsOk(inner)
    ensures Lands(params, start, Run(rt, params, skip, start, Source(inner) + Question(atClose) + "}"),
                  Guarded(rt, params, skip, start.next, inner, atClose), Uses(inner) + Count(atClose))
  {
    var closing := Question(atClose) + "}";
    assert Source(inner) + Question(atClose) + "}" == Source(inner) + closing;
    RunAppend(rt, params, skip, start, Source(inner), closing);
    FlatRun(rt, params, skip, start, inner);
    GuardedTail(rt, params, skip, start, Run(rt, params, skip, start, Source(inner)), inner, atClose);
  }

  /** The end of a block, from where the scanner is after its pieces. */
  lemma GuardedTail(rt: Runtime, params: seq<Value>, skip: Value, start: Scanner, run: Result<Scanner>,
                    inner: seq<Part>, atClose: bool)
    requires start.state == General && start.inBlock && start.next <= |params|
    requires start.block == [] && start.blockParams == []
    requires Matches(params, start, run, Expand(rt, params, start.next, inner), Uses(inner))
    ensures Lands(params, start,
                  if run.Ok? then Run(rt, params, skip, run.value, Question(atClose) + "}") else Err(run.error),
                  Guarded(rt, params, skip, start.next, inner, atClose), Uses(inner) + Count(atClose))
  {
    var body := Expand(rt, params, start.next, inner);
    if body.Ok? {
      var mid := run.value;
      CloseRun(rt, params, skip, mid, atClose);
      var last := Pending(rt, params, mid.next, atClose);
      if last.Ok? {
        GuardedShown(rt, params, skip, start, mid, inner, atClose);
      }
    }
  }

  /** The end of a block whose pieces and closing placeholder render. */
  lemma GuardedShown(rt: Runtime, params: seq<Value>, skip: Value, start: Scanner, mid: Scanner,
                     inner: seq<Part>, atClose: bool)
    requires start.inBlock && start.block == [] && start.blockParams == [] && start.next <= |params|
    requires Expand(rt, params, start.next, inner).Ok?
    requires Advanced(params, start, mid, Expand(rt, params, start.next, inner).value, Uses(inner))
    requires Pending(rt, params, mid.next, atClose).Ok?
    ensures Guarded(rt, params, skip, start.next, inner, atClose).Ok?
    ensures Run(rt, params, skip, mid, Question(atClose) + "}").Ok?
    ensures Moved(params, start, Run(rt, params, skip, mid, Question(atClose) + "}").value,
                  Guarded(rt, params, skip, start.next, inner, atClose).value, Uses(inner) + Count(atClose))
  {
    var body := Expand(rt, params, start.next, inner).value;
    var last := Pending(rt, params, mid.next, atClose).value;
    var n := Uses(inner);
    var upto := mid.next + Count(atClose);
    assert upto == start.next + n + Count(atClose);
    GuardedOk(rt, params, skip, start.next, inner, atClose, body, last, upto);
    BlockEnd(rt, params, skip, start, mid, atClose, body, last, n, upto);
  }

  /** The closing `}` or `?}` of a block whose closing placeholder renders
      as `last`: the scanner leaves the block, moved by its body and `last`
      unless a value read in the block is the skip value. */
  lemma BlockEnd(rt: Runtime, params: seq<Value>, skip: Value, start: Scanner, mid: Scanner, atClose: bool,
                 body: string, last: string, n: nat, upto: nat)
    requires start.inBlock && start.block == [] && start.blockParams == []
    requires Advanced(params, start, mid, body, n)
    requires Pending(rt, params, mid.next, atClose) == Ok(last)
    requires upto == mid.next + Count(atClose)
    ensures Run(rt, params, skip, mid, Question(atClose) + "}").Ok?
    ensures Moved(params, start, Run(rt, params, skip, mid, Question(atClose) + "}").value,
                  if SkipRead(params, skip, start.next, upto) then "" else body + last, n + Count(atClose))
  {
    ClosedRun(rt, params, skip, mid, atClose, last, upto);
    GuardedClosed(params, skip, start, mid, atClose, body, last, n, upto);
  }

  /** The scanner at a block's `}`, once the closing placeholder (if any)
      has been read and rendered as `last`. */
  function Closing(params: seq<Value>, mid: Scanner, upto: nat, atClose: bool, last: string): Scanner
    requires mid.next <= upto <= |params|
  {
    mid.(next := upto, blockParams := mid.blockParams + params[mid.next..upto],
         block := mid.block + Tokens(atClose, last))
  }

  lemma ClosedRun(rt: Runtime, params: seq<Value>, skip: Value, mid: Scanner, atClose: bool,
                  last: string, upto: nat)
    requires mid.state == General && mid.inBlock && mid.next <= |params|
    requires Pending(rt, params, mid.next, atClose) == Ok(last) && upto == mid.next + Count(atClose)
    ensures upto <= |params| && (!atClose ==> last == "")
    ensures Run(rt, params, skip, mid, Question(atClose) + "}") == Ok(Close(Closing(params, mid, upto, atClose, last), skip))
  {
    CloseRun(rt, params, skip, mid, atClose);
  }

  lemma GuardedOk(rt: Runtime, params: seq<Value>, skip: Value, k: nat, inner: seq<Part>, atClose: bool,
                  body: string, last: string, upto: nat)
    requires k <= |params| && upto == k + Uses(inner) + Count(atClose)
    requires Expand(rt, params, k, inner) == Ok(body) && Pending(rt, params, k + Uses(inner), atClose) == Ok(last)
    ensures Guarded(rt, params, skip, k, inner, atClose) ==
      Ok(if SkipRead(params, skip, k, upto) then "" else body + last)
  {
  }

  lemma GuardedClosed(params: seq<Value>, skip: Value, start: Scanner, mid: Scanner, atClose: bool,
                      body: string, last: string, n: nat, upto: nat)
    requires !atClose ==> last == ""
    requires start.inBlock && start.block == [] && start.blockParams == []
    requires Advanced(params, start, mid, body, n) && upto == mid.next + Count(atClose) && upto <= |params|
    ensures Moved(params, start, Close(Closing(params, mid, upto, atClose, last), skip),
                  if SkipRead(params, skip, start.next, upto) then "" else body + last, n + Count(atClose))
  {
    AdvancedInBlock(params, start, mid, body, n);
    BlockClosed(params, skip, mid, start.next, atClose, last);
  }

  /** What `Advanced` says of a scanner that entered a block at `start`. */
  lemma AdvancedInBlock(params: seq<Value>, start: Scanner, mid: Scanner, body: string, n: nat)
    requires start.inBlock && start.block == [] && start.blockParams == []
    requires Advanced(params, start, mid, body, n)
    ensures mid.state == General && mid.out == start.out && Concat(mid.block) == body
    ensures mid.next == start.next + n && mid.next <= |params|
    ensures mid.blockParams == params[start.next..mid.next]
  {
    assert Concat(start.block) == "";
    assert "" + body == body;
    assert [] + params[start.next..mid.next] == params[start.next..mid.next];
  }

  /** The bookkeeping of a block closed without failure: its tokens join the
      main output exactly when no value read since `from` is the skip value. */
  lemma BlockClosed(params: seq<Value>, skip: Value, mid: Scanner, from: nat, atClose: bool, last: string)
    requires !atClose ==> last == ""
    requires mid.state == General && from <= mid.next && mid.next + Count(atClose) <= |params|
    requires mid.blockParams == params[from..mid.next]
    ensures var fin := Close(Closing(params, mid, mid.next + Count(atClose), atClose, last), skip);
      && fin.state == General && !fin.inBlock && fin.next == mid.next + Count(atClose)
      && Concat(fin.out) ==
           Concat(mid.out) + (if SkipRead(params, skip, from, fin.next) then "" else Concat(mid.block) + last)
  {
    var upto := mid.next + Count(atClose);
    SkipReadExcluded(params, skip, from, upto);
    assert params[from..mid.next] + params[mid.next..upto] == params[from..upto];
    var block := mid.block + Tokens(atClose, last);
    TokensText(mid.block, atClose, last);
    ConcatAppend(mid.out, block);
  }

  /** Two expected renderings one after the other: the first failure, or
      both texts. */
  function Then(first: Result<string>, rest: Result<string>): (r: Result<string>)
    ensures r.Ok? <==> first.Ok? && rest.Ok?
  {
    if first.Err? then Err(first.error)
    else if rest.Err? then Err(rest.error)
    else Ok(first.value + rest.value)
  }

  lemma MovedTwice(params: seq<Value>, sc: Scanner, m1: Scanner, run: Result<Scanner>,
                   t1: string, rest: Result<string>, n1: nat, n2: nat)
    requires Moved(params, sc, m1, t1, n1) && Lands(params, m1, run, rest, n2)
    ensures Lands(params, sc, run, Then(Ok(t1), rest), n1 + n2)
  {
  }

  lemma ItemRun(rt: Runtime, params: seq<Value>, skip: Value, sc: Scanner, item: Item)
    requires sc.state == General && !sc.inBlock && sc.next <= |params| && ItemOk(item)
    ensures Lands(params, sc, Run(rt, params, skip, sc, ItemSource(item)),
                  ItemText(rt, params, skip, sc.next, item), ItemUses(item))
  {
    match item
    case Flat(parts) =>
      FlatRun(rt, params, skip, sc, parts);
    case Block(before, inner, atClose) =>
      BlockRun(rt, params, skip, sc, before, inner, atClose);
  }

  lemma ItemsTextCons(rt: Runtime, params: seq<Value>, skip: Value, k: nat, items: seq<Item>, t1: string, k2: nat)
    requires k <= |params| && |items| > 0 && ItemText(rt, params, skip, k, items[0]) == Ok(t1)
    requires k2 == k + ItemUses(items[0])
    ensures k2 <= |params|
    ensures ItemsText(rt, params, skip, k, items) == Then(Ok(t1), ItemsText(rt, params, skip, k2, items[1..]))
    ensures ItemsUses(items) == ItemUses(items[0]) + ItemsUses(items[1..])
  {
  }

  lemma {:induction false} ItemsRun(rt: Runtime, params: seq<Value>, skip: Value, sc: Scanner, items: seq<Item>)
    requires sc.state == General && !sc.inBlock && sc.next <= |params|
    requires forall k :: 0 <= k < |items| ==> ItemOk(items[k])
    ensures Lands(params, sc, Run(rt, params, skip, sc, ItemsSource(items)),
                  ItemsText(rt, params, skip, sc.next, items), ItemsUses(items))
    decreases |items|
  {
    if |items| == 0 {
      assert Run(rt, params, skip, sc, ItemsSource(items)) == Ok(sc);
      assert Concat(sc.out) + "" == Concat(sc.out);
    } else {
      var rest := items[1..];
      assert ItemsSource(items) == ItemSource(items[0]) + ItemsSource(rest);
      ItemRun(rt, params, skip, sc, items[0]);
      var first := ItemText(rt, params, skip, sc.next, items[0]);
      if first.Err? {
        RunAppend(rt, params, skip, sc, ItemSource(items[0]), ItemsSource(rest));
      } else {
        var m1 := Run(rt, params, skip, sc, ItemSource(items[0])).value;
        forall j | 0 <= j < |rest| ensures ItemOk(rest[j]) {
          assert rest[j] == items[j + 1];
        }
        ItemsRun(rt, params, skip, m1, rest);
        RunAppend(rt, params, skip, sc, ItemSource(items[0]), ItemsSource(rest));
        assert Run(rt, params, skip, sc, ItemsSource(items)) == Run(rt, params, skip, m1, ItemsSource(rest));
        ItemsStep(rt, params, skip, sc, items, m1, first.value, Run(rt, params, skip, sc, ItemsSource(items)));
      }
    }
  }

  /** One step of `ItemsRun`: the first item moves the scanner, the others
      agree with their expected rendering from there. */
  lemma ItemsStep(rt: Runtime, params: seq<Value>, skip: Value, sc: Scanner, items: seq<Item>,
                  m1: Scanner, t1: string, run: Result<Scanner>)
    requires |items| > 0 && sc.next <= |params|
    requires ItemText(rt, params, skip, sc.next, items[0]) == Ok(t1)
    requires Moved(params, sc, m1, t1, ItemUses(items[0]))
    requires Lands(params, m1, run, ItemsText(rt, params, skip, m1.next, items[1..]), ItemsUses(items[1..]))
    ensures Lands(params, sc, run, ItemsText(rt, params, skip, sc.next, items), ItemsUses(items))
  {
    var rest := items[1..];
    ItemsTextCons(rt, params, skip, sc.next, items, t1, m1.next);
    MovedTwice(params, sc, m1, run, t1, ItemsText(rt, params, skip, m1.next, rest), ItemUses(items[0]), ItemsUses(rest));
  }

  /** `parse` returns, for every well-formed template, exactly its expected
      rendering, or fails as that rendering does; in particular it never
      reports a ParseError for one. */
  lemma TemplateParsed(rt: Runtime, t: Template, params: seq<Value>, skip: Value)
    requires TemplateOk(t)
    ensures Parsed(rt, TemplateSource(t), params, skip) == Expected(rt, t, params, skip)
    ensures Parsed(rt, TemplateSource(t), params, skip) != Err(ParseError)
  {
    ItemsRun(rt, params, skip, Initial, t.items);
    RunAppend(rt, params, skip, Initial, ItemsSource(t.items), Question(t.trailing));
    var body := ItemsText(rt, params, skip, 0, t.items);
    if body.Ok? {
      var m := Run(rt, params, skip, Initial, ItemsSource(t.items)).value;
      TrailingRun(rt, params, skip, m, t.trailing);
      TrailingFinish(rt, params, m, body.value, t.trailing, ItemsUses(t.items));
    }
  }

  /** A trailing `?`, or nothing, after the last item. */
  lemma TrailingRun(rt: Runtime, params: seq<Value>, skip: Value, m: Scanner, trailing: bool)
    requires m.state == General && !m.inBlock
    ensures Run(rt, params, skip, m, Question(trailing)) ==
      Ok(if trailing then m.(state := PlaceholderToken) else m)
  {
    if trailing {
      assert Step(rt, params, skip, m, '?') == Ok(m.(state := PlaceholderToken));
      RunFirst(rt, params, skip, m, "?");
    }
  }

  /** The end of a template whose items have moved the scanner by `body`. */
  lemma TrailingFinish(rt: Runtime, params: seq<Value>, m: Scanner, body: string, trailing: bool, n: nat)
    requires Moved(params, Initial, m, body, n)
    ensures Finish(rt, params, if trailing then m.(state := PlaceholderToken) else m) ==
      Then(Ok(body), Pending(rt, params, n, trailing))
  {
    assert Concat(m.out) == body by {
      assert Concat(Initial.out) == "";
      assert "" + body == body;
    }
    if trailing && m.next < |params| && !params[m.next].Arr? {
      AppendToken(m.out, AutoParam(rt, params[m.next]).value);
    }
    if !trailing {
      assert body + "" == body;
    }
  }

  // ---------------------------------------------------------------------
  // Evaluating the expected rendering of a given template, one piece at a time.

  /** A template without blocks and without a `?` at its end: the parse is
      the rendering of its pieces, one after another. */
  lemma FlatParsed(rt: Runtime, parts: seq<Part>, params: seq<Value>, skip: Value)
    requires PartsOk(parts)
    ensures Parsed(rt, Source(parts), params, skip) == Expand(rt, params, 0, parts)
  {
    var t := Template([Flat(parts)], false);
    assert TemplateOk(t);
    TemplateParsed(rt, t, params, skip);
    FlatSource(parts);
    FlatExpected(rt, parts, params, skip);
  }

  lemma FlatSource(parts: seq<Part>)
    ensures TemplateSource(Template([Flat(parts)], false)) == Source(parts)
  {
    assert [Flat(parts)][1..] == [];
    assert ItemsSource([Flat(parts)]) == Source(parts) + "";
    assert Source(parts) + "" + "" == Source(parts);
  }

  lemma FlatExpected(rt: Runtime, parts: seq<Part>, params: seq<Value>, skip: Value)
    ensures Expected(rt, Template([Flat(parts)], false), params, skip) == Expand(rt, params, 0, parts)
  {
    var items := [Flat(parts)];
    assert items[1..] == [];
    var e := Expand(rt, params, 0, parts);
    if e.Ok? {
      assert ItemsText(rt, params, skip, 0, items) == Ok(e.value + "");
      assert e.value + "" + "" == e.value;
    } else {
      assert ItemsText(rt, params, skip, 0, items) == Err(e.error);
    }
  }

  // ---------------------------------------------------------------------
  // Templates that go wrong after a well-formed start.

  /** After well-formed items whose rendering succeeds, the scanner is
      outside any block and literal. */
  lemma ItemsSettle(rt: Runtime, params: seq<Value>, skip: Value, items: seq<Item>)
    requires forall k :: 0 <= k < |items| ==> ItemOk(items[k])
    requires ItemsText(rt, params, skip, 0, items).Ok?
    ensures Run(rt, params, skip, Initial, ItemsSource(items)).Ok?
    ensures Run(rt, params, skip, Initial, ItemsSource(items)).value.state == General
    ensures !Run(rt, params, skip, Initial, ItemsSource(items)).value.inBlock
  {
    ItemsRun(rt, params, skip, Initial, items);
  }

  /** A `{` after well-formed items, then well-formed pieces whose rendering
      succeeds: the block is open and the scanner outside any literal. */
  lemma BlockEntered(rt: Runtime, params: seq<Value>, skip: Value, items: seq<Item>, inner: seq<Part>)
    requires forall k :: 0 <= k < |items| ==> ItemOk(items[k])
    requires ItemsText(rt, params, skip, 0, items).Ok?
    requires PartsOk(inner) && Expand(rt, params, ItemsUses(items), inner).Ok?
    ensures Run(rt, params, skip, Initial, ItemsSource(items) + "{" + Source(inner)).Ok?
    ensures Run(rt, params, skip, Initial, ItemsSource(items) + "{" + Source(inner)).value.state == General
    ensures Run(rt, params, skip, Initial, ItemsSource(items) + "{" + Source(inner)).value.inBlock
  {
    var front := ItemsSource(items) + "{";
    var start := BlockOpened(rt, params, skip, items);
    FlatRun(rt, params, skip, start, inner);
    RunAppend(rt, params, skip, Initial, front, Source(inner));
  }

  /** The scanner just after a `{` that follows well-formed items. */
  lemma BlockOpened(rt: Runtime, params: seq<Value>, skip: Value, items: seq<Item>) returns (start: Scanner)
    requires forall k :: 0 <= k < |items| ==> ItemOk(items[k])
    requires ItemsText(rt, params, skip, 0, items).Ok?
    ensures Run(rt, params, skip, Initial, ItemsSource(items) + "{") == Ok(start)
    ensures start.state == General && start.inBlock && start.next == ItemsUses(items) <= |params|
  {
    var front := ItemsSource(items);
    ItemsRun(rt, params, skip, Initial, items);
    var m := Run(rt, params, skip, Initial, front).value;
    assert m.state == General && !m.inBlock && m.next == ItemsUses(items) <= |params|;
    OpenRun(rt, params, skip, m, false);
    assert Question(false) + "{" == "{";
    start := Scanner(General, true, [], [], m.next, m.out + []);
    assert Run(rt, params, skip, m, "{") == Ok(start);
    RunAppend(rt, params, skip, Initial, front, "{");
  }

  /** A literal left open at the end of the template is a ParseError. */
  lemma UnterminatedLiteral(rt: Runtime, params: seq<Value>, skip: Value, items: seq<Item>, text: string)
    requires forall k :: 0 <= k < |items| ==> ItemOk(items[k])
    requires ItemsText(rt, params, skip, 0, items).Ok?
    requires NoQuotes(text)
    ensures Parsed(rt, ItemsSource(items) + "'" + text, params, skip) == Err(ParseError)
  {
    var front := ItemsSource(items);
    ItemsSettle(rt, params, skip, items);
    var m := Run(rt, params, skip, Initial, front).value;
    assert front + "'" + text == front + ("'" + text);
    RunAppend(rt, params, skip, Initial, front, "'" + text);
    var literal := StepQuote(m);
    assert Step(rt, params, skip, m, '\'') == Ok(literal);
    RunFirst(rt, params, skip, m, "'" + text);
    assert ("'" + text)[1..] == text;
    LiteralRun(rt, params, skip, literal, text);
  }

  /** A block still open at the end of the template is a ParseError, with or
      without a `?` in front of the end. */
  lemma UnclosedBlock(rt: Runtime, params: seq<Value>, skip: Value, items: seq<Item>,
                      inner: seq<Part>, pending: bool)
    requires forall k :: 0 <= k < |items| ==> ItemOk(items[k])
    requires ItemsText(rt, params, skip, 0, items).Ok?
    requires PartsOk(inner) && Expand(rt, params, ItemsUses(items), inner).Ok?
    ensures Parsed(rt, ItemsSource(items) + "{" + Source(inner) + Question(pending), params, skip) == Err(ParseError)
  {
    var front := ItemsSource(items) + "{" + Source(inner);
    BlockEntered(rt, params, skip, items, inner);
    var m := Run(rt, params, skip, Initial, front).value;
    RunAppend(rt, params, skip, Initial, front, Question(pending));
    if pending {
      assert Step(rt, params, skip, m, '?') == Ok(m.(state := PlaceholderToken));
      RunFirst(rt, params, skip, m, "?");
    }
  }

  /** `??` inside a block is a ParseError, whatever follows. */
  lemma DoubledMarkInBlock(rt: Runtime, params: seq<Value>, skip: Value, items: seq<Item>,
                           inner: seq<Part>, rest: string)
    requires forall k :: 0 <= k < |items| ==> ItemOk(items[k])
    requires ItemsText(rt, params, skip, 0, items).Ok?
    requires PartsOk(inner) && Expand(rt, params, ItemsUses(items), inner).Ok?
    ensures Parsed(rt, ItemsSource(items) + "{" + Source(inner) + "??" + rest, params, skip) == Err(ParseError)
  {
    BlockEntered(rt, params, skip, items, inner);
    DoubleQuestionMark(rt, params, skip, ItemsSource(items) + "{" + Source(inner), rest);
  }

  /** A `{` inside a block is a ParseError, whatever follows. */
  lemma BlockInBlock(rt: Runtime, params: seq<Value>, skip: Value, items: seq<Item>,
                     inner: seq<Part>, rest: string)
    requires forall k :: 0 <= k < |items| ==> ItemOk(items[k])
    requires ItemsText(rt, params, skip, 0, items).Ok?
    requires PartsOk(inner) && Expand(rt, params, ItemsUses(items), inner).Ok?
    ensures Parsed(rt, ItemsSource(items) + "{" + Source(inner) + "{" + rest, params, skip) == Err(ParseError)
  {
    BlockEntered(rt, params, skip, items, inner);
    NestedBlock(rt, params, skip, ItemsSource(items) + "{" + Source(inner), rest);
  }

  /** A `}` after well-formed items, with no block open, is a ParseError,
      whatever follows. */
  lemma StrayClose(rt: Runtime, params: seq<Value>, skip: Value, items: seq<Item>, rest: string)
    requires forall k :: 0 <= k < |items| ==> ItemOk(items[k])
    requires ItemsText(rt, params, skip, 0, items).Ok?
    ensures Parsed(rt, ItemsSource(items) + "}" + rest, params, skip) == Err(ParseError)
  {
    ItemsSettle(rt, params, skip, items);
    UnopenedClose(rt, params, skip, ItemsSource(items), rest);
  }
}
