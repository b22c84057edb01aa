/** What the parser promises, stated over the scanner functions that the
    `Parse` method is proved to compute. */
module ParserProperties {
  import opened PhpValues
  import opened QueryParserState
  import opened QueryParser

  // ---------------------------------------------------------------------
  // Vocabulary.

  /** One output token per character, as the scanner emits plain text. */
  function Chars(s: string): (r: seq<string>)
    ensures |r| == |s|
  {
    if |s| == 0 then [] else [[s[0]]] + Chars(s[1..])
  }

  lemma {:induction false} ConcatChars(s: string)
    ensures Concat(Chars(s)) == s
  {
    if |s| > 0 {
      ConcatChars(s[1..]);
      assert s == [s[0]] + s[1..];
    }
  }

  /** The number of single quotes in `s`. */
  function QuoteCount(s: string): nat
  {
    if |s| == 0 then 0 else (if s[0] == '\'' then 1 else 0) + QuoteCount(s[1..])
  }

  /** No placeholder or block syntax in `s`. */
  predicate NoMarkup(s: string) {
    forall k :: 0 <= k < |s| ==> s[k] != '?' && s[k] != '{' && s[k] != '}'
  }

  predicate NoBraces(s: string) {
    forall k :: 0 <= k < |s| ==> s[k] != '{' && s[k] != '}'
  }

  predicate NoQuotes(s: string) {
    forall k :: 0 <= k < |s| ==> s[k] != '\''
  }

  /** Tokens appended where the scanner currently writes. */
  function Feed(sc: Scanner, tokens: seq<string>): Scanner
  {
    if sc.inBlock then sc.(block := sc.block + tokens) else sc.(out := sc.out + tokens)
  }

  /** Where a state ends up after `n` quote characters outside placeholders. */
  function Toggled(st: State, n: nat): State
  {
    if n % 2 == 0 then st
    else if st == General then StringToken
    else General
  }

  /** The step resolves a pending `?` and so reads parameter `sc.next`. */
  predicate Resolves(sc: Scanner, c: char) {
    && sc.state == PlaceholderToken
    && c != '?' && c != '\''
    && !(c == '{' && sc.inBlock)
    && !(c == '}' && !sc.inBlock)
  }

  /** The template faults a character reveals in a given scanner state. */
  predicate StructuralFault(sc: Scanner, c: char) {
    || (c == '?' && sc.state == PlaceholderToken)
    || (c == '{' && sc.state != StringToken && sc.inBlock)
    || (c == '}' && sc.state != StringToken && !sc.inBlock)
  }

  // ---------------------------------------------------------------------
  // Running over concatenated text; failures are final.

  lemma {:induction false} RunAppend(rt: Runtime, params: seq<Value>, skip: Value, sc: Scanner, a: string, b: string)
    ensures Run(rt, params, skip, sc, a + b) ==
      match Run(rt, params, skip, sc, a)
      case Ok(mid) => Run(rt, params, skip, mid, b)
      case Err(e) => Err(e)
    decreases |a|
  {
    if |a| == 0 {
      assert a + b == b;
    } else {
      assert (a + b)[0] == a[0] && (a + b)[1..] == a[1..] + b;
      match Step(rt, params, skip, sc, a[0])
      case Err(_) =>
      case Ok(after) => RunAppend(rt, params, skip, after, a[1..], b);
    }
  }

  /** `parse` is all-or-nothing: once a prefix of the template has failed,
      nothing after it can change the outcome. */
  lemma FailureIsFinal(rt: Runtime, params: seq<Value>, skip: Value, prefix: string, rest: string)
    requires Run(rt, params, skip, Initial, prefix).Err?
    ensures Parsed(rt, prefix + rest, params, skip) == Err(Run(rt, params, skip, Initial, prefix).error)
  {
    RunAppend(rt, params, skip, Initial, prefix, rest);
  }

  // ---------------------------------------------------------------------
  // One step.

  /** A step fails with ParseError exactly on a structural fault; a step
      that does not resolve a placeholder cannot fail otherwise; a step that
      resolves one reads parameter `next`, fails with InvalidArgument when
      there is none, and advances `next` by one. */
  lemma StepErrors(rt: Runtime, params: seq<Value>, skip: Value, sc: Scanner, c: char)
    ensures Step(rt, params, skip, sc, c) == Err(ParseError) <==> StructuralFault(sc, c)
    ensures Step(rt, params, skip, sc, c).Err? && !StructuralFault(sc, c) ==> Resolves(sc, c)
    ensures Resolves(sc, c) && sc.next >= |params| ==> Step(rt, params, skip, sc, c) == Err(InvalidArgument)
    ensures Step(rt, params, skip, sc, c).Ok? ==>
      Step(rt, params, skip, sc, c).value.next == sc.next + (if Resolves(sc, c) then 1 else 0)
    ensures Step(rt, params, skip, sc, c).Ok? && Resolves(sc, c) ==> sc.next < |params|
  {
    if c == '\'' {
    } else if c == '?' {
    } else if IsTypeMark(c) {
      assert Step(rt, params, skip, sc, c) == StepMark(rt, params, sc, c);
    } else if c == '{' {
      assert Step(rt, params, skip, sc, c) == StepOpen(rt, params, sc);
    } else if c == '}' {
      assert Step(rt, params, skip, sc, c) == StepClose(rt, params, skip, sc);
    } else {
      assert Step(rt, params, skip, sc, c) == StepOther(rt, params, sc, c);
    }
  }

  // ---------------------------------------------------------------------
  // Plain text and literals.

  lemma {:induction false} CharsAppend(a: string, b: string)
    ensures Chars(a + b) == Chars(a) + Chars(b)
  {
    if |a| == 0 {
      assert a + b == b;
    } else {
      assert (a + b)[0] == a[0] && (a + b)[1..] == a[1..] + b;
      CharsAppend(a[1..], b);
    }
  }

  lemma FeedTwice(sc: Scanner, a: seq<string>, b: seq<string>)
    ensures Feed(Feed(sc, a), b) == Feed(sc, a + b)
  {
    assert sc.block + a + b == sc.block + (a + b);
    assert sc.out + a + b == sc.out + (a + b);
  }

  lemma FeedNothing(sc: Scanner)
    ensures Feed(sc, []) == sc
  {
    assert sc.block + [] == sc.block;
    assert sc.out + [] == sc.out;
  }

  /** Outside placeholders, text without `?`, `{` or `}` is copied token by
      token; each quote flips between `General` and `StringToken`. */
  lemma {:induction false} PlainRun(rt: Runtime, params: seq<Value>, skip: Value, sc: Scanner, s: string)
    requires sc.state != PlaceholderToken
    requires NoMarkup(s)
    ensures Run(rt, params, skip, sc, s) ==
      Ok(Feed(sc, Chars(s)).(state := Toggled(sc.state, QuoteCount(s))))
    decreases |s|
  {
    if |s| == 0 {
      FeedNothing(sc);
    } else {
      var c := s[0];
      var after := if c == '\'' then StepQuote(sc) else Emit(sc, [c]);
      assert Step(rt, params, skip, sc, c) == Ok(after) by {
        if IsTypeMark(c) {
          assert Step(rt, params, skip, sc, c) == StepMark(rt, params, sc, c);
        } else if c != '\'' {
          assert Step(rt, params, skip, sc, c) == StepOther(rt, params, sc, c);
        }
      }
      assert after == Feed(sc, [[c]]).(state := Toggled(sc.state, if c == '\'' then 1 else 0));
      assert NoMarkup(s[1..]) by {
        forall k | 0 <= k < |s[1..]| ensures s[1..][k] != '?' && s[1..][k] != '{' && s[1..][k] != '}' {
          assert s[1..][k] == s[k + 1];
        }
      }
      PlainRun(rt, params, skip, after, s[1..]);
      FeedTwice(sc, [[c]], Chars(s[1..]));
    }
  }

  /** A template with no `?`, `{` or `}` and an even number of quotes comes
      back unchanged, whatever the parameters, and consumes none of them. */
  lemma Passthrough(rt: Runtime, query: string, params: seq<Value>, skip: Value)
    requires NoMarkup(query) && QuoteCount(query) % 2 == 0
    ensures Run(rt, params, skip, Initial, query) == Ok(Initial.(out := Chars(query)))
    ensures Parsed(rt, query, params, skip) == Ok(query)
  {
    PlainRun(rt, params, skip, Initial, query);
    assert [] + Chars(query) == Chars(query);
    ConcatChars(query);
  }

  /** Inside a literal every character but the quote is copied verbatim:
      `?`, `{`, `}`, `d`, `f`, `a` and `#` open nothing and read no parameter. */
  lemma {:induction false} LiteralRun(rt: Runtime, params: seq<Value>, skip: Value, sc: Scanner, s: string)
    requires sc.state == StringToken
    requires NoQuotes(s)
    ensures Run(rt, params, skip, sc, s) == Ok(Feed(sc, Chars(s)))
    decreases |s|
  {
    if |s| == 0 {
      FeedNothing(sc);
    } else {
      var c := s[0];
      assert Step(rt, params, skip, sc, c) == Ok(Emit(sc, [c])) by {
        if c == '?' {
        } else if IsTypeMark(c) {
          assert Step(rt, params, skip, sc, c) == StepMark(rt, params, sc, c);
        } else if c == '{' {
          assert Step(rt, params, skip, sc, c) == StepOpen(rt, params, sc);
        } else if c == '}' {
          assert Step(rt, params, skip, sc, c) == StepClose(rt, params, skip, sc);
        } else {
          assert Step(rt, params, skip, sc, c) == StepOther(rt, params, sc, c);
        }
      }
      assert Emit(sc, [c]) == Feed(sc, [[c]]);
      assert NoQuotes(s[1..]) by {
        forall k | 0 <= k < |s[1..]| ensures s[1..][k] != '\'' {
          assert s[1..][k] == s[k + 1];
        }
      }
      LiteralRun(rt, params, skip, Emit(sc, [c]), s[1..]);
      FeedTwice(sc, [[c]], Chars(s[1..]));
    }
  }

  /** A whole quoted literal, from `General`, is copied verbatim and leaves
      the state, the block and the parameter index as they were. */
  lemma QuotedLiteral(rt: Runtime, params: seq<Value>, skip: Value, sc: Scanner, text: string)
    requires sc.state == General
    requires NoQuotes(text)
    ensures Run(rt, params, skip, sc, "'" + text + "'") == Ok(Feed(sc, Chars("'" + text + "'")))
  {
    var entered := StepQuote(sc);
    assert entered == Feed(sc, ["'"]).(state := StringToken);
    assert Run(rt, params, skip, sc, "'") == Ok(entered);
    LiteralRun(rt, params, skip, entered, text);
    var inside := Feed(entered, Chars(text));
    var closed := Feed(inside.(state := General), ["'"]);
    assert Run(rt, params, skip, inside, "'") == Ok(closed);
    RunAppend(rt, params, skip, entered, text, "'");
    assert Run(rt, params, skip, entered, text + "'") == Ok(closed);
    RunAppend(rt, params, skip, sc, "'", text + "'");
    assert "'" + text + "'" == "'" + (text + "'");
    FeedTwice(sc, ["'"], Chars(text));
    FeedTwice(sc, ["'"] + Chars(text), ["'"]);
    CharsAppend("'", text);
    CharsAppend("'" + text, "'");
    assert Chars("'") == ["'"];
    assert closed == Feed(sc, Chars("'" + text + "'"));
  }

  // ---------------------------------------------------------------------
  // Structural faults.

  /** `??` outside a literal fails with ParseError, whatever follows. */
  lemma DoubleQuestionMark(rt: Runtime, params: seq<Value>, skip: Value, prefix: string, rest: string)
    requires Run(rt, params, skip, Initial, prefix).Ok?
    requires Run(rt, params, skip, Initial, prefix).value.state == General
    ensures Parsed(rt, prefix + "??" + rest, params, skip) == Err(ParseError)
  {
    var sc := Run(rt, params, skip, Initial, prefix).value;
    assert prefix + "??" + rest == prefix + ("??" + rest);
    RunAppend(rt, params, skip, Initial, prefix, "??" + rest);
    var waiting := sc.(state := PlaceholderToken);
    assert Step(rt, params, skip, sc, '?') == Ok(waiting);
    assert Step(rt, params, skip, waiting, '?') == Err(ParseError);
    assert ("??" + rest)[1..] == "?" + rest;
  }

  /** `{` while a block is open fails with ParseError. */
  lemma NestedBlock(rt: Runtime, params: seq<Value>, skip: Value, prefix: string, rest: string)
    requires Run(rt, params, skip, Initial, prefix).Ok?
    requires Run(rt, params, skip, Initial, prefix).value.inBlock
    requires Run(rt, params, skip, Initial, prefix).value.state != StringToken
    ensures Parsed(rt, prefix + "{" + rest, params, skip) == Err(ParseError)
  {
    var sc := Run(rt, params, skip, Initial, prefix).value;
    assert prefix + "{" + rest == prefix + ("{" + rest);
    RunAppend(rt, params, skip, Initial, prefix, "{" + rest);
    assert Step(rt, params, skip, sc, '{') == StepOpen(rt, params, sc);
  }

  /** `}` with no open block fails with ParseError. */
  lemma UnopenedClose(rt: Runtime, params: seq<Value>, skip: Value, prefix: string, rest: string)
    requires Run(rt, params, skip, Initial, prefix).Ok?
    requires !Run(rt, params, skip, Initial, prefix).value.inBlock
    requires Run(rt, params, skip, Initial, prefix).value.state != StringToken
    ensures Parsed(rt, prefix + "}" + rest, params, skip) == Err(ParseError)
  {
    var sc := Run(rt, params, skip, Initial, prefix).value;
    assert prefix + "}" + rest == prefix + ("}" + rest);
    RunAppend(rt, params, skip, Initial, prefix, "}" + rest);
    assert Step(rt, params, skip, sc, '}') == StepClose(rt, params, skip, sc);
  }

  /** The end of the template: an open block or literal is a ParseError and
      nothing else is; a pending `?` takes parameter `next`; otherwise the
      output is the tokens joined. */
  lemma EndOfTemplate(rt: Runtime, query: string, params: seq<Value>, skip: Value)
    requires Run(rt, params, skip, Initial, query).Ok?
    ensures var sc := Run(rt, params, skip, Initial, query).value;
      && (Parsed(rt, query, params, skip) == Err(ParseError) <==> sc.inBlock || sc.state == StringToken)
      && (!sc.inBlock && sc.state == General ==> Parsed(rt, query, params, skip) == Ok(Concat(sc.out)))
      && (!sc.inBlock && sc.state == PlaceholderToken ==>
            Parsed(rt, query, params, skip) ==
              if sc.next < |params| && !params[sc.next].Arr? then
                Ok(Concat(sc.out) + AutoParam(rt, params[sc.next]).value)
              else Err(InvalidArgument))
  {
    var sc := Run(rt, params, skip, Initial, query).value;
    if !sc.inBlock && sc.state == PlaceholderToken && sc.next < |params| && !params[sc.next].Arr? {
      var token := AutoParam(rt, params[sc.next]).value;
      ConcatAppend(sc.out, [token]);
      assert Concat([token]) == token;
    }
  }

  // ---------------------------------------------------------------------
  // Conditional blocks.

  /** Inside an open block, a character other than a brace leaves the main
      output alone and records in the block exactly the value it reads. */
  lemma StepInBlock(rt: Runtime, params: seq<Value>, skip: Value, sc: Scanner, c: char)
    requires sc.inBlock && c != '{' && c != '}'
    requires sc.next <= |params|
    requires Step(rt, params, skip, sc, c).Ok?
    ensures var n := Step(rt, params, skip, sc, c).value;
      && n.inBlock && n.out == sc.out
      && sc.next <= n.next <= |params|
      && n.blockParams == sc.blockParams + params[sc.next..n.next]
  {
    StepErrors(rt, params, skip, sc, c);
    var n := Step(rt, params, skip, sc, c).value;
    if c == '\'' {
    } else if c == '?' {
    } else if IsTypeMark(c) {
      assert Step(rt, params, skip, sc, c) == StepMark(rt, params, sc, c);
    } else {
      assert Step(rt, params, skip, sc, c) == StepOther(rt, params, sc, c);
    }
    if n.next == sc.next {
      assert params[sc.next..n.next] == [];
    } else {
      assert params[sc.next..n.next] == [params[sc.next]];
    }
  }

  lemma {:induction false} RunInBlock(rt: Runtime, params: seq<Value>, skip: Value, sc: Scanner, s: string)
    requires sc.inBlock && NoBraces(s)
    requires sc.next <= |params|
    requires Run(rt, params, skip, sc, s).Ok?
    ensures var m := Run(rt, params, skip, sc, s).value;
      && m.inBlock && m.out == sc.out
      && sc.next <= m.next <= |params|
      && m.blockParams == sc.blockParams + params[sc.next..m.next]
    decreases |s|
  {
    if |s| == 0 {
      assert params[sc.next..sc.next] == [];
    } else {
      StepInBlock(rt, params, skip, sc, s[0]);
      var n := Step(rt, params, skip, sc, s[0]).value;
      assert NoBraces(s[1..]) by {
        forall k | 0 <= k < |s[1..]| ensures s[1..][k] != '{' && s[1..][k] != '}' {
          assert s[1..][k] == s[k + 1];
        }
      }
      RunInBlock(rt, params, skip, n, s[1..]);
      var m := Run(rt, params, skip, n, s[1..]).value;
      assert params[sc.next..m.next] == params[sc.next..n.next] + params[n.next..m.next];
    }
  }

  /** Running over `{t}` without failure is the `{` step, then `t`, then
      the `}` step, each without failure. */
  lemma RunBraced(rt: Runtime, params: seq<Value>, skip: Value, sc: Scanner, t: string)
    requires Run(rt, params, skip, sc, "{" + t + "}").Ok?
    ensures Step(rt, params, skip, sc, '{').Ok?
    ensures Run(rt, params, skip, Step(rt, params, skip, sc, '{').value, t).Ok?
    ensures Run(rt, params, skip, sc, "{" + t + "}") ==
      Step(rt, params, skip, Run(rt, params, skip, Step(rt, params, skip, sc, '{').value, t).value, '}')
  {
    assert "{" + t + "}" == "{" + (t + "}");
    RunAppend(rt, params, skip, sc, "{", t + "}");
    RunFirst(rt, params, skip, sc, "{");
    RunAppend(rt, params, skip, Step(rt, params, skip, sc, '{').value, t, "}");
  }

  /** A `{` outside a block and a literal opens an empty block. */
  lemma OpenStep(rt: Runtime, params: seq<Value>, skip: Value, sc: Scanner)
    requires !sc.inBlock && sc.state != StringToken && sc.next <= |params|
    requires Step(rt, params, skip, sc, '{').Ok?
    ensures var start := Step(rt, params, skip, sc, '{').value;
      start.inBlock && start.blockParams == [] && start.next <= |params|
  {
    assert Step(rt, params, skip, sc, '{') == StepOpen(rt, params, sc);
  }

  lemma SliceJoin(params: seq<Value>, a: nat, b: nat, c: nat)
    requires a <= b <= c <= |params|
    ensures params[a..b] + params[b..c] == params[a..c]
  {
  }

  /** A block `{t}` that is processed without failure and closes at its
      `}`: the values it records are exactly the parameters read from the
      `{` to the `}` (a `?` just before the `{` is not among them, one just
      before the `}` is), and the main output gains the block's tokens if
      and only if none of those values is strictly equal to the skip value.
      A dropped block leaves the main output as the `{` left it. */
  lemma BlockVerdict(rt: Runtime, params: seq<Value>, skip: Value, sc: Scanner, t: string)
    requires !sc.inBlock && sc.state != StringToken && sc.next <= |params|
    requires NoBraces(t)
    requires Run(rt, params, skip, sc, "{" + t + "}").Ok?
    requires !Run(rt, params, skip, sc, "{" + t + "}").value.inBlock
    ensures Step(rt, params, skip, sc, '{').Ok?
    ensures var start := Step(rt, params, skip, sc, '{').value;
      var fin := Run(rt, params, skip, sc, "{" + t + "}").value;
      && start.next <= fin.next <= |params|
      && fin.blockParams == params[start.next..fin.next]
      && fin.out == (if IncludeConditional(fin.blockParams, skip) then start.out + fin.block else start.out)
  {
    RunBraced(rt, params, skip, sc, t);
    OpenStep(rt, params, skip, sc);
    var start := Step(rt, params, skip, sc, '{').value;
    RunInBlock(rt, params, skip, start, t);
    var mid := Run(rt, params, skip, start, t).value;
    CloseStep(rt, params, skip, mid);
    var fin := Step(rt, params, skip, mid, '}').value;
    SliceJoin(params, start.next, mid.next, fin.next);
    assert [] + params[start.next..mid.next] == params[start.next..mid.next];
  }

  /** The `}` step on a block that is open outside a literal. */
  lemma CloseStep(rt: Runtime, params: seq<Value>, skip: Value, mid: Scanner)
    requires mid.inBlock && mid.next <= |params|
    requires Step(rt, params, skip, mid, '}').Ok?
    requires !Step(rt, params, skip, mid, '}').value.inBlock
    ensures var fin := Step(rt, params, skip, mid, '}').value;
      && mid.next <= fin.next <= |params|
      && fin.blockParams == mid.blockParams + params[mid.next..fin.next]
      && fin.out == (if IncludeConditional(fin.blockParams, skip) then mid.out + fin.block else mid.out)
  {
    assert Step(rt, params, skip, mid, '}') == StepClose(rt, params, skip, mid);
    if mid.state == PlaceholderToken {
      ClosePending(rt, params, skip, mid);
    } else {
      ClosePlain(rt, params, skip, mid);
    }
  }

  lemma ClosePending(rt: Runtime, params: seq<Value>, skip: Value, mid: Scanner)
    requires mid.inBlock && mid.state == PlaceholderToken
    requires StepClose(rt, params, skip, mid).Ok?
    ensures var fin := StepClose(rt, params, skip, mid).value;
      && fin.next == mid.next + 1 <= |params|
      && fin.blockParams == mid.blockParams + params[mid.next..fin.next]
      && fin.out == (if IncludeConditional(fin.blockParams, skip) then mid.out + fin.block else mid.out)
  {
    assert StepClose(rt, params, skip, mid).Ok? ==> GetParam(params, mid.next).Ok? && AutoParam(rt, params[mid.next]).Ok?;
    var v := params[mid.next];
    ValueBeforeClose(rt, params, skip, mid);
    var closing := mid.(state := General, next := mid.next + 1, blockParams := mid.blockParams + [v],
                        block := mid.block + [AutoParam(rt, v).value]);
    assert StepClose(rt, params, skip, mid).value == Close(closing, skip);
    SliceOne(params, mid.next);
  }

  lemma SliceOne(params: seq<Value>, i: nat)
    requires i < |params|
    ensures params[i..i + 1] == [params[i]]
  {
  }

  lemma ClosePlain(rt: Runtime, params: seq<Value>, skip: Value, mid: Scanner)
    requires mid.inBlock && mid.state == General && mid.next <= |params|
    ensures var fin := StepClose(rt, params, skip, mid).value;
      && StepClose(rt, params, skip, mid) == Ok(Close(mid, skip))
      && fin.next == mid.next
      && fin.blockParams == mid.blockParams + params[mid.next..fin.next]
  {
    assert params[mid.next..mid.next] == [];
    assert mid.blockParams + [] == mid.blockParams;
  }

  /** A block with no placeholders in it is always kept. */
  lemma PlainBlockKept(rt: Runtime, params: seq<Value>, skip: Value, sc: Scanner, t: string)
    requires !sc.inBlock && sc.state == General
    requires NoMarkup(t) && QuoteCount(t) % 2 == 0
    ensures Run(rt, params, skip, sc, "{" + t + "}") ==
      Ok(sc.(out := sc.out + Chars(t), block := Chars(t), blockParams := []))
  {
    assert "{" + t + "}" == "{" + (t + "}");
    RunAppend(rt, params, skip, sc, "{", t + "}");
    var entered := sc.(inBlock := true, block := [], blockParams := []);
    assert Step(rt, params, skip, sc, '{') == Ok(entered);
    RunAppend(rt, params, skip, entered, t, "}");
    PlainRun(rt, params, skip, entered, t);
    var mid := entered.(block := Chars(t));
    assert [] + Chars(t) == Chars(t);
    assert Run(rt, params, skip, entered, t) == Ok(mid);
    assert Step(rt, params, skip, mid, '}') == StepClose(rt, params, skip, mid);
  }

  /** `?` directly before `{`: the placeholder goes to the main output, the
      block starts with no recorded values, and `next` moves on by one. */
  lemma PlaceholderBeforeBlock(rt: Runtime, params: seq<Value>, skip: Value, sc: Scanner)
    requires sc.state == PlaceholderToken && !sc.inBlock
    requires sc.next < |params| && !params[sc.next].Arr?
    ensures Step(rt, params, skip, sc, '{') ==
      Ok(Scanner(General, true, [], [], sc.next + 1, sc.out + [AutoParam(rt, params[sc.next]).value]))
  {
    assert Step(rt, params, skip, sc, '{') == StepOpen(rt, params, sc);
  }

  /** `?` directly before `}`: the value is rendered into the block and
      recorded for the skip test before the block is judged. */
  lemma PlaceholderBeforeClose(rt: Runtime, params: seq<Value>, skip: Value, sc: Scanner)
    requires sc.state == PlaceholderToken && sc.inBlock
    requires sc.next < |params| && !params[sc.next].Arr?
    ensures var v := params[sc.next];
      var block := sc.block + [AutoParam(rt, v).value];
      Step(rt, params, skip, sc, '}') ==
        Ok(Scanner(General, false, block, sc.blockParams + [v], sc.next + 1,
                   if IncludeConditional(sc.blockParams + [v], skip) then sc.out + block else sc.out))
  {
    assert Step(rt, params, skip, sc, '}') == StepClose(rt, params, skip, sc);
    ValueBeforeClose(rt, params, skip, sc);
  }

  lemma ValueBeforeClose(rt: Runtime, params: seq<Value>, skip: Value, sc: Scanner)
    requires sc.state == PlaceholderToken && sc.inBlock
    requires sc.next < |params| && !params[sc.next].Arr?
    ensures var v := params[sc.next];
      StepClose(rt, params, skip, sc) ==
        Ok(Close(sc.(state := General, next := sc.next + 1, blockParams := sc.blockParams + [v],
                     block := sc.block + [AutoParam(rt, v).value]), skip))
  {
    assert GetParam(params, sc.next) == Ok(params[sc.next]);
  }

  /** `?` followed by `'` drops the placeholder: no parameter is read and
      no literal is opened. */
  lemma QuoteAfterPlaceholder(rt: Runtime, params: seq<Value>, skip: Value, sc: Scanner)
    requires sc.state == PlaceholderToken
    ensures Step(rt, params, skip, sc, '\'') == Ok(Emit(sc.(state := General), "'"))
  {
  }

  // ---------------------------------------------------------------------
  // Parameters are read in order, and only as far as the template asks.

  /** With only the first `k` parameters, a step behaves the same unless it
      resolves a placeholder whose parameter lies beyond them, and then it
      fails with InvalidArgument. */
  lemma StepTruncated(rt: Runtime, params: seq<Value>, skip: Value, sc: Scanner, c: char, k: nat)
    requires k <= |params|
    ensures Step(rt, params[..k], skip, sc, c) ==
      if Resolves(sc, c) && sc.next >= k then Err(InvalidArgument) else Step(rt, params, skip, sc, c)
  {
    StepErrors(rt, params[..k], skip, sc, c);
    if !Resolves(sc, c) || sc.next < k {
      if sc.next < k {
        assert params[..k][sc.next] == params[sc.next];
      }
      if c == '\'' {
      } else if c == '?' {
      } else if IsTypeMark(c) {
        assert Step(rt, params[..k], skip, sc, c) == StepMark(rt, params[..k], sc, c);
        assert Step(rt, params, skip, sc, c) == StepMark(rt, params, sc, c);
      } else if c == '{' {
        assert Step(rt, params[..k], skip, sc, c) == StepOpen(rt, params[..k], sc);
        assert Step(rt, params, skip, sc, c) == StepOpen(rt, params, sc);
      } else if c == '}' {
        assert Step(rt, params[..k], skip, sc, c) == StepClose(rt, params[..k], skip, sc);
        assert Step(rt, params, skip, sc, c) == StepClose(rt, params, skip, sc);
      } else {
        assert Step(rt, params[..k], skip, sc, c) == StepOther(rt, params[..k], sc, c);
        assert Step(rt, params, skip, sc, c) == StepOther(rt, params, sc, c);
      }
    }
  }

  lemma {:induction false} RunTruncated(rt: Runtime, params: seq<Value>, skip: Value, sc: Scanner, s: string, k: nat)
    requires k <= |params|
    ensures Run(rt, params[..k], skip, sc, s) == Run(rt, params, skip, sc, s)
         || Run(rt, params[..k], skip, sc, s) == Err(InvalidArgument)
    decreases |s|
  {
    if |s| > 0 {
      StepTruncated(rt, params, skip, sc, s[0], k);
      var full := Step(rt, params, skip, sc, s[0]);
      if Step(rt, params[..k], skip, sc, s[0]) == full && full.Ok? {
        RunTruncated(rt, params, skip, full.value, s[1..], k);
      }
    }
  }

  lemma FinishTruncated(rt: Runtime, params: seq<Value>, sc: Scanner, k: nat)
    requires k <= |params|
    ensures Finish(rt, params[..k], sc) == Finish(rt, params, sc)
         || Finish(rt, params[..k], sc) == Err(InvalidArgument)
  {
    if sc.next < k {
      assert params[..k][sc.next] == params[sc.next];
    }
  }

  /** Dropping trailing parameters never turns a result into a different
      result or into a ParseError: the parse is the same, or it fails with
      InvalidArgument because a placeholder finds no parameter. */
  lemma TruncatedParams(rt: Runtime, query: string, params: seq<Value>, skip: Value, k: nat)
    requires k <= |params|
    ensures Parsed(rt, query, params[..k], skip) == Parsed(rt, query, params, skip)
         || Parsed(rt, query, params[..k], skip) == Err(InvalidArgument)
  {
    RunTruncated(rt, params, skip, Initial, query, k);
    if Run(rt, params[..k], skip, Initial, query).Ok? {
      FinishTruncated(rt, params, Run(rt, params, skip, Initial, query).value, k);
    }
  }

  /** Parameters beyond those the template reads are ignored. */
  lemma ExtraParamsIgnored(rt: Runtime, query: string, params: seq<Value>, extra: seq<Value>, skip: Value)
    requires Parsed(rt, query, params, skip).Ok?
    ensures Parsed(rt, query, params + extra, skip) == Parsed(rt, query, params, skip)
  {
    assert (params + extra)[..|params|] == params;
    TruncatedParams(rt, query, params + extra, skip, |params|);
  }

  // ---------------------------------------------------------------------
  // Segments of a template, from the `General` state.

  lemma {:induction false} NoQuotesCount(s: string)
    requires NoQuotes(s)
    ensures QuoteCount(s) == 0
  {
    if |s| > 0 {
      assert NoQuotes(s[1..]) by {
        forall k | 0 <= k < |s[1..]| ensures s[1..][k] != '\'' {
          assert s[1..][k] == s[k + 1];
        }
      }
      NoQuotesCount(s[1..]);
    }
  }

  /** Text with no `?`, `{`, `}` or `'`. */
  predicate Ordinary(s: string) {
    forall k :: 0 <= k < |s| ==> s[k] != '?' && s[k] != '{' && s[k] != '}' && s[k] != '\''
  }

  /** Ordinary text is copied and the scan goes on after it. */
  lemma TextThen(rt: Runtime, params: seq<Value>, skip: Value, sc: Scanner, text: string, rest: string)
    requires sc.state == General && Ordinary(text)
    ensures Run(rt, params, skip, sc, text + rest) == Run(rt, params, skip, Feed(sc, Chars(text)), rest)
  {
    NoQuotesCount(text);
    PlainRun(rt, params, skip, sc, text);
    RunAppend(rt, params, skip, sc, text, rest);
  }
}
