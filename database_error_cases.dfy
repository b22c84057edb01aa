module ErrorCases {
  import opened PhpValues
  import opened QueryParser
  import opened ParserProperties
  import opened TemplateSemantics

  /** The text before the `{` of the error cases: a literal holding a `?`. */
  const Front := [Flat([Text("select * from users where name = "), Literal("J?ack"), Text(" and ")])]

  lemma FrontOk()
    ensures forall k :: 0 <= k < |Front| ==> ItemOk(Front[k])
  {
    assert Ordinary("select * from users where name = ");
    assert Ordinary(" and ");
    assert NoQuotes("J?ack");
    assert PartsOk(Front[0].parts);
  }

  lemma FrontText(rt: Runtime, params: seq<Value>, skip: Value)
    ensures ItemsText(rt, params, skip, 0, Front).Ok?
    ensures ItemsUses(Front) == 0
  {
    var ps := Front[0].parts;
    assert Expand(rt, params, 0, ps[2..]) == Ok(" and " + "");
    assert Expand(rt, params, 0, ps[1..]).Ok?;
    assert Expand(rt, params, 0, ps).Ok?;
    assert Uses(ps[2..]) == 0 && Uses(ps) == 0;
  }

  lemma FrontSource()
    ensures ItemsSource(Front) == "select * from users where name = 'J?ack' and "
  {
    var ps := Front[0].parts;
    assert Source(ps[2..]) == " and " + "";
    assert Source(ps) == "select * from users where name = " + ("'" + "J?ack" + "'" + (" and " + ""));
    assert Front[1..] == [];
    assert ItemsSource(Front) == Source(ps) + "";
    FrontLiteral();
  }

  lemma FrontLiteral()
    ensures "select * from users where name = " + ("'" + "J?ack" + "'" + (" and " + "")) + ""
      == "select * from users where name = 'J?ack' and "
  {
  }

  /** The pieces of the block of the error cases. */
  const Inner := [Text("block = ")]

  lemma InnerFacts(rt: Runtime, params: seq<Value>)
    ensures PartsOk(Inner) && Uses(Inner) == 0
    ensures Source(Inner) == "block = "
    ensures Expand(rt, params, 0, Inner).Ok?
  {
    assert Ordinary("block = ");
    InnerSource();
    assert Expand(rt, params, 0, Inner) == Ok("block = " + "");
  }

  lemma InnerSource()
    ensures Source(Inner) == "block = "
  {
    assert Source(Inner) == "block = " + "";
  }

  /** The text before the literal of the first error case. */
  const Opening := [Flat([Text("select * from users where name = ")])]

  lemma OpeningFacts(rt: Runtime, skip: Value)
    ensures forall k :: 0 <= k < |Opening| ==> ItemOk(Opening[k])
    ensures ItemsText(rt, [], skip, 0, Opening).Ok?
    ensures ItemsSource(Opening) == "select * from users where name = "
  {
    assert Ordinary("select * from users where name = ");
    assert ItemOk(Opening[0]);
    assert Opening[1..] == [];
    assert Expand(rt, [], 0, Opening[0].parts).Ok?;
    assert Source(Opening[0].parts) == "select * from users where name = " + "";
  }

  /** DatabaseTest: a literal left open. */
  lemma UnterminatedCase(rt: Runtime, skip: Value)
    ensures Parsed(rt, "select * from users where name = " + "'" + "J?ack", [], skip) == Err(ParseError)
  {
    OpeningFacts(rt, skip);
    assert NoQuotes("J?ack");
    UnterminatedLiteral(rt, [], skip, Opening, "J?ack");
  }

  /** DatabaseTest: a block left open, ending in a `?`. */
  lemma UnclosedCase(rt: Runtime, skip: Value)
    ensures Parsed(rt, "select * from users where name = 'J?ack' and " + "{" + "block = " + "?", [Bool(true)], skip)
      == Err(ParseError)
  {
    FrontOk();
    FrontText(rt, [Bool(true)], skip);
    FrontSource();
    InnerFacts(rt, [Bool(true)]);
    UnclosedBlock(rt, [Bool(true)], skip, Front, Inner, true);
  }

  /** DatabaseTest: `??` inside a block. */
  lemma DoubledMarkCase(rt: Runtime, skip: Value)
    ensures Parsed(rt, "select * from users where name = 'J?ack' and " + "{" + "block = " + "??" + "}", [Bool(true)], skip)
      == Err(ParseError)
  {
    FrontOk();
    FrontText(rt, [Bool(true)], skip);
    FrontSource();
    InnerFacts(rt, [Bool(true)]);
    DoubledMarkInBlock(rt, [Bool(true)], skip, Front, Inner, "}");
  }

  /** DatabaseTest: a block opened inside a block. */
  lemma NestedCase(rt: Runtime, skip: Value)
    ensures Parsed(rt, "select * from users where name = 'J?ack' and " + "{" + "{" + "block = ?}", [Bool(true)], skip)
      == Err(ParseError)
  {
    FrontOk();
    FrontText(rt, [Bool(true)], skip);
    FrontSource();
    var start := BlockOpened(rt, [Bool(true)], skip, Front);
    NestedBlock(rt, [Bool(true)], skip, ItemsSource(Front) + "{", "block = ?}");
  }

  /** The error cases' text and block, as one sequence of items. */
  const Closed := Front + [Block(false, Inner, true)]

  lemma ClosedFacts(rt: Runtime, skip: Value)
    ensures forall k :: 0 <= k < |Closed| ==> ItemOk(Closed[k])
    ensures ItemsText(rt, [Bool(true)], skip, 0, Closed).Ok?
    ensures ItemsSource(Closed) == ItemsSource(Front) + ("{" + "block = " + "?" + "}")
  {
    ClosedOk();
    ClosedText(rt, skip);
    ClosedSource();
  }

  lemma ClosedOk()
    ensures forall k :: 0 <= k < |Closed| ==> ItemOk(Closed[k])
  {
    FrontOk();
    assert Ordinary("block = ");
    assert ItemOk(Closed[1]);
  }

  /** The block of the error cases renders: its `?` takes `true`. */
  lemma ClosedText(rt: Runtime, skip: Value)
    ensures ItemsText(rt, [Bool(true)], skip, 0, Closed).Ok?
  {
    FrontText(rt, [Bool(true)], skip);
    InnerFacts(rt, [Bool(true)]);
    var b := Block(false, Inner, true);
    assert Pending(rt, [Bool(true)], 0, true) == Ok("1");
    assert Guarded(rt, [Bool(true)], skip, 0, Inner, true).Ok?;
    assert ItemText(rt, [Bool(true)], skip, 0, b).Ok?;
    ClosedTail(rt, skip, b);
  }

  lemma ClosedTail(rt: Runtime, skip: Value, b: Item)
    requires b == Block(false, Inner, true) && ItemText(rt, [Bool(true)], skip, 0, b).Ok?
    requires ItemsText(rt, [Bool(true)], skip, 0, Front).Ok? && ItemsUses(Front) == 0
    ensures ItemsText(rt, [Bool(true)], skip, 0, Closed).Ok?
  {
    assert Closed[0] == Front[0] && Closed[1..] == [b] && Closed[1..][1..] == [];
    assert ItemsText(rt, [Bool(true)], skip, 0, Closed[1..]).Ok?;
  }

  lemma ClosedSource()
    ensures ItemsSource(Closed) == ItemsSource(Front) + ("{" + "block = " + "?" + "}")
  {
    InnerSource();
    var b := Block(false, Inner, true);
    assert Closed[0] == Front[0] && Closed[1..] == [b] && Closed[1..][1..] == [];
    assert ItemSource(b) == "" + "{" + "block = " + "?" + "}";
    assert ItemsSource(Closed[1..]) == ItemSource(b) + "";
    assert "" + "{" + "block = " + "?" + "}" + "" == "{" + "block = " + "?" + "}";
    assert Front[1..] == [];
  }

  /** DatabaseTest: a `}` after the block has closed. */
  lemma StrayCloseCase(rt: Runtime, skip: Value)
    ensures Parsed(rt, "select * from users where name = 'J?ack' and " + ("{" + "block = " + "?" + "}") + "}", [Bool(true)], skip)
      == Err(ParseError)
  {
    FrontSource();
    ClosedFacts(rt, skip);
    StrayClose(rt, [Bool(true)], skip, Closed, "");
    assert ItemsSource(Closed) + "}" + "" == ItemsSource(Closed) + "}";
  }
}
