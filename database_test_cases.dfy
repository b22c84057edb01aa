module DatabaseTestCases {
  import opened PhpValues
  import opened QueryParser
  import opened ParserProperties
  import opened TemplateSemantics
  import RenderingProperties

  // ---------------------------------------------------------------------
  // Evaluation helpers.

  lemma ExpandFirst(rt: Runtime, params: seq<Value>, k: nat, ps: seq<Part>, t: string, rest: string)
    requires |ps| > 0 && k + PartUses(ps[0]) <= |params|
    requires PartText(rt, params, k, ps[0]) == Ok(t)
    requires Expand(rt, params, k + PartUses(ps[0]), ps[1..]) == Ok(rest)
    ensures Expand(rt, params, k, ps) == Ok(t + rest)
  {
  }

  /** A typed placeholder renders its parameter as its letter says. */
  lemma TypedPart(rt: Runtime, params: seq<Value>, k: nat, m: TypeMark, v: Value, t: string)
    requires k < |params| && params[k] == v && TypedParam(rt, MarkChar(m), v) == Ok(t)
    ensures PartText(rt, params, k, Typed(m)) == Ok(t)
  {
  }

  /** A well-formed template whose text is `q` and whose expected rendering
      is `r`: the parse of `q` is `r`. */
  lemma Rendered(rt: Runtime, t: Template, params: seq<Value>, skip: Value, q: string, r: string)
    requires TemplateOk(t) && TemplateSource(t) == q && Expected(rt, t, params, skip) == Ok(r)
    ensures Parsed(rt, q, params, skip) == Ok(r)
  {
    TemplateParsed(rt, t, params, skip);
  }

  lemma TwoItems(rt: Runtime, params: seq<Value>, skip: Value, a: Item, b: Item, ta: string, tb: string)
    requires ItemText(rt, params, skip, 0, a) == Ok(ta)
    requires ItemUses(a) <= |params| && ItemText(rt, params, skip, ItemUses(a), b) == Ok(tb)
    ensures ItemsText(rt, params, skip, 0, [a, b]) == Ok(ta + (tb + ""))
  {
    var items := [a, b];
    assert items[0] == a && items[1..] == [b];
    assert [b][0] == b && [b][1..] == [];
    assert ItemsText(rt, params, skip, ItemUses(a) + ItemUses(b), []) == Ok("");
    assert ItemsText(rt, params, skip, ItemUses(a), [b]) == Ok(tb + "");
  }

  lemma TwoSources(a: Item, b: Item)
    ensures ItemsSource([a, b]) == ItemSource(a) + (ItemSource(b) + "")
    ensures ItemsUses([a, b]) == ItemUses(a) + (ItemUses(b) + 0)
  {
    assert [a, b][0] == a && [a, b][1..] == [b];
    assert [b][0] == b && [b][1..] == [];
    assert ItemsSource([b]) == ItemSource(b) + ItemsSource([]);
    assert ItemsSource([a, b]) == ItemSource(a) + ItemsSource([b]);
    assert ItemsUses([b]) == ItemUses(b) + ItemsUses([]);
    assert ItemsUses([a, b]) == ItemUses(a) + ItemsUses([b]);
  }

  lemma Unbraced(ps: seq<string>)
    ensures Concat(["{"] + ps + ["}"]) == "{" + Concat(ps) + "}"
  {
    ConcatAppend(["{"] + ps, ["}"]);
    ConcatAppend(["{"], ps);
    assert Concat(["{"]) == "{" + "";
    assert Concat(["}"]) == "}" + "";
  }

  // ---------------------------------------------------------------------
  // The main cases.

  /** `select name from users where user_id = 1` with no parameters. */
  lemma PlainQuery(rt: Runtime, skip: Value)
    ensures Parsed(rt, "select name from users where user_id = 1", [], skip)
      == Ok("select name from users where user_id = 1")
  {
    var q := "select name from users where user_id = 1";
    PlainText();
    var ps := [Text(q)];
    assert PartsOk(ps);
    FlatParsed(rt, ps, [], skip);
    assert q + "" == q;
  }

  /** The text in front of most of the cases' placeholders. */
  lemma SelectText()
    ensures Ordinary("select * from users where name = ")
  {
  }

  lemma PlainText()
    ensures Ordinary("select name from users where user_id = 1")
  {
  }

  /** `?` on a string: quoted and escaped by the driver. */
  lemma NamePlaceholder(rt: Runtime, skip: Value)
    requires rt.escape("Jack") == "Jack"
    ensures Parsed(rt, Concat(["select * from users where name = ", "? ", "and block = 0"]), [Str("Jack")], skip)
      == Ok(Concat(["select * from users where name = ", "'Jack' ", "and block = 0"]))
  {
    var ps := [Text("select * from users where name = "), Hole(' '), Text("and block = 0")];
    SelectText();
    NameOk(ps);
    NameSource();
    FlatParsed(rt, ps, [Str("Jack")], skip);
    NameExpand(rt, ps, [Str("Jack")]);
  }

  lemma NameSource()
    ensures Source([Text("select * from users where name = "), Hole(' '), Text("and block = 0")])
      == Concat(["select * from users where name = ", "? ", "and block = 0"])
  {
  }

  lemma NameOk(ps: seq<Part>)
    requires ps == [Text("select * from users where name = "), Hole(' '), Text("and block = 0")]
    requires Ordinary("select * from users where name = ")
    ensures PartsOk(ps)
  {
    assert Ordinary(ps[2].text);
    assert Ordinary([' ']);
  }

  lemma NameExpand(rt: Runtime, ps: seq<Part>, params: seq<Value>)
    requires rt.escape("Jack") == "Jack"
    requires ps == [Text("select * from users where name = "), Hole(' '), Text("and block = 0")]
    requires params == [Str("Jack")]
    ensures Expand(rt, params, 0, ps) == Ok(Concat(["select * from users where name = ", "'Jack' ", "and block = 0"]))
  {
    assert ps[3..] == [];
    ExpandFirst(rt, params, 1, ps[2..], "and block = 0", "");
    assert AutoParam(rt, Str("Jack")) == Ok("'" + "Jack" + "'");
    assert "'" + "Jack" + "'" + [' '] == "'Jack' ";
    ExpandFirst(rt, params, 0, ps[1..], "'Jack' ", "and block = 0" + "");
    ExpandFirst(rt, params, 0, ps, "select * from users where name = ", "'Jack' " + ("and block = 0" + ""));
  }

  /** `?a` on a keyed array: `` `key` = value `` pairs, and null as `null`. */
  lemma KeyedUpdate(rt: Runtime, skip: Value)
    requires rt.escape("Jack") == "Jack"
    ensures Parsed(rt, Concat(["update users set ", "?a", " where user_id = -1"]),
                   [Arr([(StrKey("name"), Str("Jack")), (StrKey("email"), Null)])], skip)
      == Ok(Concat(["update users set ", "`name` = 'Jack'", ", ", "`email` = null", " where user_id = -1"]))
  {
    var ps := [Text("update users set "), Typed(ArrayMark), Text(" where user_id = -1")];
    var params := [Arr([(StrKey("name"), Str("Jack")), (StrKey("email"), Null)])];
    KeyedOk(ps);
    KeyedSource();
    FlatParsed(rt, ps, params, skip);
    KeyedExpand(rt, ps, params);
  }

  lemma KeyedSource()
    ensures Source([Text("update users set "), Typed(ArrayMark), Text(" where user_id = -1")])
      == Concat(["update users set ", "?a", " where user_id = -1"])
  {
  }

  lemma KeyedOk(ps: seq<Part>)
    requires ps == [Text("update users set "), Typed(ArrayMark), Text(" where user_id = -1")]
    ensures PartsOk(ps)
  {
    forall k | 0 <= k < |ps| ensures PartOk(ps[k]) {
      if k == 0 {
        assert Ordinary("update users set ");
      } else if k == 2 {
        assert Ordinary(" where user_id = -1");
      }
    }
  }

  lemma PairsText(rt: Runtime)
    requires rt.escape("Jack") == "Jack"
    ensures ArrayText(rt, Arr([(StrKey("name"), Str("Jack")), (StrKey("email"), Null)]))
      == Ok("`name` = 'Jack'" + (", " + "`email` = null"))
  {
    var entries := [(StrKey("name"), Str("Jack")), (StrKey("email"), Null)];
    assert entries[0].0 != IntKey(0);
    assert RenderingProperties.Flat(entries) by {
      assert !entries[0].1.Arr? && !entries[1].1.Arr?;
    }
    RenderingProperties.KeyedRendering(rt, entries);
    PairsOf(rt, entries);
    var pairs := ["`name` = 'Jack'", "`email` = null"];
    assert pairs[1..] == ["`email` = null"];
    assert Join(", ", pairs) == "`name` = 'Jack'" + ", " + "`email` = null";
    AppendAssoc("`name` = 'Jack'", ", ", "`email` = null");
  }

  lemma PairsOf(rt: Runtime, entries: seq<(Key, Value)>)
    requires rt.escape("Jack") == "Jack"
    requires entries == [(StrKey("name"), Str("Jack")), (StrKey("email"), Null)]
    requires RenderingProperties.Flat(entries)
    ensures RenderingProperties.PairTexts(rt, entries) == ["`name` = 'Jack'", "`email` = null"]
  {
    var pairs := RenderingProperties.PairTexts(rt, entries);
    NamePair(rt);
    EmailPair(rt);
    assert pairs[0] == "`name` = 'Jack'";
    assert pairs[1] == "`email` = null";
  }

  lemma NamePair(rt: Runtime)
    requires rt.escape("Jack") == "Jack"
    ensures Backticked(KeyText(StrKey("name"))) + " = " + AutoParam(rt, Str("Jack")).value == "`name` = 'Jack'"
  {
    assert AutoParam(rt, Str("Jack")).value == "'" + "Jack" + "'";
    assert "`" + "name" + "`" + " = " + ("'" + "Jack" + "'") == "`name` = 'Jack'";
  }

  lemma EmailPair(rt: Runtime)
    ensures Backticked(KeyText(StrKey("email"))) + " = " + AutoParam(rt, Null).value == "`email` = null"
  {
    assert "`" + "email" + "`" + " = " + "null" == "`email` = null";
  }

  lemma KeyedExpand(rt: Runtime, ps: seq<Part>, params: seq<Value>)
    requires rt.escape("Jack") == "Jack"
    requires ps == [Text("update users set "), Typed(ArrayMark), Text(" where user_id = -1")]
    requires params == [Arr([(StrKey("name"), Str("Jack")), (StrKey("email"), Null)])]
    ensures Expand(rt, params, 0, ps)
      == Ok(Concat(["update users set ", "`name` = 'Jack'", ", ", "`email` = null", " where user_id = -1"]))
  {
    assert ps[3..] == [];
    ExpandFirst(rt, params, 1, ps[2..], " where user_id = -1", "");
    PairsText(rt);
    var pairs := "`name` = 'Jack'" + (", " + "`email` = null");
    ExpandFirst(rt, params, 0, ps[1..], pairs, " where user_id = -1" + "");
    ExpandFirst(rt, params, 0, ps, "update users set ", pairs + (" where user_id = -1" + ""));
    AppendAssoc("`name` = 'Jack'", ", " + "`email` = null", " where user_id = -1" + "");
    AppendAssoc(", ", "`email` = null", " where user_id = -1" + "");
  }

  /** `?#` on a list quotes every name; `?d` on an int and on `true`. */
  lemma UsersPlaceholders(rt: Runtime, skip: Value)
    ensures Parsed(rt, Concat(["select ", "?#", " from users where user_id = ", "?d", " and block = ", "?d"]),
                   [Arr(ListOf([Str("name"), Str("email")])), Int(2), Bool(true)], skip)
      == Ok(Concat(["select ", "`name`, `email`", " from users where user_id = ", "2", " and block = ", "1"]))
  {
    var ps := [Text("select "), Typed(IdentifierMark), Text(" from users where user_id = "),
               Typed(IntMark), Text(" and block = "), Typed(IntMark)];
    var params := [Arr(ListOf([Str("name"), Str("email")])), Int(2), Bool(true)];
    UsersOk(ps);
    UsersSource();
    FlatParsed(rt, ps, params, skip);
    UsersExpand(rt, ps, params);
  }

  lemma UsersSource()
    ensures Source([Text("select "), Typed(IdentifierMark), Text(" from users where user_id = "),
                    Typed(IntMark), Text(" and block = "), Typed(IntMark)])
      == Concat(["select ", "?#", " from users where user_id = ", "?d", " and block = ", "?d"])
  {
  }

  lemma UsersOk(ps: seq<Part>)
    requires ps == [Text("select "), Typed(IdentifierMark), Text(" from users where user_id = "),
                    Typed(IntMark), Text(" and block = "), Typed(IntMark)]
    ensures PartsOk(ps)
  {
    forall k | 0 <= k < |ps| ensures PartOk(ps[k]) {
      if k == 0 {
        assert Ordinary("select ");
      } else if k == 2 {
        assert Ordinary(" from users where user_id = ");
      } else if k == 4 {
        assert Ordinary(" and block = ");
      }
    }
  }

  lemma UsersExpand(rt: Runtime, ps: seq<Part>, params: seq<Value>)
    requires ps == [Text("select "), Typed(IdentifierMark), Text(" from users where user_id = "),
                    Typed(IntMark), Text(" and block = "), Typed(IntMark)]
    requires params == [Arr(ListOf([Str("name"), Str("email")])), Int(2), Bool(true)]
    ensures Expand(rt, params, 0, ps)
      == Ok(Concat(["select ", "`name`, `email`", " from users where user_id = ", "2", " and block = ", "1"]))
  {
    var tail := " from users where user_id = " + ("2" + (" and block = " + ("1" + "")));
    UsersTail(rt, ps[2..], params, tail);
    NamesText(rt);
    TypedPart(rt, params, 0, IdentifierMark, Arr(ListOf([Str("name"), Str("email")])), "`name`, `email`");
    ExpandFirst(rt, params, 0, ps[1..], "`name`, `email`", tail);
    ExpandFirst(rt, params, 0, ps, "select ", "`name`, `email`" + tail);
  }

  lemma UsersTail(rt: Runtime, ps: seq<Part>, params: seq<Value>, tail: string)
    requires ps == [Text(" from users where user_id = "), Typed(IntMark), Text(" and block = "), Typed(IntMark)]
    requires |params| == 3 && params[1] == Int(2) && params[2] == Bool(true)
    requires tail == " from users where user_id = " + ("2" + (" and block = " + ("1" + "")))
    ensures Expand(rt, params, 1, ps) == Ok(tail)
  {
    assert ps[4..] == [];
    assert IntText(1) == "1";
    TypedPart(rt, params, 2, IntMark, Bool(true), "1");
    ExpandFirst(rt, params, 2, ps[3..], "1", "");
    ExpandFirst(rt, params, 2, ps[2..], " and block = ", "1" + "");
    assert IntText(2) == "2";
    TypedPart(rt, params, 1, IntMark, Int(2), "2");
    ExpandFirst(rt, params, 1, ps[1..], "2", " and block = " + ("1" + ""));
    ExpandFirst(rt, params, 1, ps, " from users where user_id = ", "2" + (" and block = " + ("1" + "")));
  }

  lemma NamesText(rt: Runtime)
    ensures IdentifierParam(rt, Arr(ListOf([Str("name"), Str("email")]))) == Ok("`name`, `email`")
  {
    var entries := ListOf([Str("name"), Str("email")]);
    var names := QuotedItems(rt, entries);
    assert names[0] == Backticked("name") == "`name`";
    assert names[1] == Backticked("email") == "`email`";
    assert |names[1..]| == 1 && names[1..][0] == names[1];
    assert Join(", ", names[1..]) == "`email`";
    assert Join(", ", names) == "`name`" + ", " + "`email`";
    assert "`name`" + ", " + "`email`" == "`name`, `email`";
  }

  // ---------------------------------------------------------------------
  // A conditional block, skipped and kept.

  const InParts := [Text("select name from users where "), Typed(IdentifierMark), Text(" in ("),
                    Typed(ArrayMark), Text(")")]
  const GuardParts := [Text(" and block = "), Typed(IntMark)]
  const Guard := Template([Flat(InParts), Block(false, GuardParts, false)], false)

  lemma InSource()
    ensures Source([Text("select name from users where "), Typed(IdentifierMark), Text(" in ("),
                    Typed(ArrayMark), Text(")")])
      == Concat(["select name from users where ", "?#", " in (", "?a", ")"])
  {
  }

  lemma GuardSource()
    ensures Source([Text(" and block = "), Typed(IntMark)]) == Concat([" and block = ", "?d"])
  {
  }

  lemma GuardOk()
    ensures TemplateOk(Guard)
  {
    InOk();
    assert Ordinary(GuardParts[0].text);
    assert PartsOk(GuardParts);
  }

  lemma InOk()
    ensures PartsOk(InParts)
  {
    forall k | 0 <= k < |InParts| ensures PartOk(InParts[k]) {
      if k == 0 {
        assert Ordinary("select name from users where ");
      } else if k == 2 {
        assert Ordinary(" in (");
      } else if k == 4 {
        assert Ordinary(")");
      }
    }
  }

  lemma GuardQuery()
    ensures TemplateSource(Guard)
      == Concat(["select name from users where ", "?#", " in (", "?a", ")", "{", " and block = ", "?d", "}"])
  {
    var a := Flat(InParts);
    var b := Block(false, GuardParts, false);
    TwoSources(a, b);
    InSource();
    GuardSource();
    var qa := ["select name from users where ", "?#", " in (", "?a", ")"];
    var qb := [" and block = ", "?d"];
    Unbraced(qb);
    assert ItemSource(b) == "" + "{" + Concat(qb) + "" + "}";
    assert "" + "{" + Concat(qb) + "" + "}" == "{" + Concat(qb) + "}";
    ConcatAppend(qa, ["{"] + qb + ["}"]);
    assert qa + (["{"] + qb + ["}"])
      == ["select name from users where ", "?#", " in (", "?a", ")", "{", " and block = ", "?d", "}"];
    assert Concat(qa) + (Concat(["{"] + qb + ["}"]) + "") + "" == Concat(qa) + Concat(["{"] + qb + ["}"]);
  }

  lemma IdsText(rt: Runtime)
    ensures ArrayText(rt, Arr(ListOf([Int(1), Int(2), Int(3)]))) == Ok("1, 2, 3")
  {
    var vs := [Int(1), Int(2), Int(3)];
    RenderingProperties.ListRendering(rt, vs);
    var texts := RenderingProperties.AutoTexts(rt, vs);
    assert IntText(1) == "1" && IntText(2) == "2" && IntText(3) == "3";
    assert texts == ["1", "2", "3"];
    assert texts[1..] == ["2", "3"] && texts[1..][1..] == ["3"];
    assert Join(", ", texts[1..]) == "2" + ", " + "3";
    assert Join(", ", texts) == "1" + ", " + ("2" + ", " + "3");
    assert "1" + ", " + ("2" + ", " + "3") == "1, 2, 3";
  }

  lemma UserIdText(rt: Runtime)
    ensures TypedParam(rt, '#', Str("user_id")) == Ok("`user_id`")
  {
    assert Backticked("user_id") == "`user_id`";
  }

  lemma InExpand(rt: Runtime, params: seq<Value>)
    requires |params| == 3 && params[0] == Str("user_id") && params[1] == Arr(ListOf([Int(1), Int(2), Int(3)]))
    ensures Expand(rt, params, 0, InParts)
      == Ok(Concat(["select name from users where ", "`user_id`", " in (", "1, 2, 3", ")"]))
    ensures Uses(InParts) == 2
  {
    var ps := InParts;
    var tail := " in (" + ("1, 2, 3" + (")" + ""));
    InTail(rt, ps[2..], params, tail);
    UserIdText(rt);
    TypedPart(rt, params, 0, IdentifierMark, Str("user_id"), "`user_id`");
    ExpandFirst(rt, params, 0, ps[1..], "`user_id`", tail);
    ExpandFirst(rt, params, 0, ps, "select name from users where ", "`user_id`" + tail);
  }

  lemma InTail(rt: Runtime, ps: seq<Part>, params: seq<Value>, tail: string)
    requires ps == [Text(" in ("), Typed(ArrayMark), Text(")")]
    requires |params| == 3 && params[1] == Arr(ListOf([Int(1), Int(2), Int(3)]))
    requires tail == " in (" + ("1, 2, 3" + (")" + ""))
    ensures Expand(rt, params, 1, ps) == Ok(tail)
  {
    assert ps[3..] == [];
    ExpandFirst(rt, params, 2, ps[2..], ")", "");
    IdsText(rt);
    TypedPart(rt, params, 1, ArrayMark, Arr(ListOf([Int(1), Int(2), Int(3)])), "1, 2, 3");
    ExpandFirst(rt, params, 1, ps[1..], "1, 2, 3", ")" + "");
    ExpandFirst(rt, params, 1, ps, " in (", "1, 2, 3" + (")" + ""));
  }

  lemma GuardExpand(rt: Runtime, params: seq<Value>, block: string)
    requires |params| == 3 && (params[2] == Null || params[2] == Bool(true))
    requires block == (if params[2] == Null then "null" else "1")
    ensures Expand(rt, params, 2, GuardParts) == Ok(Concat([" and block = ", block]))
    ensures Uses(GuardParts) == 1
  {
    var ps := GuardParts;
    assert ps[2..] == [];
    if params[2] == Null {
      assert TypedParam(rt, 'd', params[2]) == Ok("null");
    } else {
      assert IntText(1) == "1";
      assert TypedParam(rt, 'd', params[2]) == Ok("1");
    }
    ExpandFirst(rt, params, 2, ps[1..], block, "");
    ExpandFirst(rt, params, 2, ps, " and block = ", block + "");
    var pieces := [" and block = ", block];
    assert pieces[1..] == [block] && pieces[1..][1..] == [];
    assert Concat(pieces[1..]) == block + "";
    assert Uses(ps[1..]) == 1 + Uses(ps[2..]);
  }

  /** The expected rendering of the guarded query, given the block's. */
  lemma GuardExpected(rt: Runtime, params: seq<Value>, skip: Value, kept: string)
    requires |params| == 3 && params[0] == Str("user_id") && params[1] == Arr(ListOf([Int(1), Int(2), Int(3)]))
    requires params[2] == Null || params[2] == Bool(true)
    requires kept == (if params[2] == skip then "" else Concat([" and block = ", "1"]))
    requires skip == Null
    ensures Expected(rt, Guard, params, skip) == Ok(Concat(["select name from users where ", "`user_id`", " in (", "1, 2, 3", ")"]) + kept)
  {
    var a := Flat(InParts);
    var b := Block(false, GuardParts, false);
    var ta := Concat(["select name from users where ", "`user_id`", " in (", "1, 2, 3", ")"]);
    InExpand(rt, params);
    GuardKept(rt, params, skip, kept);
    TwoItems(rt, params, skip, a, b, ta, "" + kept);
    TwoSources(a, b);
    assert Pending(rt, params, ItemsUses(Guard.items), false) == Ok("");
    Unpadded(ta, kept);
  }

  lemma GuardKept(rt: Runtime, params: seq<Value>, skip: Value, kept: string)
    requires |params| == 3 && (params[2] == Null || params[2] == Bool(true))
    requires kept == (if params[2] == skip then "" else Concat([" and block = ", "1"]))
    requires skip == Null
    ensures ItemText(rt, params, skip, 2, Block(false, GuardParts, false)) == Ok("" + kept)
  {
    var block := if params[2] == Null then "null" else "1";
    GuardExpand(rt, params, block);
    assert params[2..3] == [params[2]];
    assert Pending(rt, params, 3, false) == Ok("");
    assert Concat([" and block = ", block]) + "" == Concat([" and block = ", block]);
    assert Guarded(rt, params, skip, 2, GuardParts, false) == Ok(kept);
  }

  /** A block without a `?` before its `}`: its text shows, or nothing. */
  lemma GuardedWithout(rt: Runtime, params: seq<Value>, skip: Value, k: nat, inner: seq<Part>,
                       upto: nat, body: string, kept: string)
    requires upto == k + Uses(inner) && upto <= |params|
    requires Expand(rt, params, k, inner) == Ok(body)
    requires kept == (if SkipRead(params, skip, k, upto) then "" else body)
    ensures Guarded(rt, params, skip, k, inner, false) == Ok(kept)
  {
    assert Pending(rt, params, upto, false) == Ok("");
    assert upto + Count(false) == upto;
    assert body + "" == body;
  }

  /** The text of a block with a `?` before its `{` and none before its `}`. */
  lemma BracedConcat(a: string, b: string, qi: seq<string>, d: string)
    ensures a + b + Concat(qi) + "" + d == Concat([a, b] + qi + [d])
  {
    ConcatAppend([a, b] + qi, [d]);
    ConcatAppend([a, b], qi);
    assert Concat([d]) == d + "" by { assert [d][1..] == []; }
    assert Concat([a, b]) == a + (b + "") by {
      assert [a, b][1..] == [b];
      assert [b][1..] == [];
    }
    assert b + "" == b && d + "" == d;
    AppendAssoc(a + b, Concat(qi), d);
  }

  lemma ConcatThree(a: string, b: string, c: string)
    ensures Concat([a, b, c]) == a + (b + (c + ""))
  {
    assert Concat([c]) == c + "" by { assert [c][1..] == []; }
    assert Concat([b, c]) == b + Concat([c]) by { assert [b, c][1..] == [c]; }
    assert Concat([a, b, c]) == a + Concat([b, c]) by { assert [a, b, c][1..] == [b, c]; }
  }

  lemma NoPad(s: string)
    ensures s + "" == s
  {
  }

  lemma Unpadded(a: string, b: string)
    ensures a + (("" + b) + "") + "" == a + b
  {
    assert "" + b == b && b + "" == b;
    assert a + b + "" == a + b;
  }

  /** The block reads the skip value (null), so the whole block goes. */
  lemma SkippedBlock(rt: Runtime)
    ensures Parsed(rt, Concat(["select name from users where ", "?#", " in (", "?a", ")", "{", " and block = ", "?d", "}"]),
                   [Str("user_id"), Arr(ListOf([Int(1), Int(2), Int(3)])), Null], Null)
      == Ok(Concat(["select name from users where ", "`user_id`", " in (", "1, 2, 3", ")"]))
  {
    var params := [Str("user_id"), Arr(ListOf([Int(1), Int(2), Int(3)])), Null];
    GuardOk();
    GuardQuery();
    GuardExpected(rt, params, Null, "");
    NoPad(Concat(["select name from users where ", "`user_id`", " in (", "1, 2, 3", ")"]));
    Rendered(rt, Guard, params, Null,
             Concat(["select name from users where ", "?#", " in (", "?a", ")", "{", " and block = ", "?d", "}"]),
             Concat(["select name from users where ", "`user_id`", " in (", "1, 2, 3", ")"]));
  }

  /** The block reads no skip value, so it is kept. */
  lemma KeptBlock(rt: Runtime)
    ensures Parsed(rt, Concat(["select name from users where ", "?#", " in (", "?a", ")", "{", " and block = ", "?d", "}"]),
                   [Str("user_id"), Arr(ListOf([Int(1), Int(2), Int(3)])), Bool(true)], Null)
      == Ok(Concat(["select name from users where ", "`user_id`", " in (", "1, 2, 3", ")", " and block = ", "1"]))
  {
    var params := [Str("user_id"), Arr(ListOf([Int(1), Int(2), Int(3)])), Bool(true)];
    GuardOk();
    GuardQuery();
    GuardExpected(rt, params, Null, Concat([" and block = ", "1"]));
    KeptBlockText();
    Rendered(rt, Guard, params, Null,
             Concat(["select name from users where ", "?#", " in (", "?a", ")", "{", " and block = ", "?d", "}"]),
             Concat(["select name from users where ", "`user_id`", " in (", "1, 2, 3", ")", " and block = ", "1"]));
  }

  lemma KeptBlockText()
    ensures Concat(["select name from users where ", "`user_id`", " in (", "1, 2, 3", ")"]) + Concat([" and block = ", "1"])
      == Concat(["select name from users where ", "`user_id`", " in (", "1, 2, 3", ")", " and block = ", "1"])
  {
    var ra := ["select name from users where ", "`user_id`", " in (", "1, 2, 3", ")"];
    var rb := [" and block = ", "1"];
    ConcatAppend(ra, rb);
    assert ra + rb == ["select name from users where ", "`user_id`", " in (", "1, 2, 3", ")", " and block = ", "1"];
  }

  // ---------------------------------------------------------------------
  // A `?` inside a literal, and a `?` at the very end.

  /** `select * from users where name = '<lit>' and block = ?`. */
  function Quoted(lit: string): Template {
    Template([Flat([Text("select * from users where name = "), Literal(lit), Text(" and block = ")])], true)
  }

  lemma QuotedOk(lit: string)
    requires NoQuotes(lit)
    ensures TemplateOk(Quoted(lit))
  {
    var ps := Quoted(lit).items[0].parts;
    SelectText();
    assert NoQuotes(ps[1].body);
    assert Ordinary(ps[2].text);
    assert PartsOk(ps);
  }

  lemma QuotedSource(lit: string, quoted: string)
    requires quoted == "'" + lit + "'"
    ensures TemplateSource(Quoted(lit)) == Concat(["select * from users where name = ", quoted, " and block = ", "?"])
  {
    var ps := Quoted(lit).items[0].parts;
    var q := ["select * from users where name = ", quoted, " and block = "];
    assert ps[3..] == [];
    assert Source(ps[2..]) == " and block = " + "";
    assert Source(ps[1..]) == quoted + (" and block = " + "");
    ConcatThree("select * from users where name = ", quoted, " and block = ");
    assert Source(ps) == Concat(q);
    assert Quoted(lit).items[1..] == [];
    assert ItemsSource(Quoted(lit).items) == Concat(q) + "";
    NoPad(Concat(q));
    ConcatAppend(q, ["?"]);
    assert Concat(["?"]) == "?" + "";
    assert q + ["?"] == ["select * from users where name = ", quoted, " and block = ", "?"];
  }

  lemma QuotedExpected(rt: Runtime, skip: Value, lit: string, quoted: string)
    requires quoted == "'" + lit + "'"
    ensures Expected(rt, Quoted(lit), [Bool(true)], skip)
      == Ok(Concat(["select * from users where name = ", quoted, " and block = ", "1"]))
  {
    var ps := Quoted(lit).items[0].parts;
    var q := ["select * from users where name = ", quoted, " and block = "];
    assert ps[3..] == [];
    ExpandFirst(rt, [Bool(true)], 0, ps[2..], " and block = ", "");
    ExpandFirst(rt, [Bool(true)], 0, ps[1..], quoted, " and block = " + "");
    ExpandFirst(rt, [Bool(true)], 0, ps, "select * from users where name = ", quoted + (" and block = " + ""));
    ConcatThree("select * from users where name = ", quoted, " and block = ");
    assert Quoted(lit).items[1..] == [];
    assert ItemsText(rt, [Bool(true)], skip, 0, Quoted(lit).items) == Ok(Concat(q) + "");
    NoPad(Concat(q));
    assert ItemsUses(Quoted(lit).items) == 0;
    assert Pending(rt, [Bool(true)], 0, true) == Ok("1");
    ConcatAppend(q, ["1"]);
    assert Concat(["1"]) == "1" + "";
    NoPad("1");
    assert q + ["1"] == ["select * from users where name = ", quoted, " and block = ", "1"];
  }

  /** A literal is copied as it stands, whatever it holds; the `?` at the
      end takes the parameter. */
  lemma QuotedParsed(rt: Runtime, skip: Value, lit: string, quoted: string)
    requires NoQuotes(lit) && quoted == "'" + lit + "'"
    ensures Parsed(rt, Concat(["select * from users where name = ", quoted, " and block = ", "?"]), [Bool(true)], skip)
      == Ok(Concat(["select * from users where name = ", quoted, " and block = ", "1"]))
  {
    QuotedOk(lit);
    QuotedSource(lit, quoted);
    QuotedExpected(rt, skip, lit, quoted);
    Rendered(rt, Quoted(lit), [Bool(true)], skip,
             Concat(["select * from users where name = ", quoted, " and block = ", "?"]),
             Concat(["select * from users where name = ", quoted, " and block = ", "1"]));
  }

  /** A `?` inside a literal is not a placeholder. */
  lemma QuotedMark(rt: Runtime, skip: Value)
    ensures Parsed(rt, Concat(["select * from users where name = ", "'J?ack'", " and block = ", "?"]), [Bool(true)], skip)
      == Ok(Concat(["select * from users where name = ", "'J?ack'", " and block = ", "1"]))
  {
    assert NoQuotes("J?ack");
    assert "'" + "J?ack" + "'" == "'J?ack'";
    QuotedParsed(rt, skip, "J?ack", "'J?ack'");
  }

  /** Neither placeholders nor braces inside a literal mean anything. */
  lemma QuotedBraces(rt: Runtime, skip: Value)
    ensures Parsed(rt, Concat(["select * from users where name = ", "'J ?a {insi ?d e} ck'", " and block = ", "?"]), [Bool(true)], skip)
      == Ok(Concat(["select * from users where name = ", "'J ?a {insi ?d e} ck'", " and block = ", "1"]))
  {
    assert NoQuotes("J ?a {insi ?d e} ck");
    assert "'" + "J ?a {insi ?d e} ck" + "'" == "'J ?a {insi ?d e} ck'";
    QuotedParsed(rt, skip, "J ?a {insi ?d e} ck", "'J ?a {insi ?d e} ck'");
  }

  // ---------------------------------------------------------------------
  // A block opened and closed right after a `?`.

  const SetParts := [Text("update users set "), Typed(ArrayMark), Text(" where user_id = ")]
  const Around := Template([Flat(SetParts), Block(true, [Text(" or email = ")], true)], false)

  lemma SetOk()
    ensures PartsOk(SetParts)
  {
    forall k | 0 <= k < |SetParts| ensures PartOk(SetParts[k]) {
      if k == 0 {
        assert Ordinary("update users set ");
      } else if k == 2 {
        assert Ordinary(" where user_id = ");
      }
    }
  }

  lemma AroundOk()
    ensures TemplateOk(Around)
  {
    SetOk();
    assert Ordinary(" or email = ");
    assert PartsOk([Text(" or email = ")]);
  }

  lemma SetSource()
    ensures Source([Text("update users set "), Typed(ArrayMark), Text(" where user_id = ")])
      == Concat(["update users set ", "?a", " where user_id = "])
  {
  }

  lemma AroundQuery()
    ensures TemplateSource(Around)
      == Concat(["update users set ", "?a", " where user_id = ", "?", "{", " or email = ", "?", "}"])
  {
    var a := Flat(SetParts);
    var b := Block(true, [Text(" or email = ")], true);
    TwoSources(a, b);
    SetSource();
    var qa := ["update users set ", "?a", " where user_id = "];
    var qb := ["?", "{", " or email = ", "?", "}"];
    assert Source([Text(" or email = ")]) == " or email = " + "";
    assert ItemSource(b) == "?" + "{" + (" or email = " + "") + "?" + "}";
    assert "?" + "{" + (" or email = " + "") + "?" + "}" == Concat(qb);
    ConcatAppend(qa, qb);
    assert qa + qb == ["update users set ", "?a", " where user_id = ", "?", "{", " or email = ", "?", "}"];
    assert Concat(qa) + (Concat(qb) + "") + "" == Concat(qa) + Concat(qb);
  }

  lemma SetExpand(rt: Runtime, params: seq<Value>)
    requires rt.escape("Jack") == "Jack"
    requires |params| >= 1 && params[0] == Arr([(StrKey("name"), Str("Jack")), (StrKey("email"), Null)])
    ensures Expand(rt, params, 0, SetParts)
      == Ok(Concat(["update users set ", "`name` = 'Jack'", ", ", "`email` = null", " where user_id = "]))
    ensures Uses(SetParts) == 1
  {
    var ps := SetParts;
    assert ps[3..] == [];
    ExpandFirst(rt, params, 1, ps[2..], " where user_id = ", "");
    PairsText(rt);
    var pairs := "`name` = 'Jack'" + (", " + "`email` = null");
    ExpandFirst(rt, params, 0, ps[1..], pairs, " where user_id = " + "");
    ExpandFirst(rt, params, 0, ps, "update users set ", pairs + (" where user_id = " + ""));
    AppendAssoc("`name` = 'Jack'", ", " + "`email` = null", " where user_id = " + "");
    AppendAssoc(", ", "`email` = null", " where user_id = " + "");
  }

  lemma EmailText(rt: Runtime)
    requires rt.escape("jack@me.com") == "jack@me.com"
    ensures AutoParam(rt, Str("jack@me.com")) == Ok("'jack@me.com'")
  {
    assert "'" + "jack@me.com" + "'" == "'jack@me.com'";
  }

  lemma EmailPieces()
    ensures " or email = " + "" + "'jack@me.com'" == Concat([" or email = ", "'jack@me.com'"])
  {
    NoPad(" or email = ");
    NoPad("'jack@me.com'");
  }

  /** The block, after the `?` in front of it took `2`. */
  lemma AroundKept(rt: Runtime, params: seq<Value>, last: string, kept: string)
    requires rt.escape("jack@me.com") == "jack@me.com"
    requires |params| == 3 && params[1] == Int(2) && (params[2] == Null || params[2] == Str("jack@me.com"))
    requires last == (if params[2] == Null then "null" else "'jack@me.com'")
    requires kept == (if params[2] == Null then "" else Concat([" or email = ", "'jack@me.com'"]))
    ensures ItemText(rt, params, Null, 1, Block(true, [Text(" or email = ")], true)) == Ok("2" + kept)
  {
    assert IntText(2) == "2";
    assert Pending(rt, params, 1, true) == Ok("2");
    var inner := [Text(" or email = ")];
    assert Expand(rt, params, 2, inner) == Ok(" or email = " + "");
    if params[2] != Null {
      EmailText(rt);
      EmailPieces();
    }
    assert Pending(rt, params, 2, true) == Ok(last);
    assert params[2..3] == [params[2]];
    assert Guarded(rt, params, Null, 2, inner, true) == Ok(kept);
  }

  lemma AroundExpected(rt: Runtime, params: seq<Value>, kept: string)
    requires rt.escape("Jack") == "Jack" && rt.escape("jack@me.com") == "jack@me.com"
    requires |params| == 3 && params[0] == Arr([(StrKey("name"), Str("Jack")), (StrKey("email"), Null)])
    requires params[1] == Int(2) && (params[2] == Null || params[2] == Str("jack@me.com"))
    requires kept == (if params[2] == Null then "" else Concat([" or email = ", "'jack@me.com'"]))
    ensures Expected(rt, Around, params, Null)
      == Ok(Concat(["update users set ", "`name` = 'Jack'", ", ", "`email` = null", " where user_id = "]) + ("2" + kept))
  {
    var a := Flat(SetParts);
    var b := Block(true, [Text(" or email = ")], true);
    var ta := Concat(["update users set ", "`name` = 'Jack'", ", ", "`email` = null", " where user_id = "]);
    SetExpand(rt, params);
    AroundKept(rt, params, if params[2] == Null then "null" else "'jack@me.com'", kept);
    TwoItems(rt, params, Null, a, b, ta, "2" + kept);
    TwoSources(a, b);
    assert Pending(rt, params, ItemsUses(Around.items), false) == Ok("");
    NoPad("2" + kept);
    NoPad(ta + ("2" + kept));
  }

  /** The block reads the skip value (null): it goes, and the `?` in front
      of it stays. */
  lemma SkippedAfterMark(rt: Runtime)
    requires rt.escape("Jack") == "Jack" && rt.escape("jack@me.com") == "jack@me.com"
    ensures Parsed(rt, Concat(["update users set ", "?a", " where user_id = ", "?", "{", " or email = ", "?", "}"]),
                   [Arr([(StrKey("name"), Str("Jack")), (StrKey("email"), Null)]), Int(2), Null], Null)
      == Ok(Concat(["update users set ", "`name` = 'Jack'", ", ", "`email` = null", " where user_id = ", "2"]))
  {
    var params := [Arr([(StrKey("name"), Str("Jack")), (StrKey("email"), Null)]), Int(2), Null];
    AroundOk();
    AroundQuery();
    AroundExpected(rt, params, "");
    SkippedAfterMarkText();
    Rendered(rt, Around, params, Null,
             Concat(["update users set ", "?a", " where user_id = ", "?", "{", " or email = ", "?", "}"]),
             Concat(["update users set ", "`name` = 'Jack'", ", ", "`email` = null", " where user_id = ", "2"]));
  }

  /** The block reads no skip value: it is kept, with the value before its
      `}`. */
  lemma KeptAfterMark(rt: Runtime)
    requires rt.escape("Jack") == "Jack" && rt.escape("jack@me.com") == "jack@me.com"
    ensures Parsed(rt, Concat(["update users set ", "?a", " where user_id = ", "?", "{", " or email = ", "?", "}"]),
                   [Arr([(StrKey("name"), Str("Jack")), (StrKey("email"), Null)]), Int(2), Str("jack@me.com")], Null)
      == Ok(Concat(["update users set ", "`name` = 'Jack'", ", ", "`email` = null", " where user_id = ",
                    "2", " or email = ", "'jack@me.com'"]))
  {
    var params := [Arr([(StrKey("name"), Str("Jack")), (StrKey("email"), Null)]), Int(2), Str("jack@me.com")];
    AroundOk();
    AroundQuery();
    var rb := [" or email = ", "'jack@me.com'"];
    AroundExpected(rt, params, Concat(rb));
    KeptAfterMarkText();
    Rendered(rt, Around, params, Null,
             Concat(["update users set ", "?a", " where user_id = ", "?", "{", " or email = ", "?", "}"]),
             Concat(["update users set ", "`name` = 'Jack'", ", ", "`email` = null", " where user_id = ",
                    "2", " or email = ", "'jack@me.com'"]));
  }

  lemma KeptAfterMarkText()
    ensures Concat(["update users set ", "`name` = 'Jack'", ", ", "`email` = null", " where user_id = "])
      + ("2" + Concat([" or email = ", "'jack@me.com'"]))
      == Concat(["update users set ", "`name` = 'Jack'", ", ", "`email` = null", " where user_id = ",
                 "2", " or email = ", "'jack@me.com'"])
  {
    var ra := ["update users set ", "`name` = 'Jack'", ", ", "`email` = null", " where user_id = "];
    var rb := [" or email = ", "'jack@me.com'"];
    ConcatAppend(ra, ["2"] + rb);
    assert Concat(["2"] + rb) == "2" + Concat(rb);
    assert ra + (["2"] + rb) == ["update users set ", "`name` = 'Jack'", ", ", "`email` = null", " where user_id = ",
                                 "2", " or email = ", "'jack@me.com'"];
  }

  // ---------------------------------------------------------------------
  // A block opened right after a `?`, with placeholders inside.

  const BracketInner := [Text(" and (block = "), Hole(' '), Text("or email = "), Hole(')')]
  const Bracket := Template([Flat(SetParts), Block(true, BracketInner, false)], false)

  lemma BracketOk()
    ensures TemplateOk(Bracket)
  {
    SetOk();
    assert Ordinary(" and (block = ");
    assert Ordinary("or email = ");
    assert Ordinary([' ']) && Ordinary([')']);
    assert PartsOk(BracketInner);
  }

  lemma BracketInnerSource()
    ensures Source([Text(" and (block = "), Hole(' '), Text("or email = "), Hole(')')])
      == Concat([" and (block = ", "? ", "or email = ", "?)"])
  {
  }

  lemma BracketBlockSource()
    ensures ItemSource(Block(true, BracketInner, false))
      == Concat(["?", "{", " and (block = ", "? ", "or email = ", "?)", "}"])
  {
    BracketInnerSource();
    var qi := [" and (block = ", "? ", "or email = ", "?)"];
    BracedConcat("?", "{", qi, "}");
    assert ["?", "{"] + qi + ["}"] == ["?", "{", " and (block = ", "? ", "or email = ", "?)", "}"];
  }

  lemma BracketQuery()
    ensures TemplateSource(Bracket)
      == Concat(["update users set ", "?a", " where user_id = ", "?", "{", " and (block = ", "? ", "or email = ", "?)", "}"])
  {
    var a := Flat(SetParts);
    var b := Block(true, BracketInner, false);
    TwoSources(a, b);
    SetSource();
    BracketBlockSource();
    var qa := ["update users set ", "?a", " where user_id = "];
    var qb := ["?", "{", " and (block = ", "? ", "or email = ", "?)", "}"];
    ConcatAppend(qa, qb);
    assert qa + qb == ["update users set ", "?a", " where user_id = ", "?", "{", " and (block = ", "? ", "or email = ", "?)", "}"];
    assert Concat(qa) + (Concat(qb) + "") + "" == Concat(qa) + Concat(qb);
  }

  /** The pieces inside the block, with `1` or `null` for the flag. */
  lemma BracketExpand(rt: Runtime, params: seq<Value>, flag: string)
    requires rt.escape("jack@me.com") == "jack@me.com"
    requires |params| == 4 && (params[2] == Null || params[2] == Bool(true)) && params[3] == Str("jack@me.com")
    requires flag == (if params[2] == Null then "null" else "1")
    ensures Expand(rt, params, 2, BracketInner)
      == Ok(" and (block = " + ((flag + " ") + ("or email = " + ("'jack@me.com')" + ""))))
    ensures Uses(BracketInner) == 2
  {
    var ps := BracketInner;
    assert ps[4..] == [];
    EmailText(rt);
    assert "'jack@me.com'" + [')'] == "'jack@me.com')";
    ExpandFirst(rt, params, 3, ps[3..], "'jack@me.com')", "");
    ExpandFirst(rt, params, 3, ps[2..], "or email = ", "'jack@me.com')" + "");
    assert AutoParam(rt, params[2]) == Ok(flag);
    ExpandFirst(rt, params, 2, ps[1..], flag + " ", "or email = " + ("'jack@me.com')" + ""));
    ExpandFirst(rt, params, 2, ps, " and (block = ", (flag + " ") + ("or email = " + ("'jack@me.com')" + "")));
  }

  lemma BracketPieces()
    ensures " and (block = " + (("1" + " ") + ("or email = " + ("'jack@me.com')" + "")))
      == Concat([" and (block = ", "1 ", "or email = ", "'jack@me.com')"])
  {
    NoPad("'jack@me.com')");
    assert "1" + " " == "1 ";
  }

  /** The block, after the `?` in front of it took `2`. */
  lemma BracketKept(rt: Runtime, params: seq<Value>, kept: string)
    requires rt.escape("jack@me.com") == "jack@me.com"
    requires |params| == 4 && params[1] == Int(2) && (params[2] == Null || params[2] == Bool(true))
    requires params[3] == Str("jack@me.com")
    requires kept == (if params[2] == Null then "" else Concat([" and (block = ", "1 ", "or email = ", "'jack@me.com')"]))
    ensures ItemText(rt, params, Null, 1, Block(true, BracketInner, false)) == Ok("2" + kept)
  {
    assert IntText(2) == "2";
    assert Pending(rt, params, 1, true) == Ok("2");
    BracketGuarded(rt, params, kept);
  }

  lemma BracketGuarded(rt: Runtime, params: seq<Value>, kept: string)
    requires rt.escape("jack@me.com") == "jack@me.com"
    requires |params| == 4 && (params[2] == Null || params[2] == Bool(true)) && params[3] == Str("jack@me.com")
    requires kept == (if params[2] == Null then "" else Concat([" and (block = ", "1 ", "or email = ", "'jack@me.com')"]))
    ensures Guarded(rt, params, Null, 2, BracketInner, false) == Ok(kept)
  {
    if params[2] == Null {
      BracketDropped(rt, params);
    } else {
      BracketShown(rt, params);
    }
  }

  lemma BracketDropped(rt: Runtime, params: seq<Value>)
    requires rt.escape("jack@me.com") == "jack@me.com"
    requires |params| == 4 && params[2] == Null && params[3] == Str("jack@me.com")
    ensures Guarded(rt, params, Null, 2, BracketInner, false) == Ok("")
  {
    BracketExpand(rt, params, "null");
    var body := " and (block = " + (("null" + " ") + ("or email = " + ("'jack@me.com')" + "")));
    assert SkipRead(params, Null, 2, 4);
    GuardedWithout(rt, params, Null, 2, BracketInner, 4, body, "");
  }

  lemma BracketShown(rt: Runtime, params: seq<Value>)
    requires rt.escape("jack@me.com") == "jack@me.com"
    requires |params| == 4 && params[2] == Bool(true) && params[3] == Str("jack@me.com")
    ensures Guarded(rt, params, Null, 2, BracketInner, false)
      == Ok(Concat([" and (block = ", "1 ", "or email = ", "'jack@me.com')"]))
  {
    BracketExpand(rt, params, "1");
    var body := " and (block = " + (("1" + " ") + ("or email = " + ("'jack@me.com')" + "")));
    assert !SkipRead(params, Null, 4, 4);
    assert !SkipRead(params, Null, 3, 4);
    assert !SkipRead(params, Null, 2, 4);
    BracketPieces();
    GuardedWithout(rt, params, Null, 2, BracketInner, 4, body, body);
  }

  lemma BracketExpected(rt: Runtime, params: seq<Value>, kept: string)
    requires rt.escape("Jack") == "Jack" && rt.escape("jack@me.com") == "jack@me.com"
    requires |params| == 4 && params[0] == Arr([(StrKey("name"), Str("Jack")), (StrKey("email"), Null)])
    requires params[1] == Int(2) && (params[2] == Null || params[2] == Bool(true)) && params[3] == Str("jack@me.com")
    requires kept == (if params[2] == Null then "" else Concat([" and (block = ", "1 ", "or email = ", "'jack@me.com')"]))
    ensures Expected(rt, Bracket, params, Null)
      == Ok(Concat(["update users set ", "`name` = 'Jack'", ", ", "`email` = null", " where user_id = "]) + ("2" + kept))
  {
    var a := Flat(SetParts);
    var b := Block(true, BracketInner, false);
    var ta := Concat(["update users set ", "`name` = 'Jack'", ", ", "`email` = null", " where user_id = "]);
    SetExpand(rt, params);
    BracketKept(rt, params, kept);
    TwoItems(rt, params, Null, a, b, ta, "2" + kept);
    TwoSources(a, b);
    assert Pending(rt, params, ItemsUses(Bracket.items), false) == Ok("");
    NoPad("2" + kept);
    NoPad(ta + ("2" + kept));
  }

  /** The block reads the skip value (null): it goes, and the `?` in front
      of it stays. */
  lemma BracketSkipped(rt: Runtime)
    requires rt.escape("Jack") == "Jack" && rt.escape("jack@me.com") == "jack@me.com"
    ensures Parsed(rt, Concat(["update users set ", "?a", " where user_id = ", "?", "{", " and (block = ", "? ", "or email = ", "?)", "}"]),
                   [Arr([(StrKey("name"), Str("Jack")), (StrKey("email"), Null)]), Int(2), Null, Str("jack@me.com")], Null)
      == Ok(Concat(["update users set ", "`name` = 'Jack'", ", ", "`email` = null", " where user_id = ", "2"]))
  {
    var params := [Arr([(StrKey("name"), Str("Jack")), (StrKey("email"), Null)]), Int(2), Null, Str("jack@me.com")];
    BracketOk();
    BracketQuery();
    BracketExpected(rt, params, "");
    SkippedAfterMarkText();
    Rendered(rt, Bracket, params, Null,
             Concat(["update users set ", "?a", " where user_id = ", "?", "{", " and (block = ", "? ", "or email = ", "?)", "}"]),
             Concat(["update users set ", "`name` = 'Jack'", ", ", "`email` = null", " where user_id = ", "2"]));
  }

  lemma SkippedAfterMarkText()
    ensures Concat(["update users set ", "`name` = 'Jack'", ", ", "`email` = null", " where user_id = "]) + ("2" + "")
      == Concat(["update users set ", "`name` = 'Jack'", ", ", "`email` = null", " where user_id = ", "2"])
  {
    var ra := ["update users set ", "`name` = 'Jack'", ", ", "`email` = null", " where user_id = "];
    NoPad("2");
    ConcatAppend(ra, ["2"]);
    assert Concat(["2"]) == "2" + "";
    assert ra + ["2"] == ["update users set ", "`name` = 'Jack'", ", ", "`email` = null", " where user_id = ", "2"];
  }

  /** The block reads no skip value: it is kept, placeholders filled. */
  lemma BracketKeptCase(rt: Runtime)
    requires rt.escape("Jack") == "Jack" && rt.escape("jack@me.com") == "jack@me.com"
    ensures Parsed(rt, Concat(["update users set ", "?a", " where user_id = ", "?", "{", " and (block = ", "? ", "or email = ", "?)", "}"]),
                   [Arr([(StrKey("name"), Str("Jack")), (StrKey("email"), Null)]), Int(2), Bool(true), Str("jack@me.com")], Null)
      == Ok(Concat(["update users set ", "`name` = 'Jack'", ", ", "`email` = null", " where user_id = ",
                    "2", " and (block = ", "1 ", "or email = ", "'jack@me.com')"]))
  {
    var params := [Arr([(StrKey("name"), Str("Jack")), (StrKey("email"), Null)]), Int(2), Bool(true), Str("jack@me.com")];
    BracketOk();
    BracketQuery();
    BracketExpected(rt, params, Concat([" and (block = ", "1 ", "or email = ", "'jack@me.com')"]));
    BracketKeptText();
    Rendered(rt, Bracket, params, Null,
             Concat(["update users set ", "?a", " where user_id = ", "?", "{", " and (block = ", "? ", "or email = ", "?)", "}"]),
             Concat(["update users set ", "`name` = 'Jack'", ", ", "`email` = null", " where user_id = ",
                    "2", " and (block = ", "1 ", "or email = ", "'jack@me.com')"]));
  }

  lemma BracketKeptText()
    ensures Concat(["update users set ", "`name` = 'Jack'", ", ", "`email` = null", " where user_id = "])
      + ("2" + Concat([" and (block = ", "1 ", "or email = ", "'jack@me.com')"]))
      == Concat(["update users set ", "`name` = 'Jack'", ", ", "`email` = null", " where user_id = ",
                 "2", " and (block = ", "1 ", "or email = ", "'jack@me.com')"])
  {
    var ra := ["update users set ", "`name` = 'Jack'", ", ", "`email` = null", " where user_id = "];
    var rb := [" and (block = ", "1 ", "or email = ", "'jack@me.com')"];
    ConcatAppend(ra, ["2"] + rb);
    assert Concat(["2"] + rb) == "2" + Concat(rb);
    assert ra + (["2"] + rb) == ["update users set ", "`name` = 'Jack'", ", ", "`email` = null", " where user_id = ",
                                 "2", " and (block = ", "1 ", "or email = ", "'jack@me.com')"];
  }
}
