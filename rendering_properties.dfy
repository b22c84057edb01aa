/** What the rendering helpers promise: the shape of an `?a` rendering, and
    that an `?#` rendering can be read back into the names it quotes. */
module RenderingProperties {
  import opened PhpValues
  import opened QueryParser

  // ---------------------------------------------------------------------
  // `?a`.

  /** No entry holds a nested array, so every entry can be rendered. */
  predicate Flat(entries: seq<(Key, Value)>) {
    forall k :: 0 <= k < |entries| ==> !entries[k].1.Arr?
  }

  /** The piece of every entry of a flat array. */
  function PieceTexts(rt: Runtime, entries: seq<(Key, Value)>, keyed: bool): (r: seq<string>)
    requires Flat(entries)
    ensures |r| == |entries|
    ensures forall k :: 0 <= k < |entries| ==> r[k] == Piece(rt, entries[k], keyed).value
  {
    seq(|entries|, k requires 0 <= k < |entries| => Piece(rt, entries[k], keyed).value)
  }

  /** The rendering of a flat array is its entries' pieces, one per entry
      and in iteration order. */
  lemma {:induction false} PiecesRendering(rt: Runtime, entries: seq<(Key, Value)>, keyed: bool)
    requires Flat(entries)
    ensures Pieces(rt, entries, keyed) == Ok(PieceTexts(rt, entries, keyed))
  {
    if |entries| > 0 {
      var tail := entries[1..];
      assert Flat(tail) by {
        forall k | 0 <= k < |tail| ensures !tail[k].1.Arr? {
          assert tail[k] == entries[k + 1];
        }
      }
      PiecesRendering(rt, tail, keyed);
      var first := Piece(rt, entries[0], keyed);
      assert first.Ok?;
      var all := PieceTexts(rt, entries, keyed);
      var rest := PieceTexts(rt, tail, keyed);
      assert all == [first.value] + rest by {
        forall k | 1 <= k < |entries| ensures all[k] == rest[k - 1] {
          assert tail[k - 1] == entries[k];
        }
      }
    }
  }

  /** The `autoParam` rendering of every value of a list of scalars. */
  function AutoTexts(rt: Runtime, vs: seq<Value>): (r: seq<string>)
    requires forall k :: 0 <= k < |vs| ==> !vs[k].Arr?
    ensures |r| == |vs|
    ensures forall k :: 0 <= k < |vs| ==> r[k] == AutoParam(rt, vs[k]).value
  {
    seq(|vs|, k requires 0 <= k < |vs| => AutoParam(rt, vs[k]).value)
  }

  /** `?a` on a list of scalars: their `autoParam` renderings joined by ", ". */
  lemma ListRendering(rt: Runtime, vs: seq<Value>)
    requires forall k :: 0 <= k < |vs| ==> !vs[k].Arr?
    ensures ArrayText(rt, Arr(ListOf(vs))) == Ok(Join(", ", AutoTexts(rt, vs)))
  {
    var entries := ListOf(vs);
    PiecesRendering(rt, entries, false);
    assert PieceTexts(rt, entries, false) == AutoTexts(rt, vs);
  }

  /** `` `key` = value `` for every entry of a flat keyed array. */
  function PairTexts(rt: Runtime, entries: seq<(Key, Value)>): (r: seq<string>)
    requires Flat(entries)
    ensures |r| == |entries|
    ensures forall k :: 0 <= k < |entries| ==>
      r[k] == Backticked(KeyText(entries[k].0)) + " = " + AutoParam(rt, entries[k].1).value
  {
    seq(|entries|, k requires 0 <= k < |entries| =>
      Backticked(KeyText(entries[k].0)) + " = " + AutoParam(rt, entries[k].1).value)
  }

  /** `?a` on a keyed array of scalars: `` `key` = value `` for every entry,
      in iteration order, joined by ", ". */
  lemma KeyedRendering(rt: Runtime, entries: seq<(Key, Value)>)
    requires !IsList(entries) && Flat(entries)
    ensures ArrayText(rt, Arr(entries)) == Ok(Join(", ", PairTexts(rt, entries)))
  {
    PiecesRendering(rt, entries, true);
    assert PieceTexts(rt, entries, true) == PairTexts(rt, entries);
  }

  // ---------------------------------------------------------------------
  // `?#`: reading a rendering back.

  /** A name that contains no backtick. */
  predicate PlainName(name: string) {
    forall i :: 0 <= i < |name| ==> name[i] != '`'
  }

  /** Every name wrapped in backticks. */
  function BacktickedAll(names: seq<string>): (r: seq<string>)
    ensures |r| == |names|
    ensures forall k :: 0 <= k < |names| ==> r[k] == Backticked(names[k])
  {
    seq(|names|, k requires 0 <= k < |names| => Backticked(names[k]))
  }

  /** The first backtick at or after `from`, or `|s|` when there is none. */
  function TickAt(s: string, from: nat): (j: nat)
    requires from <= |s|
    ensures from <= j <= |s|
    ensures j < |s| ==> s[j] == '`'
    ensures forall i :: from <= i < j ==> s[i] != '`'
    decreases |s| - from
  {
    if from == |s| || s[from] == '`' then from else TickAt(s, from + 1)
  }

  /** Reads a list of backticked names separated by ", "; None when the text
      is not one. */
  function ReadIdentifiers(s: string): Option<seq<string>>
    decreases |s|
  {
    if |s| == 0 || s[0] != '`' then None
    else
      var close := TickAt(s, 1);
      if close == |s| then None
      else
        var name := s[1..close];
        var rest := s[close + 1..];
        if |rest| == 0 then Some([name])
        else if |rest| >= 2 && rest[0] == ',' && rest[1] == ' ' then
          match ReadIdentifiers(rest[2..])
          case None => None
          case Some(more) => Some([name] + more)
        else None
  }

  lemma TickAtFirst(s: string, name: string, rest: string)
    requires PlainName(name) && s == "`" + name + "`" + rest
    ensures TickAt(s, 1) == |name| + 1
  {
    TickAtReaches(s, 1, |name| + 1);
  }

  lemma {:induction false} TickAtReaches(s: string, from: nat, j: nat)
    requires from <= j < |s| && s[j] == '`'
    requires forall i :: from <= i < j ==> s[i] != '`'
    ensures TickAt(s, from) == j
    decreases j - from
  {
    if from < j {
      TickAtReaches(s, from + 1, j);
    }
  }

  /** The last name of a list. */
  lemma ReadLast(name: string)
    requires PlainName(name)
    ensures ReadIdentifiers(Backticked(name)) == Some([name])
  {
    var s := Backticked(name);
    assert s == "`" + name + "`" + "";
    TickAtFirst(s, name, "");
    assert s[1..|name| + 1] == name;
  }

  /** A name followed by ", " and more text. */
  lemma ReadNext(name: string, more: string)
    requires PlainName(name)
    ensures ReadIdentifiers(Backticked(name) + ", " + more) ==
      match ReadIdentifiers(more)
      case None => None
      case Some(names) => Some([name] + names)
  {
    var s := Backticked(name) + ", " + more;
    var tail := ", " + more;
    assert s == "`" + name + "`" + tail;
    TickAtFirst(s, name, tail);
    assert s[1..|name| + 1] == name;
    assert s[|name| + 2..] == tail;
    assert tail[2..] == more;
  }

  /** The backticked names, joined by ", ", read back as the names. */
  lemma {:induction false} ReadJoinedNames(names: seq<string>)
    requires |names| > 0
    requires forall k :: 0 <= k < |names| ==> PlainName(names[k])
    ensures ReadIdentifiers(Join(", ", BacktickedAll(names))) == Some(names)
  {
    var parts := BacktickedAll(names);
    if |names| == 1 {
      assert Join(", ", parts) == Backticked(names[0]);
      ReadLast(names[0]);
      assert names == [names[0]];
    } else {
      var more := names[1..];
      var moreParts := BacktickedAll(more);
      assert parts[1..] == moreParts;
      ReadJoinedNames(more);
      ReadNext(names[0], Join(", ", moreParts));
      assert names == [names[0]] + more;
    }
  }

  /** `?#` on a scalar: the backticked text reads back as the text. */
  lemma IdentifierRoundTrip(rt: Runtime, v: Value)
    requires !v.Null? && !v.Arr? && PlainName(PhpString(rt, v))
    ensures ReadIdentifiers(IdentifierParam(rt, v).value) == Some([PhpString(rt, v)])
  {
    ReadJoinedNames([PhpString(rt, v)]);
  }

  /** The items of an array, each converted to a string. */
  function ItemNames(rt: Runtime, entries: seq<(Key, Value)>): (r: seq<string>)
    ensures |r| == |entries|
    ensures forall k :: 0 <= k < |entries| ==> r[k] == PhpString(rt, entries[k].1)
  {
    seq(|entries|, k requires 0 <= k < |entries| => PhpString(rt, entries[k].1))
  }

  /** `?#` on a non-empty array: the rendering reads back as the items, each
      converted to a string, in iteration order. */
  lemma IdentifierListRoundTrip(rt: Runtime, entries: seq<(Key, Value)>)
    requires |entries| > 0
    requires forall k :: 0 <= k < |entries| ==> PlainName(PhpString(rt, entries[k].1))
    ensures ReadIdentifiers(IdentifierParam(rt, Arr(entries)).value) == Some(ItemNames(rt, entries))
  {
    var names := ItemNames(rt, entries);
    ReadJoinedNames(names);
    assert QuotedItems(rt, entries) == BacktickedAll(names);
  }

  /** `identifierParam` does not escape backticks: a name that contains one
      ends the quoted identifier early, and the rendering no longer reads
      back as a list of names. */
  lemma BacktickInName(rt: Runtime)
    ensures IdentifierParam(rt, Str("a`b")).value == "`a`b`"
    ensures ReadIdentifiers(IdentifierParam(rt, Str("a`b")).value) == None
  {
    var s := "`a`b`";
    TickAtReaches(s, 1, 2);
    assert s[3..] == "b`";
  }
}
