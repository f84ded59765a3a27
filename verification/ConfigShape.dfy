/** What blocks the configuration parser accepts, and what becomes of their lines. */
module ConfigShape {
  import opened ConfigParser
  import opened Strings

  // ----- the block that is collected -----

  function KeyOf(kind: LineKind): set<string> {
    match kind
    case EntryLine(key, _) => {key}
    case Opener(key) => {key}
    case _ => {}
  }

  /** Everything an accepted block has collected, before the list wins over the mapping. */
  function Collected(tokens: seq<Token>, i: nat, indent: nat, b: Block): (c: Block)
    requires i <= |tokens| && ParseFrom(tokens, i, indent, b).Ok?
    ensures ParseFrom(tokens, i, indent, b).value == Finish(c)
    decreases |tokens| - i
  {
    if i == |tokens| || tokens[i].indent < indent then b
    else
      match tokens[i].kind
      case ItemLine(value) => Collected(tokens, i + 1, indent, WithItem(b, value))
      case EntryLine(key, value) => Collected(tokens, i + 1, indent, WithEntry(b, key, value))
      case Opener(key) =>
        var child := Child(tokens, i + 1, indent);
        Collected(tokens, child.next, indent, WithEntry(b, key, child.value))
  }

  /** The next line of the block itself, after the line at i and whatever is nested below it. */
  lemma NextInBlock(tokens: seq<Token>, i: nat, indent: nat, b: Block) returns (j: nat, next: Block)
    requires i < |tokens| && tokens[i].indent >= indent && ParseFrom(tokens, i, indent, b).Ok?
    ensures tokens[i].indent == indent && !tokens[i].kind.Malformed?
    ensures i < j <= |tokens| && ParseFrom(tokens, i, indent, b) == ParseFrom(tokens, j, indent, next)
    ensures Collected(tokens, i, indent, b) == Collected(tokens, j, indent, next)
    ensures next.isSequence == (b.isSequence || tokens[i].kind.ItemLine?)
    ensures next.mapping.Keys == b.mapping.Keys + KeyOf(tokens[i].kind)
    ensures i + 1 < j ==>
      tokens[i].kind.Opener? && tokens[i + 1].indent > indent
      && ParseFrom(tokens, i + 1, tokens[i + 1].indent, EMPTY).Ok?
      && ParseFrom(tokens, i + 1, tokens[i + 1].indent, EMPTY).next == j
  {
    match tokens[i].kind {
      case ItemLine(value) => j, next := i + 1, WithItem(b, value);
      case EntryLine(key, value) => j, next := i + 1, WithEntry(b, key, value);
      case Opener(key) =>
        var child := Child(tokens, i + 1, indent);
        j, next := child.next, WithEntry(b, key, child.value);
    }
  }

  /** Every deeper indentation inside an accepted block was opened by a `key:` line just before it, and no line
      of the block is shallower than its first. */
  lemma {:induction false} DeeperMeansOpened(tokens: seq<Token>, i: nat, indent: nat, b: Block, k: nat)
    requires i <= |tokens| && ParseFrom(tokens, i, indent, b).Ok? && i <= k < ParseFrom(tokens, i, indent, b).next
    ensures tokens[i].indent == indent <= tokens[k].indent
    ensures i < k && tokens[k].indent > tokens[k - 1].indent ==> tokens[k - 1].kind.Opener?
    decreases |tokens| - i
  {
    if i < k {
      var j, next := NextInBlock(tokens, i, indent, b);
      if k < j {
        DeeperMeansOpened(tokens, i + 1, tokens[i + 1].indent, EMPTY, k);
      } else {
        DeeperMeansOpened(tokens, j, indent, next, k);
        if i + 1 < j {
          DeeperMeansOpened(tokens, i + 1, tokens[i + 1].indent, EMPTY, j - 1);
        }
      }
    }
  }

  // ----- lists, mappings, and blocks that mix both -----

  /** A line of the block itself: one that stands at its indent. */
  predicate Own(tokens: seq<Token>, i: nat, end: nat, indent: nat, k: int) {
    i <= k < end && k < |tokens| && tokens[k].indent == indent
  }

  ghost predicate OwnItem(tokens: seq<Token>, i: nat, end: nat, indent: nat) {
    exists k :: Own(tokens, i, end, indent, k) && tokens[k].kind.ItemLine?
  }

  ghost predicate OwnKey(tokens: seq<Token>, i: nat, end: nat, indent: nat, key: string) {
    exists k :: Own(tokens, i, end, indent, k) && key in KeyOf(tokens[k].kind)
  }

  lemma OwnLines(tokens: seq<Token>, i: nat, indent: nat, b: Block, j: nat, next: Block, k: int)
    requires i < |tokens| && tokens[i].indent == indent && ParseFrom(tokens, i, indent, b).Ok? && i < j <= |tokens|
    requires ParseFrom(tokens, i, indent, b) == ParseFrom(tokens, j, indent, next)
    requires i + 1 < j ==>
      tokens[i + 1].indent > indent && ParseFrom(tokens, i + 1, tokens[i + 1].indent, EMPTY).Ok?
      && ParseFrom(tokens, i + 1, tokens[i + 1].indent, EMPTY).next == j
    ensures Own(tokens, i, ParseFrom(tokens, i, indent, b).next, indent, k)
      <==> k == i || Own(tokens, j, ParseFrom(tokens, i, indent, b).next, indent, k)
  {
    if i < k < j {
      DeeperMeansOpened(tokens, i + 1, tokens[i + 1].indent, EMPTY, k);
    }
  }

  /** What is collected: a sequence exactly if one of the block's own lines is an item, and exactly the keys of its own
      lines, on top of what was there before. */
  lemma {:induction false} CollectedContents(tokens: seq<Token>, i: nat, indent: nat, b: Block)
    requires i <= |tokens| && ParseFrom(tokens, i, indent, b).Ok?
    ensures var end, c := ParseFrom(tokens, i, indent, b).next, Collected(tokens, i, indent, b);
      && (c.isSequence <==> b.isSequence || OwnItem(tokens, i, end, indent))
      && forall key :: key in c.mapping <==> key in b.mapping || OwnKey(tokens, i, end, indent, key)
    decreases |tokens| - i
  {
    if i < |tokens| && tokens[i].indent >= indent {
      var j, next := NextInBlock(tokens, i, indent, b);
      CollectedContents(tokens, j, indent, next);
      var end := ParseFrom(tokens, i, indent, b).next;
      forall k
        ensures Own(tokens, i, end, indent, k) <==> k == i || Own(tokens, j, end, indent, k)
      {
        OwnLines(tokens, i, indent, b, j, next, k);
      }
      assert Own(tokens, i, end, indent, i);
      assert forall key :: key in next.mapping.Keys <==> key in b.mapping.Keys || key in KeyOf(tokens[i].kind);
    }
  }

  /** An accepted block is a list exactly when an item stands among its own lines; otherwise it is a mapping with
      exactly the keys of its own lines. So keys are dropped, not rejected, exactly when both kinds occur. */
  lemma MixedBlocks(tokens: seq<Token>, i: nat, indent: nat)
    requires i <= |tokens| && ParseFrom(tokens, i, indent, EMPTY).Ok?
    ensures var r := ParseFrom(tokens, i, indent, EMPTY);
      && (r.value.List? <==> OwnItem(tokens, i, r.next, indent))
      && (r.value.Mapping? ==> forall key :: key in r.value.entries <==> OwnKey(tokens, i, r.next, indent, key))
      && (r.value.List? && Collected(tokens, i, indent, EMPTY).mapping != map[] <==>
            OwnItem(tokens, i, r.next, indent) && exists key :: OwnKey(tokens, i, r.next, indent, key))
  {
    CollectedContents(tokens, i, indent, EMPTY);
    var c := Collected(tokens, i, indent, EMPTY);
    assert c.mapping == map[] <==> forall key :: key !in c.mapping;
  }

  /** A mixed block that is accepted: of its two lines only the item is left, and as a whole document it is empty. */
  lemma MixedBlockAccepted()
    ensures var lines := [Line(0, "a: 1", 1), Line(0, "- x", 2)];
      && ParseFrom(Tokens(lines), 0, 0, EMPTY) == Ok(List([Text("x")]), 2)
      && Document(lines) == Ok(Mapping(map[]), 2)
  {
    var lines := [Line(0, "a: 1", 1), Line(0, "- x", 2)];
    KeyText();
    ItemText();
    assert Tokens(lines) == [Token(0, EntryLine("a", Text("1")), 1), Token(0, ItemLine(Text("x")), 2)];
    TwoLines(Tokens(lines), "a", Text("1"), Text("x"));
  }

  lemma KeyText()
    ensures Classify("a: 1") == EntryLine("a", Text("1"))
  {
    SpacedValue("a", "1", Text("1"));
    assert "a" + ": " + "1" == "a: 1";
  }

  lemma ItemText()
    ensures Classify("- x") == ItemLine(Text("x"))
  {
    assert "- x"[2..] == "x";
    assert Trim("x") == "x";
  }

  lemma TwoLines(tokens: seq<Token>, key: string, value: Yaml, item: Yaml)
    requires tokens == [Token(0, EntryLine(key, value), 1), Token(0, ItemLine(item), 2)]
    ensures ParseFrom(tokens, 0, 0, EMPTY) == Ok(List([item]), 2)
  {
    var b := WithEntry(EMPTY, key, value);
    assert ParseFrom(tokens, 2, 0, WithItem(b, item)) == Ok(List([item]), 2) by {
      assert [] + [item] == [item];
    }
    assert ParseFrom(tokens, 1, 0, b) == ParseFrom(tokens, 2, 0, WithItem(b, item));
    assert ParseFrom(tokens, 0, 0, EMPTY) == ParseFrom(tokens, 1, 0, b);
  }

  // ----- exactly which lines are accepted -----

  /** An earlier line m at the indent of line k whose block is still open there. */
  predicate Level(tokens: seq<Token>, i: nat, m: int, k: int) {
    && 0 <= i <= m < k < |tokens| && tokens[m].indent == tokens[k].indent
    && forall l :: m < l < k ==> tokens[l].indent >= tokens[k].indent
  }

  /** Line k can be read where it stands: it says something, and it is the first line, opens a block below an opener,
      or continues a block that is still open. */
  ghost predicate Placed(tokens: seq<Token>, i: nat, k: int) {
    && 0 <= i <= k < |tokens| && !tokens[k].kind.Malformed?
    && (k == i
        || (tokens[k - 1].kind.Opener? && tokens[k - 1].indent < tokens[k].indent)
        || exists m :: Level(tokens, i, m, k))
  }

  /** The block at i reaches up to the first line that is shallower than it. */
  ghost predicate Reaches(tokens: seq<Token>, i: nat, indent: nat, end: nat) {
    && i <= end <= |tokens| && (forall k :: i <= k < end ==> tokens[k].indent >= indent)
    && (end < |tokens| ==> tokens[end].indent < indent)
  }

  ghost predicate AllPlaced(tokens: seq<Token>, i: nat, end: nat) {
    forall k :: i <= k < end ==> Placed(tokens, i, k)
  }

  lemma AcceptedReaches(tokens: seq<Token>, i: nat, indent: nat, b: Block)
    requires i <= |tokens| && ParseFrom(tokens, i, indent, b).Ok?
    ensures Reaches(tokens, i, indent, ParseFrom(tokens, i, indent, b).next)
  {
    forall k | i <= k < ParseFrom(tokens, i, indent, b).next
      ensures tokens[k].indent >= indent
    {
      DeeperMeansOpened(tokens, i, indent, b, k);
    }
  }

  lemma OneEnd(tokens: seq<Token>, i: nat, indent: nat, end: nat, other: nat)
    requires Reaches(tokens, i, indent, end) && Reaches(tokens, i, indent, other)
    ensures end == other
  {
  }

  /** In an accepted block every line is placed. */
  lemma {:induction false} AcceptedPlaced(tokens: seq<Token>, i: nat, indent: nat, b: Block, k: nat)
    requires i <= |tokens| && ParseFrom(tokens, i, indent, b).Ok? && i <= k < ParseFrom(tokens, i, indent, b).next
    ensures Placed(tokens, i, k)
    decreases |tokens| - i
  {
    var j, next := NextInBlock(tokens, i, indent, b);
    if i < k < j {
      AcceptedPlaced(tokens, i + 1, tokens[i + 1].indent, EMPTY, k);
      PlacedEarlier(tokens, i, i + 1, k);
    } else if j <= k {
      AcceptedPlaced(tokens, j, indent, next, k);
      DeeperMeansOpened(tokens, i, indent, b, j);
      DeeperMeansOpened(tokens, j, indent, next, j);
      if k == j {
        NestedIsDeeper(tokens, i, j);
        assert Level(tokens, i, i, j);
      } else {
        PlacedEarlier(tokens, i, j, k);
      }
    }
  }

  lemma NestedIsDeeper(tokens: seq<Token>, i: nat, j: nat)
    requires i < j <= |tokens|
    requires i + 1 < j ==>
      tokens[i + 1].indent > tokens[i].indent && ParseFrom(tokens, i + 1, tokens[i + 1].indent, EMPTY).Ok?
      && ParseFrom(tokens, i + 1, tokens[i + 1].indent, EMPTY).next == j
    ensures forall l :: i < l < j ==> tokens[l].indent > tokens[i].indent
  {
    forall l | i < l < j
      ensures tokens[l].indent > tokens[i].indent
    {
      DeeperMeansOpened(tokens, i + 1, tokens[i + 1].indent, EMPTY, l);
    }
  }

  lemma PlacedEarlier(tokens: seq<Token>, i: nat, j: nat, k: nat)
    requires i < j <= k && Placed(tokens, j, k)
    requires k == j ==> tokens[k - 1].kind.Opener? && tokens[k - 1].indent < tokens[k].indent
    ensures Placed(tokens, i, k)
  {
    if m :| Level(tokens, j, m, k) {
      assert Level(tokens, i, m, k);
    }
  }

  /** Placement carries over to the next own line of a block. */
  lemma PlacedLater(tokens: seq<Token>, i: nat, j: nat, k: nat)
    requires i < j <= k && Placed(tokens, i, k) && tokens[i].indent == tokens[j].indent <= tokens[k].indent
    requires forall l :: i < l < j ==> tokens[l].indent > tokens[i].indent
    ensures Placed(tokens, j, k)
  {
    if m :| Level(tokens, i, m, k) {
      if j <= m {
        assert Level(tokens, j, m, k);
      } else if j < k {
        assert Level(tokens, j, j, k);
      }
    }
  }

  /** Placement carries over to a nested block. */
  lemma PlacedNested(tokens: seq<Token>, i: nat, k: nat)
    requires i < k && Placed(tokens, i, k) && tokens[i].indent < tokens[k].indent
    ensures Placed(tokens, i + 1, k)
  {
    if m :| Level(tokens, i, m, k) {
      assert Level(tokens, i + 1, m, k);
    }
  }

  function EndOf(tokens: seq<Token>, i: nat, indent: nat): (end: nat)
    requires i <= |tokens|
    ensures Reaches(tokens, i, indent, end)
    decreases |tokens| - i
  {
    if i == |tokens| || tokens[i].indent < indent then i else EndOf(tokens, i + 1, indent)
  }

  /** A block whose lines are all placed is accepted. */
  lemma {:induction false} PlacedAccepted(tokens: seq<Token>, i: nat, indent: nat, b: Block, end: nat)
    requires i < |tokens| && tokens[i].indent == indent && Reaches(tokens, i, indent, end) && AllPlaced(tokens, i, end)
    ensures ParseFrom(tokens, i, indent, b).Ok? && ParseFrom(tokens, i, indent, b).next == end
    decreases |tokens| - i, 0
  {
    assert i < end && Placed(tokens, i, i);
    match tokens[i].kind {
      case ItemLine(value) =>
        AfterFlatLine(tokens, i, indent, end);
        FlatRest(tokens, i, indent, WithItem(b, value), end);
      case EntryLine(key, value) =>
        AfterFlatLine(tokens, i, indent, end);
        FlatRest(tokens, i, indent, WithEntry(b, key, value), end);
      case Opener(key) =>
        if i + 1 < |tokens| && tokens[i + 1].indent > indent {
          var inner, j := tokens[i + 1].indent, EndOf(tokens, i + 1, tokens[i + 1].indent);
          NestedPlaced(tokens, i, indent, end, j);
          PlacedAccepted(tokens, i + 1, inner, EMPTY, j);
          var child := Child(tokens, i + 1, indent);
          RestAccepted(tokens, i, j, indent, WithEntry(b, key, child.value), end);
        } else {
          AfterFlatLine(tokens, i, indent, end);
          FlatRest(tokens, i, indent, WithEntry(b, key, Mapping(map[])), end);
        }
    }
  }

  lemma {:induction false} FlatRest(tokens: seq<Token>, i: nat, indent: nat, b: Block, end: nat)
    requires i < end && Reaches(tokens, i, indent, end) && tokens[i].indent == indent && AllPlaced(tokens, i, end)
    requires i + 1 < end ==> tokens[i + 1].indent == indent
    ensures ParseFrom(tokens, i + 1, indent, b).Ok? && ParseFrom(tokens, i + 1, indent, b).next == end
    decreases |tokens| - i - 1, 2
  {
    RestAccepted(tokens, i, i + 1, indent, b, end);
  }

  /** The rest of a block from its next own line on. */
  lemma {:induction false} RestAccepted(tokens: seq<Token>, i: nat, j: nat, indent: nat, b: Block, end: nat)
    requires i < j <= end && Reaches(tokens, i, indent, end) && tokens[i].indent == indent && AllPlaced(tokens, i, end)
    requires j < end ==> tokens[j].indent == indent
    requires forall l :: i < l < j ==> tokens[l].indent > indent
    ensures ParseFrom(tokens, j, indent, b).Ok? && ParseFrom(tokens, j, indent, b).next == end
    decreases |tokens| - j, 1
  {
    if j < end {
      forall k | j <= k < end
        ensures Placed(tokens, j, k)
      {
        assert Placed(tokens, i, k);
        PlacedLater(tokens, i, j, k);
      }
      PlacedAccepted(tokens, j, indent, b, end);
    }
  }

  /** After a line that opens nothing, or nothing deeper, the block goes on at its own indent or ends. */
  lemma AfterFlatLine(tokens: seq<Token>, i: nat, indent: nat, end: nat)
    requires i < end && Reaches(tokens, i, indent, end) && tokens[i].indent == indent && AllPlaced(tokens, i, end)
    requires tokens[i].kind.Opener? && i + 1 < |tokens| ==> tokens[i + 1].indent <= indent
    ensures i + 1 < end ==> tokens[i + 1].indent == indent
  {
    if i + 1 < end {
      assert Placed(tokens, i, i + 1);
    }
  }

  /** Below an opener: the nested lines are placed on their own, and the line after them is the block's own. */
  lemma NestedPlaced(tokens: seq<Token>, i: nat, indent: nat, end: nat, j: nat)
    requires i + 1 < |tokens| && Reaches(tokens, i, indent, end) && AllPlaced(tokens, i, end)
    requires tokens[i].indent == indent < tokens[i + 1].indent && Reaches(tokens, i + 1, tokens[i + 1].indent, j)
    ensures i + 1 < j <= end && AllPlaced(tokens, i + 1, j)
    ensures j < end ==> tokens[j].indent == indent
    ensures forall l :: i < l < j ==> tokens[l].indent > indent
  {
    var below := i + 1;
    forall k | below <= k < j
      ensures Placed(tokens, below, k)
    {
      assert Placed(tokens, i, k);
      PlacedNested(tokens, i, k);
    }
    if j < end {
      assert Placed(tokens, i, j) && tokens[j - 1].indent >= tokens[i + 1].indent;
      var m :| Level(tokens, i, m, j);
      assert tokens[m].indent == tokens[j].indent;
    }
  }

  /** Acceptance, exactly: a block is read without an error if and only if every one of its lines says something and is
      the first, stands below an opener, or continues a level that is still open. */
  lemma AcceptedIff(tokens: seq<Token>, i: nat, b: Block, end: nat)
    requires i < |tokens| && Reaches(tokens, i, tokens[i].indent, end)
    ensures ParseFrom(tokens, i, tokens[i].indent, b).Ok? <==> AllPlaced(tokens, i, end)
  {
    var r := ParseFrom(tokens, i, tokens[i].indent, b);
    if r.Ok? {
      AcceptedReaches(tokens, i, tokens[i].indent, b);
      OneEnd(tokens, i, tokens[i].indent, end, r.next);
      forall k | i <= k < end
        ensures Placed(tokens, i, k)
      {
        AcceptedPlaced(tokens, i, tokens[i].indent, b, k);
      }
    }
    if AllPlaced(tokens, i, end) {
      PlacedAccepted(tokens, i, tokens[i].indent, b, end);
    }
  }

  /** A whole document is accepted exactly when all its lines are placed. */
  lemma DocumentAcceptedIff(lines: seq<Line>)
    ensures Document(lines).Ok? <==> AllPlaced(Tokens(lines), 0, |lines|)
  {
    var tokens := Tokens(lines);
    if lines != [] {
      var end := EndOf(tokens, 0, tokens[0].indent);
      AcceptedIff(tokens, 0, EMPTY, end);
      if Document(lines).Ok? {
        AcceptedReaches(tokens, 0, tokens[0].indent, EMPTY);
        OneEnd(tokens, 0, tokens[0].indent, end, ParseFrom(tokens, 0, tokens[0].indent, EMPTY).next);
      }
      if AllPlaced(tokens, 0, |lines|) {
        ShallowerIsUnplaced(tokens, end);
        PlacedAccepted(tokens, 0, tokens[0].indent, EMPTY, end);
      }
    }
  }

  /** Nothing above the first line's indent can be placed. */
  lemma ShallowerIsUnplaced(tokens: seq<Token>, end: nat)
    requires tokens != [] && Reaches(tokens, 0, tokens[0].indent, end)
    ensures end < |tokens| ==> !Placed(tokens, 0, end)
  {
    if end < |tokens| {
      assert end > 0 && tokens[end - 1].indent >= tokens[0].indent;
    }
  }
}
