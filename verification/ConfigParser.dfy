/** The configuration file's indentation parser: comment stripping, scalars, blocks, and the round trip
    from a rendered tree back to its value. */
module ConfigParser {
  import opened Records
  import opened Strings

  datatype Yaml = Text(text: string) | List(items: seq<Yaml>) | Mapping(entries: map<string, Yaml>)

  datatype Line = Line(indent: nat, text: string, number: nat)

  datatype Problem = BadIndentation(line: nat) | BadSyntax(line: nat)

  datatype Parsed = Ok(value: Yaml, next: nat) | Err(problem: Problem)

  // ----- strings -----

  lemma TrimPadded(s: string)
    requires Trimmed(s) && s != ""
    ensures Trim(" " + s) == s
  {
    assert (" " + s)[1..] == s;
    TrimIsTrimmed(s);
  }

  function IndexOf(s: string, c: char): (i: int)
    ensures -1 <= i < |s|
    ensures i == -1 <==> c !in s
    ensures 0 <= i ==> s[i] == c && c !in s[..i]
  {
    if s == "" then -1
    else if s[0] == c then 0
    else
      var rest := IndexOf(s[1..], c);
      assert s == [s[0]] + s[1..];
      if rest == -1 then -1 else assert s[..rest + 1] == [s[0]] + s[1..][..rest]; rest + 1
  }

  function SplitComma(s: string): (parts: seq<string>)
    ensures parts != []
  {
    if s == "" then [""]
    else
      var rest := SplitComma(s[1..]);
      if s[0] == ',' then [""] + rest else [[s[0]] + rest[0]] + rest[1..]
  }

  // ----- scalars -----

  function Unquote(value: string): string {
    if |value| >= 2 && (value[0] == '"' || value[0] == '\'') && value[|value| - 1] == value[0]
    then value[1..|value| - 1] else value
  }

  function UnquoteAll(parts: seq<string>): seq<Yaml> {
    if parts == [] then [] else [Text(Unquote(Trim(parts[0])))] + UnquoteAll(parts[1..])
  }

  predicate Bracketed(value: string) {
    |value| >= 2 && value[0] == '[' && value[|value| - 1] == ']'
  }

  function Scalar(value: string): Yaml {
    if Bracketed(value) then
      var inner := Trim(value[1..|value| - 1]);
      if inner == "" then List([]) else List(UnquoteAll(SplitComma(inner)))
    else Text(Unquote(value))
  }

  // ----- blocks -----

  datatype Block = Block(mapping: map<string, Yaml>, items: seq<Yaml>, isSequence: bool)

  const EMPTY := Block(map[], [], false)

  function Finish(b: Block): Yaml {
    if b.isSequence then List(b.items) else Mapping(b.mapping)
  }

  predicate IsItem(text: string) {
    |text| >= 2 && text[0] == '-' && text[1] == ' '
  }

  /** What one line says: a list item, a complete entry, a key that may open a deeper block, or nothing valid. */
  datatype LineKind = ItemLine(value: Yaml) | EntryLine(key: string, value: Yaml) | Opener(key: string) | Malformed

  function Classify(text: string): LineKind {
    if IsItem(text) then ItemLine(Scalar(Trim(text[2..])))
    else
      var separator := IndexOf(text, ':');
      if separator < 1 then Malformed
      else
        var key, value := Trim(text[..separator]), Trim(text[separator + 1..]);
        if value != "" then EntryLine(key, Scalar(value)) else Opener(key)
  }

  /** A line with its text read; reading one line never depends on another. */
  datatype Token = Token(indent: nat, kind: LineKind, number: nat)

  function Tokens(lines: seq<Line>): (tokens: seq<Token>)
    ensures |tokens| == |lines|
    ensures forall i :: 0 <= i < |lines| ==>
      tokens[i] == Token(lines[i].indent, Classify(lines[i].text), lines[i].number)
  {
    seq(|lines|, i requires 0 <= i < |lines| => Token(lines[i].indent, Classify(lines[i].text), lines[i].number))
  }

  function WithItem(b: Block, value: Yaml): Block {
    b.(items := b.items + [value], isSequence := true)
  }

  function WithEntry(b: Block, key: string, value: Yaml): Block {
    b.(mapping := b.mapping[key := value])
  }

  /** The block at `indent` read from token i on, continuing what has been collected so far. */
  function ParseFrom(tokens: seq<Token>, i: nat, indent: nat, b: Block): (r: Parsed)
    requires i <= |tokens|
    ensures r.Ok? ==> i <= r.next <= |tokens|
    ensures r.Ok? && r.next < |tokens| ==> tokens[r.next].indent < indent
    decreases |tokens| - i, 0
  {
    if i == |tokens| || tokens[i].indent < indent then Ok(Finish(b), i)
    else if tokens[i].indent > indent then Err(BadIndentation(tokens[i].number))
    else
      match tokens[i].kind
      case Malformed => Err(BadSyntax(tokens[i].number))
      case ItemLine(value) => ParseFrom(tokens, i + 1, indent, WithItem(b, value))
      case EntryLine(key, value) => ParseFrom(tokens, i + 1, indent, WithEntry(b, key, value))
      case Opener(key) =>
        match Child(tokens, i + 1, indent)
        case Err(problem) => Err(problem)
        case Ok(value, next) => ParseFrom(tokens, next, indent, WithEntry(b, key, value))
  }

  /** What stands below an opener: a deeper block if the next line is deeper, else an empty mapping. */
  function Child(tokens: seq<Token>, i: nat, indent: nat): (r: Parsed)
    requires i <= |tokens|
    ensures r.Ok? ==> i <= r.next <= |tokens|
    ensures r.Ok? && r.next < |tokens| ==> i < r.next || tokens[r.next].indent <= indent
    decreases |tokens| - i, 1
  {
    if i < |tokens| && tokens[i].indent > indent then ParseFrom(tokens, i, tokens[i].indent, EMPTY)
    else Ok(Mapping(map[]), i)
  }

  /** The position that nested calls share. */
  class Cursor {
    var index: nat

    constructor ()
      ensures index == 0
    {
      index := 0;
    }
  }

  /** What one line, with whatever is nested below it, adds to the block being collected. */
  datatype Step = Failed(problem: Problem) | Extended(block: Block)

  /** The parser itself: a loop over the shared cursor that recurses into deeper blocks. */
  method ParseBlock(lines: seq<Line>, cursor: Cursor, indent: nat) returns (r: Parsed)
    requires cursor.index <= |lines|
    modifies cursor
    ensures r == ParseFrom(Tokens(lines), old(cursor.index), indent, EMPTY)
    ensures old(cursor.index) <= cursor.index <= |lines| && (r.Ok? ==> cursor.index == r.next)
    decreases |lines| - cursor.index, 1
  {
    var b := EMPTY;
    ghost var start, tokens := cursor.index, Tokens(lines);
    while cursor.index < |lines| && lines[cursor.index].indent >= indent
      invariant start <= cursor.index <= |lines|
      invariant ParseFrom(tokens, cursor.index, indent, b) == ParseFrom(tokens, start, indent, EMPTY)
      decreases |lines| - cursor.index
    {
      if lines[cursor.index].indent > indent {
        return Err(BadIndentation(lines[cursor.index].number));
      }
      ghost var before, at := b, cursor.index;
      var step := ParseLine(lines, cursor, indent, b);
      assert ParseFrom(tokens, at, indent, before) == Resumed(tokens, indent, step, cursor.index);
      if step.Failed? {
        return Err(step.problem);
      }
      b := step.block;
    }
    r := Ok(Finish(b), cursor.index);
  }

  /** How reading goes on after a step that ended at position i. */
  ghost function Resumed(tokens: seq<Token>, indent: nat, step: Step, i: nat): Parsed
    requires i <= |tokens|
  {
    if step.Failed? then Err(step.problem) else ParseFrom(tokens, i, indent, step.block)
  }

  method ParseLine(lines: seq<Line>, cursor: Cursor, indent: nat, b: Block) returns (step: Step)
    requires cursor.index < |lines| && lines[cursor.index].indent == indent
    modifies cursor
    ensures old(cursor.index) < cursor.index <= |lines|
    ensures ParseFrom(Tokens(lines), old(cursor.index), indent, b) == Resumed(Tokens(lines), indent, step, cursor.index)
    decreases |lines| - cursor.index, 0
  {
    var line := lines[cursor.index];
    var kind := Classify(line.text);
    LineStep(Tokens(lines), cursor.index, indent, b);
    cursor.index := cursor.index + 1;
    if kind.Opener? {
      var child := ParseChild(lines, cursor, indent);
      step := if child.Err? then Failed(child.problem) else Extended(WithEntry(b, kind.key, child.value));
    } else {
      step := ReadLine(kind, b, line.number);
    }
  }

  function ReadLine(kind: LineKind, b: Block, number: nat): Step
    requires !kind.Opener?
  {
    match kind
    case Malformed => Failed(BadSyntax(number))
    case ItemLine(value) => Extended(WithItem(b, value))
    case EntryLine(key, value) => Extended(WithEntry(b, key, value))
  }

  /** One line of a block, as the parser handles it. */
  lemma LineStep(tokens: seq<Token>, i: nat, indent: nat, b: Block)
    requires i < |tokens| && tokens[i].indent == indent
    ensures !tokens[i].kind.Opener? ==>
      ParseFrom(tokens, i, indent, b) == Resumed(tokens, indent, ReadLine(tokens[i].kind, b, tokens[i].number), i + 1)
    ensures tokens[i].kind.Opener? ==>
      var child := Child(tokens, i + 1, indent);
      ParseFrom(tokens, i, indent, b)
      == if child.Err? then child else ParseFrom(tokens, child.next, indent, WithEntry(b, tokens[i].kind.key, child.value))
  {
  }

  method ParseChild(lines: seq<Line>, cursor: Cursor, indent: nat) returns (r: Parsed)
    requires cursor.index <= |lines|
    modifies cursor
    ensures r == Child(Tokens(lines), old(cursor.index), indent)
    ensures old(cursor.index) <= cursor.index <= |lines| && (r.Ok? ==> cursor.index == r.next)
    decreases |lines| - cursor.index, 2
  {
    if cursor.index < |lines| && lines[cursor.index].indent > indent {
      r := ParseBlock(lines, cursor, lines[cursor.index].indent);
    } else {
      r := Ok(Mapping(map[]), cursor.index);
    }
  }

  // ----- rendering a tree -----

  datatype Item = Word(text: string) | Flow(words: seq<string>)

  /** The documented subset: scalars, inline lists, `- item` lists, and nested mappings. */
  datatype Tree = Value(item: Item) | Items(items: seq<Item>) | Node(children: Forest)

  datatype Forest = Nil | Cons(key: string, value: Tree, rest: Forest)

  predicate PlainKey(key: string) {
    key != "" && Trimmed(key) && ':' !in key && !IsItem(key)
  }

  /** What the notation can carry: words are free, inline list entries must not contain a comma, and a block
      list must not be empty. */
  predicate Writable(item: Item) {
    item.Flow? ==> forall i :: 0 <= i < |item.words| ==> ',' !in item.words[i]
  }

  predicate WellFormedTree(t: Tree) {
    match t
    case Value(item) => Writable(item)
    case Items(items) => items != [] && forall i :: 0 <= i < |items| ==> Writable(items[i])
    case Node(children) => WellFormed(children)
  }

  predicate WellFormed(f: Forest) {
    f.Nil? || (PlainKey(f.key) && WellFormedTree(f.value) && WellFormed(f.rest))
  }

  /** A word is written bare when that reads back as itself, and in double quotes otherwise. */
  predicate Bare(word: string) {
    word != "" && Trimmed(word) && Unquote(word) == word && !Bracketed(word)
  }

  function WriteWord(word: string): string {
    if Bare(word) then word else "\"" + word + "\""
  }

  function WriteWords(words: seq<string>): string {
    if words == [] then "" else if |words| == 1 then WriteWord(words[0]) else WriteWord(words[0]) + ", " + WriteWords(words[1..])
  }

  function WriteItem(item: Item): string {
    match item
    case Word(text) => WriteWord(text)
    case Flow(words) => "[" + WriteWords(words) + "]"
  }

  function ItemValue(item: Item): Yaml {
    match item
    case Word(text) => Text(text)
    case Flow(words) => List(seq(|words|, i requires 0 <= i < |words| => Text(words[i])))
  }

  function ItemLines(items: seq<Item>, indent: nat): seq<Line> {
    if items == [] then [] else [Line(indent, "- " + WriteItem(items[0]), 0)] + ItemLines(items[1..], indent)
  }

  function EntryLines(key: string, value: Tree, indent: nat): seq<Line>
    decreases value
  {
    match value
    case Value(item) => [Line(indent, key + ": " + WriteItem(item), 0)]
    case Items(items) => [Line(indent, key + ":", 0)] + ItemLines(items, indent + 2)
    case Node(children) => [Line(indent, key + ":", 0)] + Render(children, indent + 2)
  }

  /** One entry per key, children two columns deeper. */
  function Render(f: Forest, indent: nat): seq<Line>
    decreases f
  {
    match f
    case Nil => []
    case Cons(key, value, rest) => EntryLines(key, value, indent) + Render(rest, indent)
  }

  /** The tokens that the rendered lines read as. */
  function ItemTokens(items: seq<Item>, indent: nat): seq<Token> {
    if items == [] then [] else [Token(indent, ItemLine(ItemValue(items[0])), 0)] + ItemTokens(items[1..], indent)
  }

  function EntryTokens(key: string, value: Tree, indent: nat): seq<Token>
    decreases value
  {
    match value
    case Value(item) => [Token(indent, EntryLine(key, ItemValue(item)), 0)]
    case Items(items) => [Token(indent, Opener(key), 0)] + ItemTokens(items, indent + 2)
    case Node(children) => [Token(indent, Opener(key), 0)] + ForestTokens(children, indent + 2)
  }

  function ForestTokens(f: Forest, indent: nat): seq<Token>
    decreases f
  {
    match f
    case Nil => []
    case Cons(key, value, rest) => EntryTokens(key, value, indent) + ForestTokens(rest, indent)
  }

  function ItemValues(items: seq<Item>): seq<Yaml> {
    if items == [] then [] else [ItemValue(items[0])] + ItemValues(items[1..])
  }

  function TreeValue(t: Tree): Yaml
    decreases t
  {
    match t
    case Value(item) => ItemValue(item)
    case Items(items) => List(ItemValues(items))
    case Node(children) => Mapping(Fill(map[], children))
  }

  /** The mapping a forest denotes on top of earlier entries; a repeated key is overwritten. */
  function Fill(entries: map<string, Yaml>, f: Forest): map<string, Yaml>
    decreases f
  {
    match f
    case Nil => entries
    case Cons(key, value, rest) => Fill(entries[key := TreeValue(value)], rest)
  }

  // ----- scalars read back -----

  lemma WordShape(word: string)
    ensures WriteWord(word) != "" && Trimmed(WriteWord(word)) && !Bracketed(WriteWord(word))
    ensures Unquote(WriteWord(word)) == word
    ensures ',' !in word ==> ',' !in WriteWord(word)
  {
    if !Bare(word) {
      var w := "\"" + word + "\"";
      assert w[1..|w| - 1] == word;
    }
  }

  lemma {:induction false} WordsShape(words: seq<string>)
    requires words != []
    ensures WriteWords(words) != "" && Trimmed(WriteWords(words))
  {
    WordShape(words[0]);
    if |words| > 1 {
      WordsShape(words[1..]);
      var w := WriteWord(words[0]) + ", " + WriteWords(words[1..]);
      assert w[|w| - 1] == WriteWords(words[1..])[|WriteWords(words[1..])| - 1];
    }
  }

  lemma {:induction false} SplitAtComma(head: string, tail: string)
    requires ',' !in head
    ensures SplitComma(head + "," + tail) == [head] + SplitComma(tail)
  {
    if head == "" {
      assert ("" + "," + tail)[1..] == tail;
    } else {
      SplitAtComma(head[1..], tail);
      assert (head + "," + tail)[1..] == head[1..] + "," + tail;
      assert [head[0]] + head[1..] == head;
    }
  }

  lemma {:induction false} SplitNoComma(s: string)
    requires ',' !in s
    ensures SplitComma(s) == [s]
  {
    if s != "" {
      SplitNoComma(s[1..]);
      assert [s[0]] + s[1..] == s;
    }
  }

  lemma SplitPadding(s: string)
    ensures SplitComma(" " + s) == [" " + SplitComma(s)[0]] + SplitComma(s)[1..]
  {
    assert (" " + s)[1..] == s;
  }

  function TextsOf(words: seq<string>): seq<Yaml> {
    seq(|words|, i requires 0 <= i < |words| => Text(words[i]))
  }

  lemma UnquotePadded(first: string, parts: seq<string>)
    requires first != "" && Trimmed(first)
    ensures UnquoteAll([" " + first] + parts) == UnquoteAll([first] + parts)
  {
    TrimPadded(first);
    TrimIsTrimmed(first);
    assert ([" " + first] + parts)[1..] == parts && ([first] + parts)[1..] == parts;
  }

  lemma UnquoteHead(first: string, rest: seq<string>)
    ensures UnquoteAll([first] + rest) == [Text(Unquote(Trim(first)))] + UnquoteAll(rest)
  {
    assert ([first] + rest)[1..] == rest;
  }

  lemma {:induction false} WordsReadBack(words: seq<string>)
    requires words != [] && forall i :: 0 <= i < |words| ==> ',' !in words[i]
    ensures UnquoteAll(SplitComma(WriteWords(words))) == TextsOf(words)
    ensures SplitComma(WriteWords(words))[0] == WriteWord(words[0])
  {
    var w := WriteWord(words[0]);
    WordShape(words[0]);
    TrimIsTrimmed(w);
    if |words| == 1 {
      SplitNoComma(w);
      assert [w][1..] == [];
      assert TextsOf(words) == [Text(words[0])];
    } else {
      var tail := WriteWords(words[1..]);
      WordsReadBack(words[1..]);
      WordShape(words[1]);
      WordsJoin(w, tail);
      assert TextsOf(words) == [Text(words[0])] + TextsOf(words[1..]);
    }
  }

  lemma WordsJoin(w: string, tail: string)
    requires w != "" && Trimmed(w) && ',' !in w && SplitComma(tail)[0] != "" && Trimmed(SplitComma(tail)[0])
    ensures UnquoteAll(SplitComma(w + ", " + tail)) == [Text(Unquote(w))] + UnquoteAll(SplitComma(tail))
    ensures SplitComma(w + ", " + tail)[0] == w
  {
    var parts := SplitComma(tail);
    assert w + ", " + tail == w + "," + (" " + tail);
    SplitAtComma(w, " " + tail);
    SplitPadding(tail);
    TrimIsTrimmed(w);
    UnquoteHead(w, [" " + parts[0]] + parts[1..]);
    UnquotePadded(parts[0], parts[1..]);
    assert [parts[0]] + parts[1..] == parts;
  }

  /** Every writable item reads back as itself. */
  lemma ItemReadsBack(item: Item)
    requires Writable(item)
    ensures WriteItem(item) != "" && Trimmed(WriteItem(item))
    ensures Scalar(WriteItem(item)) == ItemValue(item)
  {
    match item {
      case Word(text) => WordShape(text);
      case Flow(words) =>
        var w := "[" + WriteWords(words) + "]";
        assert w[1..|w| - 1] == WriteWords(words);
        TrimIsTrimmed(WriteWords(words));
        if words != [] {
          WordsShape(words);
          WordsReadBack(words);
        }
        assert ItemValue(item) == List(TextsOf(words));
    }
  }

  function Commas(s: string): nat {
    if s == "" then 0 else (if s[0] == ',' then 1 else 0) + Commas(s[1..])
  }

  lemma {:induction false} CommasConcat(a: string, b: string)
    ensures Commas(a + b) == Commas(a) + Commas(b)
  {
    if a == "" {
      assert a + b == b;
    } else {
      CommasConcat(a[1..], b);
      assert (a + b)[1..] == a[1..] + b;
    }
  }

  lemma {:induction false} CommasCount(s: string)
    ensures |SplitComma(s)| == Commas(s) + 1
    ensures Commas(s) == 0 <==> ',' !in s
  {
    if s != "" {
      CommasCount(s[1..]);
    }
  }

  function CommasIn(words: seq<string>): nat {
    if words == [] then 0 else Commas(words[0]) + CommasIn(words[1..])
  }

  lemma {:induction false} WrittenCommas(words: seq<string>)
    requires words != []
    ensures Commas(WriteWords(words)) == |words| - 1 + CommasIn(words)
  {
    WordCommas(words[0]);
    if |words| == 1 {
      assert words[1..] == [];
    } else {
      WrittenCommas(words[1..]);
      CommasConcat(WriteWord(words[0]) + ", ", WriteWords(words[1..]));
      CommasConcat(WriteWord(words[0]), ", ");
      assert Commas(", ") == 1;
    }
  }

  lemma WordCommas(word: string)
    ensures Commas(WriteWord(word)) == Commas(word)
  {
    CommasConcat("\"" + word, "\"");
    CommasConcat("\"", word);
  }

  lemma {:induction false} NoCommasIn(words: seq<string>)
    ensures CommasIn(words) == 0 <==> forall i :: 0 <= i < |words| ==> ',' !in words[i]
  {
    if words != [] {
      CommasCount(words[0]);
      NoCommasIn(words[1..]);
      assert words == [words[0]] + words[1..];
    }
  }

  lemma {:induction false} UnquoteAllLength(parts: seq<string>)
    ensures |UnquoteAll(parts)| == |parts|
  {
    if parts != [] {
      UnquoteAllLength(parts[1..]);
    }
  }

  /** Exactly the writable items read back: an inline entry with a comma is split in two, quotes or not. */
  lemma ItemReadsBackIff(item: Item)
    ensures Scalar(WriteItem(item)) == ItemValue(item) <==> Writable(item)
  {
    if Writable(item) {
      ItemReadsBack(item);
    } else {
      var words := item.words;
      var w := "[" + WriteWords(words) + "]";
      assert w[1..|w| - 1] == WriteWords(words);
      WordsShape(words);
      TrimIsTrimmed(WriteWords(words));
      WrittenCommas(words);
      NoCommasIn(words);
      CommasCount(WriteWords(words));
      UnquoteAllLength(SplitComma(WriteWords(words)));
      assert Scalar(w) == List(UnquoteAll(SplitComma(WriteWords(words))));
      assert |Scalar(w).items| > |words| == |ItemValue(item).items|;
    }
  }

  // ----- lines read back -----

  lemma IndexOfKey(key: string, tail: string)
    requires ':' !in key
    ensures IndexOf(key + ":" + tail, ':') == |key|
  {
    var s := key + ":" + tail;
    var i := IndexOf(s, ':');
    assert s[|key|] == ':';
    assert forall k :: 0 <= k < |key| ==> s[k] == key[k] != ':';
    assert forall k :: 0 <= k < i ==> s[..i][k] == s[k] && s[k] != ':';
  }

  lemma KeyLine(key: string, tail: string)
    requires PlainKey(key)
    ensures Classify(key + ":" + tail) == if Trim(tail) != "" then EntryLine(key, Scalar(Trim(tail))) else Opener(key)
  {
    var text := key + ":" + tail;
    IndexOfKey(key, tail);
    TrimIsTrimmed(key);
    assert text[..|key|] == key && text[|key| + 1..] == tail;
    assert |key| >= 2 ==> text[0] == key[0] && text[1] == key[1];
  }

  lemma SpacedValue(key: string, w: string, value: Yaml)
    requires PlainKey(key) && Trimmed(w) && w != "" && Scalar(w) == value
    ensures Classify(key + ": " + w) == EntryLine(key, value)
  {
    TrimPadded(w);
    KeyLine(key, " " + w);
    SpaceMoves(key, w);
  }

  lemma SpaceMoves(key: string, w: string)
    ensures key + ": " + w == key + ":" + (" " + w)
  {
    assert ": " == ":" + " ";
  }

  lemma ValueLine(key: string, item: Item)
    requires PlainKey(key) && Writable(item)
    ensures Classify(key + ": " + WriteItem(item)) == EntryLine(key, ItemValue(item))
  {
    ItemReadsBack(item);
    SpacedValue(key, WriteItem(item), ItemValue(item));
  }

  lemma ItemTextLine(item: Item)
    requires Writable(item)
    ensures Classify("- " + WriteItem(item)) == ItemLine(ItemValue(item))
  {
    var w := WriteItem(item);
    ItemReadsBack(item);
    TrimIsTrimmed(w);
    assert ("- " + w)[2..] == w;
  }

  lemma TokensConcat(a: seq<Line>, b: seq<Line>)
    ensures Tokens(a + b) == Tokens(a) + Tokens(b)
  {
  }

  lemma TokensOne(indent: nat, text: string)
    ensures Tokens([Line(indent, text, 0)]) == [Token(indent, Classify(text), 0)]
  {
  }

  lemma {:induction false} ItemLinesRead(items: seq<Item>, indent: nat)
    requires forall k :: 0 <= k < |items| ==> Writable(items[k])
    ensures Tokens(ItemLines(items, indent)) == ItemTokens(items, indent)
  {
    if items != [] {
      ItemLinesRead(items[1..], indent);
      ItemTextLine(items[0]);
      TokensOne(indent, "- " + WriteItem(items[0]));
      TokensConcat([Line(indent, "- " + WriteItem(items[0]), 0)], ItemLines(items[1..], indent));
    }
  }

  lemma {:induction false} EntryLinesRead(key: string, value: Tree, indent: nat)
    requires PlainKey(key) && WellFormedTree(value)
    ensures Tokens(EntryLines(key, value, indent)) == EntryTokens(key, value, indent)
    decreases value
  {
    TokensOne(indent, key + ":");
    KeyLine(key, "");
    assert key + ":" + "" == key + ":";
    match value {
      case Value(item) =>
        ValueLine(key, item);
        TokensOne(indent, key + ": " + WriteItem(item));
      case Items(items) =>
        ItemLinesRead(items, indent + 2);
        TokensConcat([Line(indent, key + ":", 0)], ItemLines(items, indent + 2));
      case Node(children) =>
        RenderRead(children, indent + 2);
        TokensConcat([Line(indent, key + ":", 0)], Render(children, indent + 2));
    }
  }

  /** A rendered forest reads, line by line, as its tokens. */
  lemma {:induction false} RenderRead(f: Forest, indent: nat)
    requires WellFormed(f)
    ensures Tokens(Render(f, indent)) == ForestTokens(f, indent)
    decreases f
  {
    if f.Cons? {
      EntryLinesRead(f.key, f.value, indent);
      RenderRead(f.rest, indent);
      TokensConcat(EntryLines(f.key, f.value, indent), Render(f.rest, indent));
    }
  }

  // ----- blocks read back -----

  /** The tokens of a block stand at position i, and whatever follows them is not deeper than the block. */
  ghost predicate StandsAt(tokens: seq<Token>, i: nat, block: seq<Token>, indent: nat) {
    && i + |block| <= |tokens| && tokens[i..i + |block|] == block
    && (i + |block| < |tokens| ==> tokens[i + |block|].indent <= indent)
  }

  lemma StandsSplit(tokens: seq<Token>, i: nat, a: seq<Token>, b: seq<Token>, indent: nat)
    requires StandsAt(tokens, i, a + b, indent)
    requires b != [] ==> b[0].indent <= indent
    ensures StandsAt(tokens, i, a, indent) && StandsAt(tokens, i + |a|, b, indent)
    ensures a != [] ==> tokens[i] == a[0]
  {
    var whole := tokens[i..i + |a + b|];
    assert tokens[i..i + |a|] == whole[..|a|] == a;
    assert tokens[i + |a|..i + |a| + |b|] == whole[|a|..] == b;
    if b != [] {
      assert tokens[i + |a|] == whole[|a|];
    }
    if a != [] {
      assert tokens[i] == whole[0];
    }
  }

  lemma TokenIndent(f: Forest, indent: nat)
    ensures f.Cons? ==> ForestTokens(f, indent) != [] && ForestTokens(f, indent)[0].indent == indent
    ensures f.Nil? ==> ForestTokens(f, indent) == []
  {
  }

  /** Reading from (i, b) continues as reading from (j, c). */
  ghost predicate Continues(tokens: seq<Token>, indent: nat, i: nat, b: Block, j: nat, c: Block) {
    i <= |tokens| && j <= |tokens| && ParseFrom(tokens, i, indent, b) == ParseFrom(tokens, j, indent, c)
  }

  lemma ContinuesTransitive(tokens: seq<Token>, indent: nat, i: nat, a: Block, j: nat, b: Block, k: nat, c: Block)
    requires Continues(tokens, indent, i, a, j, b) && Continues(tokens, indent, j, b, k, c)
    ensures Continues(tokens, indent, i, a, k, c)
  {
  }

  function Filled(b: Block, f: Forest): Block {
    b.(mapping := Fill(b.mapping, f))
  }

  function Listed(b: Block, items: seq<Item>): Block {
    Block(b.mapping, b.items + ItemValues(items), b.isSequence || items != [])
  }

  lemma ItemStep(tokens: seq<Token>, i: nat, indent: nat, b: Block, value: Yaml)
    requires i < |tokens| && tokens[i] == Token(indent, ItemLine(value), 0)
    ensures Continues(tokens, indent, i, b, i + 1, WithItem(b, value))
  {
  }

  lemma ListedStep(b: Block, items: seq<Item>)
    requires items != []
    ensures Listed(WithItem(b, ItemValue(items[0])), items[1..]) == Listed(b, items)
  {
    assert b.items + [ItemValue(items[0])] + ItemValues(items[1..]) == b.items + ItemValues(items);
  }

  lemma ItemsSplit(tokens: seq<Token>, i: nat, indent: nat, items: seq<Item>)
    requires items != [] && StandsAt(tokens, i, ItemTokens(items, indent), indent)
    ensures i < |tokens| && tokens[i] == Token(indent, ItemLine(ItemValue(items[0])), 0)
    ensures StandsAt(tokens, i + 1, ItemTokens(items[1..], indent), indent)
  {
    StandsSplit(tokens, i, [Token(indent, ItemLine(ItemValue(items[0])), 0)], ItemTokens(items[1..], indent), indent);
  }

  lemma ItemsJoin(tokens: seq<Token>, i: nat, indent: nat, items: seq<Item>, b: Block)
    requires items != []
    requires var next := WithItem(b, ItemValue(items[0]));
      Continues(tokens, indent, i, b, i + 1, next)
      && Continues(tokens, indent, i + 1, next, i + 1 + |ItemTokens(items[1..], indent)|, Listed(next, items[1..]))
    ensures Continues(tokens, indent, i, b, i + |ItemTokens(items, indent)|, Listed(b, items))
  {
    var next, n := WithItem(b, ItemValue(items[0])), |ItemTokens(items[1..], indent)|;
    ContinuesTransitive(tokens, indent, i, b, i + 1, next, i + 1 + n, Listed(next, items[1..]));
    ListedStep(b, items);
    assert |ItemTokens(items, indent)| == 1 + n;
  }

  lemma {:induction false} ItemsReadBack(tokens: seq<Token>, i: nat, indent: nat, items: seq<Item>, b: Block)
    requires StandsAt(tokens, i, ItemTokens(items, indent), indent)
    ensures Continues(tokens, indent, i, b, i + |ItemTokens(items, indent)|, Listed(b, items))
    decreases |items|
  {
    if items == [] {
      assert b.items + [] == b.items;
    } else {
      ItemsSplit(tokens, i, indent, items);
      ItemStep(tokens, i, indent, b, ItemValue(items[0]));
      ItemsReadBack(tokens, i + 1, indent, items[1..], WithItem(b, ItemValue(items[0])));
      ItemsJoin(tokens, i, indent, items, b);
    }
  }

  lemma FilledStep(b: Block, f: Forest)
    requires f.Cons?
    ensures Filled(WithEntry(b, f.key, TreeValue(f.value)), f.rest) == Filled(b, f)
  {
  }

  lemma EmptyForest(tokens: seq<Token>, i: nat, indent: nat, b: Block)
    requires i <= |tokens|
    ensures Continues(tokens, indent, i, b, i + |ForestTokens(Nil, indent)|, Filled(b, Nil))
  {
    assert Filled(b, Nil) == b;
  }

  lemma ForestSplits(tokens: seq<Token>, i: nat, indent: nat, f: Forest)
    requires f.Cons? && StandsAt(tokens, i, ForestTokens(f, indent), indent)
    ensures StandsAt(tokens, i, EntryTokens(f.key, f.value, indent), indent)
    ensures StandsAt(tokens, i + |EntryTokens(f.key, f.value, indent)|, ForestTokens(f.rest, indent), indent)
  {
    TokenIndent(f.rest, indent);
    StandsSplit(tokens, i, EntryTokens(f.key, f.value, indent), ForestTokens(f.rest, indent), indent);
  }

  lemma ForestJoins(tokens: seq<Token>, i: nat, indent: nat, f: Forest, b: Block, k: nat, next: Block)
    requires f.Cons? && k == i + |EntryTokens(f.key, f.value, indent)|
    requires next == WithEntry(b, f.key, TreeValue(f.value)) && Continues(tokens, indent, i, b, k, next)
    requires Continues(tokens, indent, k, next, k + |ForestTokens(f.rest, indent)|, Filled(next, f.rest))
    ensures Continues(tokens, indent, i, b, i + |ForestTokens(f, indent)|, Filled(b, f))
  {
    ContinuesTransitive(tokens, indent, i, b, k, next, k + |ForestTokens(f.rest, indent)|, Filled(next, f.rest));
    FilledStep(b, f);
  }

  predicate NoEmptyList(t: Tree) {
    match t
    case Value(_) => true
    case Items(items) => items != []
    case Node(children) => NoEmptyLists(children)
  }

  predicate NoEmptyLists(f: Forest) {
    f.Nil? || (NoEmptyList(f.value) && NoEmptyLists(f.rest))
  }

  lemma {:induction false} WellFormedLists(f: Forest)
    requires WellFormed(f)
    ensures NoEmptyLists(f)
  {
    if f.Cons? {
      WellFormedLists(f.rest);
      if f.value.Node? {
        WellFormedLists(f.value.children);
      }
    }
  }

  /** The round trip: wherever the tokens of a forest stand, the parser consumes exactly those and has then
      collected exactly the forest's mapping. */
  lemma {:induction false} ForestReadsBack(tokens: seq<Token>, i: nat, indent: nat, f: Forest, b: Block)
    requires NoEmptyLists(f) && StandsAt(tokens, i, ForestTokens(f, indent), indent)
    ensures Continues(tokens, indent, i, b, i + |ForestTokens(f, indent)|, Filled(b, f))
    decreases f, 1
  {
    if f.Nil? {
      EmptyForest(tokens, i, indent, b);
    } else {
      ForestSplits(tokens, i, indent, f);
      var k, next := i + |EntryTokens(f.key, f.value, indent)|, WithEntry(b, f.key, TreeValue(f.value));
      EntryReadsBack(tokens, i, indent, f.key, f.value, b);
      RestReadsBack(tokens, i, indent, f, b, k, next);
    }
  }

  /** The entries after the first, once the first has been read. */
  lemma {:induction false} RestReadsBack(tokens: seq<Token>, i: nat, indent: nat, f: Forest, b: Block, k: nat, next: Block)
    requires f.Cons? && NoEmptyLists(f.rest) && k == i + |EntryTokens(f.key, f.value, indent)|
    requires next == WithEntry(b, f.key, TreeValue(f.value)) && Continues(tokens, indent, i, b, k, next)
    requires StandsAt(tokens, k, ForestTokens(f.rest, indent), indent)
    ensures Continues(tokens, indent, i, b, i + |ForestTokens(f, indent)|, Filled(b, f))
    decreases f, 0
  {
    ForestReadsBack(tokens, k, indent, f.rest, next);
    ForestJoins(tokens, i, indent, f, b, k, next);
  }

  lemma {:induction false} EntryReadsBack(tokens: seq<Token>, i: nat, indent: nat, key: string, value: Tree, b: Block)
    requires NoEmptyList(value) && StandsAt(tokens, i, EntryTokens(key, value, indent), indent)
    ensures Continues(tokens, indent, i, b, i + |EntryTokens(key, value, indent)|, WithEntry(b, key, TreeValue(value)))
    decreases value
  {
    match value {
      case Value(item) => ValueReadsBack(tokens, i, indent, key, item, b);
      case Items(items) => ListReadsBack(tokens, i, indent, key, items, b);
      case Node(children) =>
        if children.Nil? {
          EmptyNodeReadsBack(tokens, i, indent, key, b);
        } else {
          NodeSplits(tokens, i, indent, key, children);
          ForestReadsBack(tokens, i + 1, indent + 2, children, EMPTY);
          NodeJoins(tokens, i, indent, key, children, b);
        }
    }
  }

  lemma EmptyNodeReadsBack(tokens: seq<Token>, i: nat, indent: nat, key: string, b: Block)
    requires StandsAt(tokens, i, EntryTokens(key, Node(Nil), indent), indent)
    ensures Continues(tokens, indent, i, b, i + |EntryTokens(key, Node(Nil), indent)|, WithEntry(b, key, Mapping(map[])))
  {
    BelowOpener(tokens, i, key, [], indent);
  }

  lemma NodeSplits(tokens: seq<Token>, i: nat, indent: nat, key: string, children: Forest)
    requires children.Cons? && StandsAt(tokens, i, EntryTokens(key, Node(children), indent), indent)
    ensures Below(tokens, i, indent, key, ForestTokens(children, indent + 2))
    ensures StandsAt(tokens, i + 1, ForestTokens(children, indent + 2), indent + 2)
  {
    BelowOpener(tokens, i, key, ForestTokens(children, indent + 2), indent);
    TokenIndent(children, indent + 2);
  }

  lemma NodeJoins(tokens: seq<Token>, i: nat, indent: nat, key: string, children: Forest, b: Block)
    requires Below(tokens, i, indent, key, ForestTokens(children, indent + 2))
    requires Continues(tokens, indent + 2, i + 1, EMPTY, i + 1 + |ForestTokens(children, indent + 2)|, Filled(EMPTY, children))
    ensures Continues(tokens, indent, i, b, i + |EntryTokens(key, Node(children), indent)|,
                      WithEntry(b, key, TreeValue(Node(children))))
  {
    NestedReadsBack(tokens, i, indent, key, ForestTokens(children, indent + 2), Filled(EMPTY, children), b);
  }

  lemma ValueReadsBack(tokens: seq<Token>, i: nat, indent: nat, key: string, item: Item, b: Block)
    requires StandsAt(tokens, i, EntryTokens(key, Value(item), indent), indent)
    ensures Continues(tokens, indent, i, b, i + 1, WithEntry(b, key, ItemValue(item)))
  {
    assert tokens[i] == tokens[i..i + 1][0];
  }

  lemma ListReadsBack(tokens: seq<Token>, i: nat, indent: nat, key: string, items: seq<Item>, b: Block)
    requires items != [] && StandsAt(tokens, i, EntryTokens(key, Items(items), indent), indent)
    ensures Continues(tokens, indent, i, b, i + 1 + |ItemTokens(items, indent + 2)|,
                      WithEntry(b, key, List(ItemValues(items))))
  {
    var inner := ItemTokens(items, indent + 2);
    BelowOpener(tokens, i, key, inner, indent);
    assert Below(tokens, i, indent, key, inner);
    ItemsReadBack(tokens, i + 1, indent + 2, items, EMPTY);
    assert [] + ItemValues(items) == ItemValues(items);
    NestedReadsBack(tokens, i, indent, key, inner, Listed(EMPTY, items), b);
  }

  /** An opener stands at i, and the tokens `inner` of a deeper block, up to a line that closes it, below it. */
  ghost predicate Below(tokens: seq<Token>, i: nat, indent: nat, key: string, inner: seq<Token>) {
    && inner != [] && i + 1 + |inner| <= |tokens|
    && tokens[i] == Token(indent, Opener(key), 0) && tokens[i + 1].indent == indent + 2
    && (i + 1 + |inner| < |tokens| ==> tokens[i + 1 + |inner|].indent <= indent)
  }

  /** What stands below an opener stands one position further down, and what follows it is shallower. */
  lemma BelowOpener(tokens: seq<Token>, i: nat, key: string, inner: seq<Token>, indent: nat)
    requires StandsAt(tokens, i, [Token(indent, Opener(key), 0)] + inner, indent)
    ensures tokens[i] == Token(indent, Opener(key), 0) && StandsAt(tokens, i + 1, inner, indent + 2)
    ensures inner != [] ==> tokens[i + 1] == inner[0]
    ensures i + 1 + |inner| < |tokens| ==> tokens[i + 1 + |inner|].indent <= indent
  {
    var block := [Token(indent, Opener(key), 0)] + inner;
    assert tokens[i] == tokens[i..i + |block|][0];
    assert tokens[i + 1..i + 1 + |inner|] == tokens[i..i + |block|][1..] == inner;
    if inner != [] {
      assert tokens[i + 1] == tokens[i..i + |block|][1];
    }
  }

  /** If the deeper block read from below an opener has collected `done` when its tokens end, it ends there and
      the entry is complete. */
  lemma NestedReadsBack(tokens: seq<Token>, i: nat, indent: nat, key: string, inner: seq<Token>, done: Block, b: Block)
    requires Below(tokens, i, indent, key, inner)
    requires Continues(tokens, indent + 2, i + 1, EMPTY, i + 1 + |inner|, done)
    ensures Continues(tokens, indent, i, b, i + 1 + |inner|, WithEntry(b, key, Finish(done)))
  {
    assert ParseFrom(tokens, i + 1 + |inner|, indent + 2, done) == Ok(Finish(done), i + 1 + |inner|);
  }

  // ----- the document -----

  /** Parses the prepared lines of a whole file: everything must be consumed, and a top-level list counts as
      an empty document. */
  method ParseLines(lines: seq<Line>) returns (r: Parsed)
    ensures r == Document(lines)
  {
    var cursor := new Cursor();
    var indent := if lines == [] then 0 else lines[0].indent;
    var parsed := ParseBlock(lines, cursor, indent);
    if parsed.Err? {
      return parsed;
    }
    if cursor.index < |lines| {
      return Err(BadIndentation(lines[cursor.index].number));
    }
    r := Ok(if parsed.value.List? then Mapping(map[]) else parsed.value, cursor.index);
  }

  function Document(lines: seq<Line>): Parsed {
    match ParseFrom(Tokens(lines), 0, if lines == [] then 0 else lines[0].indent, EMPTY)
    case Err(problem) => Err(problem)
    case Ok(value, next) =>
      if next < |lines| then Err(BadIndentation(lines[next].number))
      else Ok(if value.List? then Mapping(map[]) else value, next)
  }

  lemma TokensReadBack(f: Forest)
    requires WellFormed(f)
    ensures ParseFrom(ForestTokens(f, 0), 0, 0, EMPTY) == Ok(Mapping(Fill(map[], f)), |ForestTokens(f, 0)|)
    ensures ForestTokens(f, 0) != [] ==> ForestTokens(f, 0)[0].indent == 0
  {
    var tokens := ForestTokens(f, 0);
    TokenIndent(f, 0);
    assert tokens[0..0 + |tokens|] == tokens;
    WellFormedLists(f);
    ForestReadsBack(tokens, 0, 0, f, EMPTY);
  }

  /** A rendered document parses back to exactly its own mapping. */
  lemma DocumentRoundTrip(f: Forest)
    requires WellFormed(f)
    ensures Document(Render(f, 0)) == Ok(Mapping(Fill(map[], f)), |Render(f, 0)|)
  {
    RenderRead(f, 0);
    TokensReadBack(f);
    assert Render(f, 0) != [] ==> Tokens(Render(f, 0))[0].indent == Render(f, 0)[0].indent;
  }

  // ----- comments -----

  /** Where the comment of a line starts, or its length: a `#` outside quotes, at the start or after a space. */
  function CommentStart(line: string, i: nat, quoted: Option<char>): (k: nat)
    requires i <= |line|
    ensures i <= k <= |line|
    ensures k < |line| ==> line[k] == '#' && (k == 0 || line[k - 1] == ' ')
    decreases |line| - i
  {
    if i == |line| then i
    else if quoted.Some? then CommentStart(line, i + 1, if line[i] == quoted.value then None else quoted)
    else if line[i] == '"' || line[i] == '\'' then CommentStart(line, i + 1, Some(line[i]))
    else if line[i] == '#' && (i == 0 || line[i - 1] == ' ') then i
    else CommentStart(line, i + 1, None)
  }

  method StripComment(line: string) returns (kept: string)
    ensures kept == line[..CommentStart(line, 0, None)]
  {
    var quoted: Option<char> := None;
    for index := 0 to |line|
      invariant CommentStart(line, index, quoted) == CommentStart(line, 0, None)
    {
      var character := line[index];
      if quoted.Some? {
        if character == quoted.value {
          quoted := None;
        }
      } else if character == '"' || character == '\'' {
        quoted := Some(character);
      } else if character == '#' && (index == 0 || line[index - 1] == ' ') {
        return line[..index];
      }
    }
    kept := line;
    assert line[..|line|] == line;
  }

  /** Stripping twice strips no more: what is kept contains no comment of its own. */
  lemma StripIsIdempotent(line: string)
    ensures var kept := line[..CommentStart(line, 0, None)]; kept[..CommentStart(kept, 0, None)] == kept
  {
    KeptHasNoComment(line, 0, None, CommentStart(line, 0, None));
  }

  lemma {:induction false} KeptHasNoComment(line: string, i: nat, quoted: Option<char>, end: nat)
    requires i <= end <= |line| && CommentStart(line, i, quoted) == end
    ensures CommentStart(line[..end], i, quoted) == end
    decreases |line| - i
  {
    if i < end {
      KeptHasNoComment(line, i + 1,
                       if quoted.Some? then (if line[i] == quoted.value then None else quoted)
                       else if line[i] == '"' || line[i] == '\'' then Some(line[i]) else None, end);
    }
  }
}
