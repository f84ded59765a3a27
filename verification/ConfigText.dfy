/** From file text to the parsed document: splitting, comment stripping, trimming, and the round trip of a rendered
    file. */
module ConfigText {
  import opened ConfigParser
  import opened Records
  import opened Strings

  // ----- splitting into lines -----

  /** Splits at every line feed, each with the carriage return before it if there is one. */
  function SplitLines(text: string): (lines: seq<string>)
    ensures lines != []
  {
    if text == "" then [""]
    else if text[0] == '\n' then [""] + SplitLines(text[1..])
    else if text[0] == '\r' && |text| > 1 && text[1] == '\n' then [""] + SplitLines(text[2..])
    else
      var rest := SplitLines(text[1..]);
      [[text[0]] + rest[0]] + rest[1..]
  }

  function JoinLines(lines: seq<string>): string {
    if lines == [] then ""
    else if |lines| == 1 then lines[0]
    else lines[0] + "\n" + JoinLines(lines[1..])
  }

  /** A line that a line feed behind it ends cleanly. */
  predicate PlainLine(line: string) {
    '\n' !in line && (line == "" || line[|line| - 1] != '\r')
  }

  lemma {:induction false} SplitFirst(line: string, rest: string)
    requires PlainLine(line)
    ensures SplitLines(line + "\n" + rest) == [line] + SplitLines(rest)
  {
    if line == "" {
      assert ("" + "\n" + rest)[1..] == rest;
    } else {
      var text := line + "\n" + rest;
      assert text[1..] == line[1..] + "\n" + rest;
      assert |line| > 1 ==> text[1] == line[1];
      SplitFirst(line[1..], rest);
      assert [line[0]] + line[1..] == line;
    }
  }

  lemma {:induction false} SplitOnly(line: string)
    requires PlainLine(line)
    ensures SplitLines(line) == [line]
  {
    if line != "" {
      SplitOnly(line[1..]);
      assert [line[0]] + line[1..] == line;
    }
  }

  /** Splitting undoes joining for plain lines. */
  lemma {:induction false} SplitUndoesJoin(lines: seq<string>)
    requires lines != [] && forall i :: 0 <= i < |lines| ==> PlainLine(lines[i])
    ensures SplitLines(JoinLines(lines)) == lines
  {
    if |lines| == 1 {
      SplitOnly(lines[0]);
    } else {
      SplitUndoesJoin(lines[1..]);
      SplitFirst(lines[0], JoinLines(lines[1..]));
      assert [lines[0]] + lines[1..] == lines;
    }
  }

  // ----- preparing the lines -----

  function Kept(raw: string): string {
    raw[..CommentStart(raw, 0, None)]
  }

  /** What one raw line leaves: nothing if it is blank without its comment, else its indent and trimmed text. */
  function LineOf(raw: string, number: nat): seq<Line> {
    var kept := Kept(raw);
    if Trim(kept) == "" then []
    else TrimStartProperties(kept); [Line(|kept| - |TrimStart(kept)|, Trim(kept), number)]
  }

  function Prepare(raws: seq<string>): seq<Line> {
    if raws == [] then [] else Prepare(raws[..|raws| - 1]) + LineOf(raws[|raws| - 1], |raws|)
  }

  method PrepareLines(raws: seq<string>) returns (lines: seq<Line>)
    ensures lines == Prepare(raws)
  {
    lines := [];
    for index := 0 to |raws|
      invariant lines == Prepare(raws[..index])
    {
      var kept := StripComment(raws[index]);
      assert raws[..index + 1][..index] == raws[..index];
      if Trim(kept) != "" {
        TrimStartProperties(kept);
        lines := lines + [Line(|kept| - |TrimStart(kept)|, Trim(kept), index + 1)];
      }
    }
    assert raws[..|raws|] == raws;
  }

  /** The parser of a whole file. */
  method ParseSimpleYaml(source: string) returns (r: Parsed)
    ensures r == Document(Prepare(SplitLines(source)))
  {
    var lines := PrepareLines(SplitLines(source));
    r := ParseLines(lines);
  }

  // ----- a rendered line in a file -----

  function Spaces(n: nat): string {
    if n == 0 then "" else " " + Spaces(n - 1)
  }

  function Raw(line: Line): string {
    Spaces(line.indent) + line.text
  }

  predicate Uncommented(raw: string) {
    CommentStart(raw, 0, None) == |raw|
  }

  predicate Fit(text: string) {
    text != "" && Trimmed(text)
  }

  lemma {:induction false} SpacesTrim(n: nat, text: string)
    requires Fit(text)
    ensures |Spaces(n)| == n && TrimStart(Spaces(n) + text) == text
  {
    if n == 0 {
      assert "" + text == text;
    } else {
      SpacesTrim(n - 1, text);
      assert (Spaces(n) + text)[1..] == Spaces(n - 1) + text;
    }
  }

  /** A written line is read back as it was exactly when no comment starts in it. */
  lemma LineReadsBackIff(line: Line, number: nat)
    requires Fit(line.text)
    ensures LineOf(Raw(line), number) == [Line(line.indent, line.text, number)] <==> Uncommented(Raw(line))
  {
    var raw := Raw(line);
    var kept := Kept(raw);
    SpacesTrim(line.indent, line.text);
    TrimIsTrimmed(line.text);
    if Uncommented(raw) {
      assert kept == raw;
      assert Trim(raw) == TrimEnd(line.text) == line.text by {
        TrimEndProperties(line.text);
        TrimStartProperties(line.text);
      }
    } else {
      TrimStartProperties(kept);
      TrimEndProperties(TrimStart(kept));
      assert |kept| < |raw| == line.indent + |line.text|;
    }
  }

  // ----- line numbers only matter in errors -----

  ghost predicate Alike(a: seq<Token>, b: seq<Token>) {
    |a| == |b| && forall k :: 0 <= k < |a| ==> a[k].indent == b[k].indent && a[k].kind == b[k].kind
  }

  lemma {:induction false} NumbersIrrelevant(a: seq<Token>, b: seq<Token>, i: nat, indent: nat, block: Block)
    requires Alike(a, b) && i <= |a| && ParseFrom(a, i, indent, block).Ok?
    ensures ParseFrom(b, i, indent, block) == ParseFrom(a, i, indent, block)
    decreases |a| - i
  {
    if i < |a| && a[i].indent >= indent {
      match a[i].kind {
        case ItemLine(value) => NumbersIrrelevant(a, b, i + 1, indent, WithItem(block, value));
        case EntryLine(key, value) => NumbersIrrelevant(a, b, i + 1, indent, WithEntry(block, key, value));
        case Opener(key) =>
          if i + 1 < |a| && a[i + 1].indent > indent {
            NumbersIrrelevant(a, b, i + 1, a[i + 1].indent, EMPTY);
          }
          var child := Child(a, i + 1, indent);
          NumbersIrrelevant(a, b, child.next, indent, WithEntry(block, key, child.value));
      }
    }
  }

  // ----- a rendered file -----

  function Raws(lines: seq<Line>): (raws: seq<string>)
    ensures |raws| == |lines| && forall i :: 0 <= i < |lines| ==> raws[i] == Raw(lines[i])
  {
    seq(|lines|, i requires 0 <= i < |lines| => Raw(lines[i]))
  }

  ghost predicate SameLines(a: seq<Line>, b: seq<Line>) {
    |a| == |b| && forall k :: 0 <= k < |a| ==> a[k].indent == b[k].indent && a[k].text == b[k].text
  }

  lemma {:induction false} PrepareReadsBack(lines: seq<Line>)
    requires forall i :: 0 <= i < |lines| ==> Fit(lines[i].text) && Uncommented(Raw(lines[i]))
    ensures SameLines(Prepare(Raws(lines)), lines)
  {
    if lines != [] {
      var n := |lines| - 1;
      PrepareReadsBack(lines[..n]);
      assert Raws(lines)[..n] == Raws(lines[..n]);
      LineReadsBackIff(lines[n], |lines|);
    }
  }

  lemma {:induction false} ItemTexts(items: seq<Item>, indent: nat)
    requires forall i :: 0 <= i < |items| ==> Writable(items[i])
    ensures forall i :: 0 <= i < |ItemLines(items, indent)| ==> Fit(ItemLines(items, indent)[i].text)
  {
    if items != [] {
      ItemReadsBack(items[0]);
      FitEnd("- ", WriteItem(items[0]));
      ItemTexts(items[1..], indent);
    }
  }

  lemma FitEnd(head: string, tail: string)
    requires head != "" && !IsSpace(head[0]) && Fit(tail)
    ensures Fit(head + tail)
  {
    assert (head + tail)[0] == head[0];
    assert (head + tail)[|head + tail| - 1] == tail[|tail| - 1];
  }

  lemma {:induction false} EntryTexts(key: string, value: Tree, indent: nat)
    requires PlainKey(key) && WellFormedTree(value)
    ensures forall i :: 0 <= i < |EntryLines(key, value, indent)| ==> Fit(EntryLines(key, value, indent)[i].text)
    decreases value
  {
    FitEnd(key, ":");
    match value {
      case Value(item) =>
        ItemReadsBack(item);
        assert (key + ": ")[0] == key[0];
        FitEnd(key + ": ", WriteItem(item));
      case Items(items) => ItemTexts(items, indent + 2);
      case Node(children) => RenderTexts(children, indent + 2);
    }
  }

  /** Every rendered line has a text that trimming leaves alone. */
  lemma {:induction false} RenderTexts(f: Forest, indent: nat)
    requires WellFormed(f)
    ensures forall i :: 0 <= i < |Render(f, indent)| ==> Fit(Render(f, indent)[i].text)
    decreases f
  {
    if f.Cons? {
      EntryTexts(f.key, f.value, indent);
      RenderTexts(f.rest, indent);
    }
  }

  /** The file a tree is written to. */
  function FileText(f: Forest): string {
    JoinLines(Raws(Render(f, 0)))
  }

  lemma RawIsPlain(line: Line)
    requires Fit(line.text) && '\n' !in Raw(line)
    ensures PlainLine(Raw(line))
  {
    SpacesTrim(line.indent, line.text);
    assert Raw(line)[|Raw(line)| - 1] == line.text[|line.text| - 1];
  }

  lemma EmptyText()
    ensures SplitLines("") == [""] && Prepare([""]) == []
  {
    assert [""][..0] == [];
  }

  // ----- a file that reads back -----

  function Chars(raws: seq<string>): nat {
    if raws == [] then 0 else |raws[0]| + Chars(raws[1..])
  }

  function Feeds(text: string): nat {
    if text == "" then 0 else (if text[0] == '\n' then 1 else 0) + Feeds(text[1..])
  }

  function AllFeeds(raws: seq<string>): nat {
    if raws == [] then 0 else Feeds(raws[0]) + AllFeeds(raws[1..])
  }

  function Size(lines: seq<Line>): nat {
    if lines == [] then 0 else Size(lines[..|lines| - 1]) + lines[|lines| - 1].indent + |lines[|lines| - 1].text|
  }

  /** Splitting drops the line feeds at least. */
  lemma {:induction false} SplitChars(text: string)
    ensures Chars(SplitLines(text)) + Feeds(text) <= |text|
  {
    if text == "" {
      assert SplitLines(text)[1..] == [];
    } else if text[0] == '\n' {
      SplitChars(text[1..]);
      assert SplitLines(text)[1..] == SplitLines(text[1..]);
    } else if text[0] == '\r' && |text| > 1 && text[1] == '\n' {
      SplitChars(text[2..]);
      assert SplitLines(text)[1..] == SplitLines(text[2..]) && text[1..][1..] == text[2..];
    } else {
      SplitChars(text[1..]);
      assert SplitLines(text)[1..] == SplitLines(text[1..])[1..];
    }
  }

  lemma {:induction false} FeedsConcat(a: string, b: string)
    ensures Feeds(a + b) == Feeds(a) + Feeds(b)
  {
    if a == "" {
      assert a + b == b;
    } else {
      FeedsConcat(a[1..], b);
      assert (a + b)[1..] == a[1..] + b;
    }
  }

  lemma {:induction false} JoinChars(raws: seq<string>)
    requires raws != []
    ensures |JoinLines(raws)| == Chars(raws) + |raws| - 1 && Feeds(JoinLines(raws)) == AllFeeds(raws) + |raws| - 1
  {
    if |raws| == 1 {
      assert raws[1..] == [];
    } else {
      var rest := JoinLines(raws[1..]);
      JoinChars(raws[1..]);
      FeedsConcat(raws[0], "\n");
      FeedsConcat(raws[0] + "\n", rest);
      assert "\n"[1..] == "";
    }
  }

  lemma {:induction false} FeedsIff(raws: seq<string>)
    ensures AllFeeds(raws) == 0 <==> forall i :: 0 <= i < |raws| ==> '\n' !in raws[i]
  {
    if raws != [] {
      FeedsIff(raws[1..]);
      FeedIff(raws[0]);
      assert forall i :: 0 <= i < |raws[1..]| ==> raws[1..][i] == raws[i + 1];
      assert forall i :: 1 <= i < |raws| ==> raws[i] == raws[1..][i - 1];
    }
  }

  lemma {:induction false} FeedIff(text: string)
    ensures Feeds(text) == 0 <==> '\n' !in text
  {
    if text != "" {
      FeedIff(text[1..]);
      assert text == [text[0]] + text[1..];
    }
  }

  lemma LineSize(raw: string, number: nat)
    ensures Size(LineOf(raw, number)) <= |Kept(raw)| <= |raw|
    ensures !Uncommented(raw) ==> |Kept(raw)| < |raw|
  {
    TrimStartProperties(Kept(raw));
    TrimEndProperties(TrimStart(Kept(raw)));
    assert forall l: Line :: [l][..0] == [];
  }

  lemma {:induction false} SizeConcat(a: seq<Line>, b: seq<Line>)
    ensures Size(a + b) == Size(a) + Size(b)
  {
    if b == [] {
      assert a + b == a;
    } else {
      SizeConcat(a, b[..|b| - 1]);
      assert (a + b)[..|a + b| - 1] == a + b[..|b| - 1];
    }
  }

  lemma {:induction false} CharsConcat(a: seq<string>, b: seq<string>)
    ensures Chars(a + b) == Chars(a) + Chars(b)
  {
    if a == [] {
      assert a + b == b;
    } else {
      CharsConcat(a[1..], b);
      assert (a + b)[1..] == a[1..] + b;
    }
  }

  /** What the comments leave. */
  function KeptChars(raws: seq<string>): nat {
    if raws == [] then 0 else KeptChars(raws[..|raws| - 1]) + |Kept(raws[|raws| - 1])|
  }

  lemma {:induction false} PreparedSize(raws: seq<string>)
    ensures Size(Prepare(raws)) <= KeptChars(raws)
  {
    if raws != [] {
      var n := |raws| - 1;
      PreparedSize(raws[..n]);
      SizeConcat(Prepare(raws[..n]), LineOf(raws[n], |raws|));
      LineSize(raws[n], |raws|);
    }
  }

  lemma {:induction false} CommentsCost(raws: seq<string>, i: nat, loss: nat)
    requires i <= |raws| && (i < |raws| ==> |Kept(raws[i])| + loss <= |raws[i]|)
    ensures KeptChars(raws) + (if i < |raws| then loss else 0) <= Chars(raws)
  {
    if raws != [] {
      var n := |raws| - 1;
      CommentsCost(raws[..n], if i < n then i else n, loss);
      CharsConcat(raws[..n], [raws[n]]);
      assert raws == raws[..n] + [raws[n]] && [raws[n]][1..] == [];
    }
  }

  lemma {:induction false} RawsSize(lines: seq<Line>)
    requires forall i :: 0 <= i < |lines| ==> Fit(lines[i].text)
    ensures Chars(Raws(lines)) == Size(lines)
  {
    if lines != [] {
      var n := |lines| - 1;
      RawsSize(lines[..n]);
      SpacesTrim(lines[n].indent, lines[n].text);
      CharsConcat(Raws(lines[..n]), [Raw(lines[n])]);
      assert Raws(lines) == Raws(lines[..n]) + [Raw(lines[n])] && [Raw(lines[n])][1..] == [];
    }
  }

  lemma {:induction false} SameSize(a: seq<Line>, b: seq<Line>)
    requires SameLines(a, b)
    ensures Size(a) == Size(b)
  {
    if a != [] {
      SameSize(a[..|a| - 1], b[..|b| - 1]);
    }
  }

  /** Lines written to a file read back as they were exactly when no comment starts in one and none contains a line feed. */
  lemma LinesReadBackIff(lines: seq<Line>)
    requires lines != [] && forall i :: 0 <= i < |lines| ==> Fit(lines[i].text)
    ensures SameLines(Prepare(SplitLines(JoinLines(Raws(lines)))), lines)
      <==> forall i :: 0 <= i < |lines| ==> Uncommented(Raw(lines[i])) && '\n' !in Raw(lines[i])
  {
    var raws := Raws(lines);
    var split := SplitLines(JoinLines(raws));
    SplitChars(JoinLines(raws));
    JoinChars(raws);
    PreparedSize(split);
    forall i | 0 <= i < |split|
      ensures Size(Prepare(split)) <= Chars(split) && (!Uncommented(split[i]) ==> Size(Prepare(split)) < Chars(split))
    {
      LineSize(split[i], 0);
      CommentsCost(split, i, |split[i]| - |Kept(split[i])|);
    }
    RawsSize(lines);
    FeedsIff(raws);
    if SameLines(Prepare(split), lines) {
      SameSize(Prepare(split), lines);
      assert AllFeeds(raws) == 0;
      RawsSplit(lines);
    }
    if forall i :: 0 <= i < |lines| ==> Uncommented(Raw(lines[i])) && '\n' !in Raw(lines[i]) {
      RawsSplit(lines);
      PrepareReadsBack(lines);
    }
  }

  lemma RawsSplit(lines: seq<Line>)
    requires lines != [] && forall i :: 0 <= i < |lines| ==> Fit(lines[i].text) && '\n' !in Raws(lines)[i]
    ensures SplitLines(JoinLines(Raws(lines))) == Raws(lines)
  {
    forall i | 0 <= i < |lines|
      ensures PlainLine(Raws(lines)[i])
    {
      RawIsPlain(lines[i]);
    }
    SplitUndoesJoin(Raws(lines));
  }

  /** The round trip from file text: a tree written to a file parses back to its own mapping, provided that no line of
      the file starts a comment or contains a line feed. */
  lemma TextRoundTrip(f: Forest)
    requires WellFormed(f)
    requires forall i :: 0 <= i < |Render(f, 0)| ==> Uncommented(Raw(Render(f, 0)[i])) && '\n' !in Raw(Render(f, 0)[i])
    ensures var r := Document(Prepare(SplitLines(FileText(f))));
      r.Ok? && r.value == Mapping(Fill(map[], f))
  {
    var lines := Render(f, 0);
    RenderTexts(f, 0);
    DocumentRoundTrip(f);
    if lines == [] {
      EmptyText();
    } else {
      LinesReadBackIff(lines);
      SameDocument(lines, Prepare(SplitLines(FileText(f))));
    }
  }

  lemma SameDocument(lines: seq<Line>, prepared: seq<Line>)
    requires lines != [] && SameLines(prepared, lines) && Document(lines).Ok?
    ensures Document(prepared) == Document(lines)
  {
    assert Alike(Tokens(lines), Tokens(prepared));
    NumbersIrrelevant(Tokens(lines), Tokens(prepared), 0, lines[0].indent, EMPTY);
  }
}
