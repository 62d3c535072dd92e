/** Printing cues in the documented block format and parsing the text again. */
module VttRoundTrip {
  import opened Wrappers
  import opened Text
  import opened VttParser

  datatype Cue = Cue(start: string, end: string, speaker: string, text: string)

  /** {index}\n{start} --> {end}\n{speaker}: {text}\n */
  function PrintCue(index: nat, c: Cue): string {
    Decimal(index) + "\n" + c.start + " --> " + c.end + "\n" + c.speaker + ": " + c.text + "\n"
  }

  function PrintFrom(cues: seq<Cue>, index: nat): string
    requires cues != []
  {
    if |cues| == 1 then PrintCue(index, cues[0])
    else PrintCue(index, cues[0]) + "\n" + PrintFrom(cues[1..], index + 1)
  }

  function Print(cues: seq<Cue>): string
    requires cues != []
  {
    "WEBVTT" + "\n\n" + PrintFrom(cues, 1)
  }

  predicate OneLine(s: string) {
    forall i :: 0 <= i < |s| ==> !IsLineBreak(s[i])
  }

  /** Every field on one line, and a speaker that the label pattern can hold. */
  predicate Printable(c: Cue) {
    && OneLine(c.start) && OneLine(c.end) && OneLine(c.speaker) && OneLine(c.text)
    && ':' !in c.speaker
    && 1 <= |LStrip(c.speaker)| <= 100
  }

  function SpeakerNames(cues: seq<Cue>): seq<string> {
    if cues == [] then [] else SpeakerNames(cues[..|cues| - 1]) + [Strip(cues[|cues| - 1].speaker)]
  }

  // ---- stripping the whole text only touches the last line ------------------------------

  lemma {:induction false} RStripAppend(a: string, b: string)
    requires RStrip(b) != ""
    ensures RStrip(a + b) == a + RStrip(b)
  {
    assert (a + b)[|a + b| - 1] == b[|b| - 1];
    if IsSpace(b[|b| - 1]) {
      assert (a + b)[..|a + b| - 1] == a + b[..|b| - 1];
      RStripAppend(a, b[..|b| - 1]);
    }
  }

  lemma {:induction false} RStripIsPrefix(s: string)
    ensures RStrip(s) <= s
  {
    if s != "" && IsSpace(s[|s| - 1]) {
      RStripIsPrefix(s[..|s| - 1]);
    }
  }

  /** A cue up to and including the colon. */
  function Head(index: nat, c: Cue): string {
    Decimal(index) + "\n" + (c.start + " --> " + c.end) + "\n" + (c.speaker + ":")
  }

  /** The three lines of a cue, the third ending in tail. */
  function Block(index: nat, c: Cue, tail: string): string {
    Head(index, c) + tail
  }

  lemma PrintCueSplits(index: nat, c: Cue)
    ensures PrintCue(index, c) == Head(index, c) + (" " + c.text + "\n")
    ensures PrintCue(index, c) + "\n" == Block(index, c, " " + c.text) + "\n\n"
    ensures Head(index, c) != "" && !IsSpace(Head(index, c)[|Head(index, c)| - 1])
  {
    var front := Decimal(index) + "\n" + (c.start + " --> " + c.end) + "\n";
    assert PrintCue(index, c) == front + (c.speaker + ": " + c.text + "\n");
    assert c.speaker + ": " + c.text + "\n" == (c.speaker + ":") + (" " + c.text + "\n");
    assert Head(index, c) == front + (c.speaker + ":");
  }

  /** The stripped text after the header: blocks with an empty line between them. */
  function Blocks(cues: seq<Cue>, index: nat): seq<string>
    requires cues != []
  {
    if |cues| == 1 then [Block(index, cues[0], RStrip(" " + cues[0].text + "\n"))]
    else [Block(index, cues[0], " " + cues[0].text)] + Blocks(cues[1..], index + 1)
  }

  function Glue(blocks: seq<string>): string
    requires blocks != []
  {
    if |blocks| == 1 then blocks[0] else blocks[0] + ("\n\n" + Glue(blocks[1..]))
  }

  lemma {:induction false} RStripOfPrint(cues: seq<Cue>, index: nat)
    requires cues != []
    ensures RStrip(PrintFrom(cues, index)) == Glue(Blocks(cues, index))
    ensures Glue(Blocks(cues, index)) != ""
  {
    hide RStrip, PrintCue, Head;
    var c := cues[0];
    PrintCueSplits(index, c);
    if |cues| == 1 {
      RStripKeepsHead(Head(index, c), " " + c.text + "\n");
    } else {
      RStripOfPrint(cues[1..], index + 1);
      var cue, rest := PrintCue(index, c) + "\n", Glue(Blocks(cues[1..], index + 1));
      RStripAppend(cue, PrintFrom(cues[1..], index + 1));
      assert Blocks(cues, index)[1..] == Blocks(cues[1..], index + 1);
      ConcatAssociates(Block(index, c, " " + c.text), "\n\n", rest);
    }
  }

  lemma StripOfPrint(cues: seq<Cue>)
    requires cues != []
    ensures Strip(Print(cues)) == "WEBVTT" + ("\n\n" + Glue(Blocks(cues, 1)))
  {
    PrintStartsVisible(cues);
    hide RStrip, LStrip, PrintFrom, Glue, Blocks;
    RStripOfPrint(cues, 1);
    RStripAppend("WEBVTT" + "\n\n", PrintFrom(cues, 1));
    ConcatAssociates("WEBVTT", "\n\n", Glue(Blocks(cues, 1)));
  }

  lemma PrintStartsVisible(cues: seq<Cue>)
    requires cues != []
    ensures LStrip(Print(cues)) == Print(cues)
  {
    hide PrintFrom;
    assert Print(cues)[0] == 'W';
  }

  // ---- splitting finds exactly the printed blocks ---------------------------------------

  /** No separator starts inside, or straddles the end. */
  predicate Solid(s: string) {
    && (forall i :: 0 <= i < |s| ==> s[i] != '\r')
    && (forall i :: 0 <= i < |s| && s[i] == '\n' ==> i + 1 < |s| && s[i + 1] != '\n')
  }

  lemma NoSeparatorHere(s: string)
    requires s != "" && s[0] != '\r'
    requires s[0] == '\n' ==> |s| > 1 && s[1] != '\r' && s[1] != '\n'
    ensures SeparatorLength(s) == 0
  {
  }

  lemma SeparatorHere(rest: string)
    requires rest != "" && rest[0] != '\n'
    ensures SeparatorLength("\n\n" + rest) == 2
  {
    var s := "\n\n" + rest;
    assert s[1..][1..] == rest;
    assert s[1..][0] == '\n';
    assert NewlineRun(s[1..]) == 1;
  }

  lemma SplitStep(s: string, current: string)
    requires s != "" && s[0] != '\r'
    requires s[0] == '\n' ==> |s| > 1 && s[1] != '\r' && s[1] != '\n'
    ensures SplitBlocks(s, current) == SplitBlocks(s[1..], current + [s[0]])
  {
    NoSeparatorHere(s);
  }

  lemma SplitHere(current: string, rest: string)
    requires rest != "" && rest[0] != '\n'
    ensures SplitBlocks("\n\n" + rest, current) == [current] + SplitBlocks(rest, "")
  {
    SeparatorHere(rest);
    assert ("\n\n" + rest)[2..] == rest;
  }

  lemma HeaderIsSolid()
    ensures Solid("WEBVTT")
  {
  }

  lemma {:induction false} SplitAtSeparator(a: string, current: string, rest: string)
    requires Solid(a)
    requires rest != "" && rest[0] != '\n'
    ensures SplitBlocks(a + ("\n\n" + rest), current) == [current + a] + SplitBlocks(rest, "")
    decreases |a|
  {
    if a == "" {
      SplitHere(current, rest);
      assert a + ("\n\n" + rest) == "\n\n" + rest && current + a == current;
    } else {
      SplitStep(a + ("\n\n" + rest), current);
      SolidTail(a);
      hide SplitBlocks, Solid;
      HeadAndTail(a, "\n\n" + rest, current);
      SplitAtSeparator(a[1..], current + [a[0]], rest);
    }
  }

  lemma HeadAndTail(a: string, after: string, current: string)
    requires a != ""
    ensures (a + after)[0] == a[0] && (a + after)[1..] == a[1..] + after && current + [a[0]] + a[1..] == current + a
  {
  }

  lemma SolidTail(a: string)
    requires Solid(a) && a != ""
    ensures Solid(a[1..])
  {
  }

  lemma {:induction false} SplitLast(a: string, current: string)
    requires Solid(a)
    ensures SplitBlocks(a, current) == [current + a]
    decreases |a|
  {
    if a == "" {
      assert current + a == current;
    } else {
      NoSeparatorHere(a);
      SplitLast(a[1..], current + [a[0]]);
      assert current + [a[0]] + a[1..] == current + a;
    }
  }

  lemma {:induction false} SplitGlued(blocks: seq<string>)
    requires blocks != []
    requires forall b :: b in blocks ==> b != "" && b[0] != '\n' && Solid(b)
    ensures SplitBlocks(Glue(blocks), "") == blocks
    ensures Glue(blocks) != "" && Glue(blocks)[0] != '\n'
  {
    if |blocks| == 1 {
      SplitLast(blocks[0], "");
      assert "" + blocks[0] == blocks[0];
    } else {
      forall b | b in blocks[1..] ensures b != "" && b[0] != '\n' && Solid(b) {
        assert b in blocks;
      }
      SplitGlued(blocks[1..]);
      SplitAtSeparator(blocks[0], "", Glue(blocks[1..]));
      assert "" + blocks[0] == blocks[0];
    }
  }

  /** Three lines, none empty, make a solid block. */
  lemma ThreeLinesAreSolid(l1: string, l2: string, l3: string)
    requires OneLine(l1) && OneLine(l2) && OneLine(l3) && l2 != "" && l3 != ""
    ensures Solid(l1 + "\n" + l2 + "\n" + l3)
  {
  }

  lemma TailIsOneLine(text: string)
    requires OneLine(text)
    ensures OneLine(" " + text) && OneLine(RStrip(" " + text + "\n"))
  {
    var s := " " + text + "\n";
    assert s[..|s| - 1] == " " + text;
    RStripIsPrefix(s[..|s| - 1]);
  }

  lemma BlockIsThreeLines(index: nat, c: Cue, tail: string)
    ensures Block(index, c, tail)
            == Decimal(index) + "\n" + (c.start + " --> " + c.end) + "\n" + (c.speaker + ":" + tail)
  {
    var front := Decimal(index) + "\n" + (c.start + " --> " + c.end) + "\n";
    assert c.speaker + ":" + tail == (c.speaker + ":") + tail;
    assert front + (c.speaker + ":") + tail == front + ((c.speaker + ":") + tail);
  }

  lemma BlockIsSolid(index: nat, c: Cue, tail: string)
    requires Printable(c) && OneLine(tail)
    ensures Block(index, c, tail) != "" && Block(index, c, tail)[0] != '\n' && Solid(Block(index, c, tail))
  {
    ThreeLinesAreSolid(Decimal(index), c.start + " --> " + c.end, c.speaker + ":" + tail);
    BlockIsThreeLines(index, c, tail);
  }

  lemma {:induction false} BlocksAreSolid(cues: seq<Cue>, index: nat)
    requires cues != [] && forall c :: c in cues ==> Printable(c)
    ensures forall b :: b in Blocks(cues, index) ==> b != "" && b[0] != '\n' && Solid(b)
  {
    var c := cues[0];
    assert c in cues;
    TailIsOneLine(c.text);
    if |cues| == 1 {
      BlockIsSolid(index, c, RStrip(" " + c.text + "\n"));
    } else {
      BlockIsSolid(index, c, " " + c.text);
      BlocksAreSolid(cues[1..], index + 1);
    }
  }

  // ---- each printed block is read as its speaker ----------------------------------------

  lemma {:induction false} FirstLine(a: string, current: string, rest: string)
    requires OneLine(a)
    ensures SplitLines(a + "\n" + rest, current) == [current + a] + SplitLines(rest, "")
    decreases |a|
  {
    var s := a + "\n" + rest;
    if a == "" {
      assert s[0] == '\n' && s[1..] == rest;
      assert current + a == current;
    } else {
      assert s[0] == a[0];
      assert s[1..] == a[1..] + "\n" + rest;
      FirstLine(a[1..], current + [a[0]], rest);
      assert current + [a[0]] + a[1..] == current + a;
    }
  }

  lemma {:induction false} OnlyLine(a: string, current: string)
    requires OneLine(a) && current + a != ""
    ensures SplitLines(a, current) == [current + a]
    decreases |a|
  {
    if a != "" {
      OnlyLine(a[1..], current + [a[0]]);
      assert current + [a[0]] + a[1..] == current + a;
    } else {
      assert current + a == current;
    }
  }

  lemma {:induction false} StripOfSolid(s: string)
    requires s != "" && forall i :: 0 <= i < |s| ==> !IsSpace(s[i])
    ensures Strip(s) == s
  {
  }

  lemma {:induction false} LStripAppend(a: string, b: string)
    requires LStrip(a) != ""
    ensures LStrip(a + b) == LStrip(a) + b
  {
    if IsSpace(a[0]) {
      assert (a + b)[1..] == a[1..] + b;
      LStripAppend(a[1..], b);
    }
  }

  lemma {:induction false} LStripTwice(a: string)
    ensures LStrip(LStrip(a)) == LStrip(a)
    ensures forall x :: x in LStrip(a) ==> x in a
  {
    if a != "" && IsSpace(a[0]) {
      LStripTwice(a[1..]);
    }
  }

  lemma {:induction false} FirstColonAfter(a: string, b: string)
    requires ':' !in a
    ensures FirstColon(a + ":" + b) == |a|
  {
    var s := a + ":" + b;
    assert s[|a|] == ':';
    assert forall i :: 0 <= i < |a| ==> s[i] == a[i] && a[i] in a;
  }

  lemma {:induction false} ArrowInside(a: string, b: string)
    ensures HasArrow(a + " --> " + b)
  {
    var s := a + " --> " + b;
    if a == "" {
      assert s[1..][..3] == "-->";
    } else {
      assert s[1..] == a[1..] + " --> " + b;
      ArrowInside(a[1..], b);
    }
  }

  /** The label line "speaker:tail" is a cue text with the stripped speaker as its label. */
  lemma LabelIsRead(speaker: string, tail: string)
    requires ':' !in speaker && 1 <= |LStrip(speaker)| <= 100
    ensures var text := Strip(speaker + ":" + tail);
            HasLabel(text) && Strip(text[..FirstColon(text)]) == Strip(speaker)
  {
    var head := LStrip(speaker);
    StripOfLabel(speaker, tail);
    LStripTwice(speaker);
    FirstColonAfter(head, RStrip(tail));
    hide LStrip, RStrip, FirstColon;
    assert (head + ":" + RStrip(tail))[..|head|] == head;
  }

  lemma StripOfLabel(speaker: string, tail: string)
    requires LStrip(speaker) != ""
    ensures Strip(speaker + ":" + tail) == LStrip(speaker) + ":" + RStrip(tail)
  {
    hide LStrip, RStrip, IsSpace;
    var head := LStrip(speaker);
    LStripAppend(speaker, ":" + tail);
    ConcatAssociates(speaker, ":", tail);
    ConcatAssociates(head, ":", tail);
    assert !IsSpace(':') by { ColonIsVisible(); }
    RStripKeepsHead(head + ":", tail);
  }

  lemma ColonIsVisible()
    ensures !IsSpace(':')
  {
  }

  lemma NonBlankCons(line: string, rest: seq<string>)
    requires Strip(line) != ""
    ensures NonBlank([line] + rest) == [line] + NonBlank(rest)
  {
    assert ([line] + rest)[1..] == rest;
  }

  /** The lines, with a newline between any two. */
  function Unlines(lines: seq<string>): string
    requires lines != []
  {
    if |lines| == 1 then lines[0] else lines[0] + "\n" + Unlines(lines[1..])
  }

  predicate AllShown(lines: seq<string>) {
    forall i :: 0 <= i < |lines| ==> OneLine(lines[i]) && Strip(lines[i]) != ""
  }

  lemma {:induction false} LinesJoined(lines: seq<string>)
    requires lines != [] && AllShown(lines)
    ensures TextLines(Unlines(lines)) == lines
  {
    hide OneLine, Strip;
    var line := lines[0];
    assert "" + line == line && Strip("") == "" by { StripOfNothing(); }
    if |lines| == 1 {
      OnlyLine(line, "");
      OneLineLeft(line);
      assert lines == [line];
    } else {
      var rest := lines[1..];
      LinesJoined(rest);
      FirstLine(line, "", Unlines(rest));
      NonBlankCons(line, SplitLines(Unlines(rest), ""));
      assert [line] + rest == lines;
    }
  }

  lemma StripOfNothing()
    ensures Strip("") == ""
  {
  }

  /** The lines of a cue, after its number if it has one. */
  function CueText(number: Option<nat>, timing: string, texts: seq<string>): string {
    Unlines((if number.Some? then [Decimal(number.value)] else []) + ([timing] + texts))
  }

  lemma NumberIsRead(n: nat)
    ensures Strip(Decimal(n)) == Decimal(n) && IsNumber(Decimal(n)) && !IsNoteLine(Decimal(n)) && AllShown([Decimal(n)])
  {
    assert forall i :: 0 <= i < |Decimal(n)| ==> !IsSpace(Decimal(n)[i]);
    StripOfSolid(Decimal(n));
  }

  /**
   * With or without a number, a block with a line of timing is a cue: one without any text is
   * skipped, one whose joined text has a colon after one to a hundred characters is labelled with
   * what stands before it, and any other is counted without a label.
   */
  lemma CueBlockKind(number: Option<nat>, timing: string, texts: seq<string>)
    requires AllShown([timing]) && AllShown(texts) && HasArrow(timing)
    requires number.None? ==> !IsNoteLine(timing) && !IsNumber(Strip(timing))
    ensures var kind, text := Classify(CueText(number, timing, texts)), Strip(Join(texts));
            if texts == [] then kind == Skipped(NoCueText)
            else if exists p :: LabelEnds(text, p) then forall p :: LabelEnds(text, p) ==> kind == Spoken(Strip(text[..p]))
            else kind == Unlabelled(text)
  {
    hide Strip, IsNoteLine, Join, HasArrow, IsNumber, TextLines, Unlines, Decimal;
    var lines := (if number.Some? then [Decimal(number.value)] else []) + ([timing] + texts);
    if number.Some? {
      NumberIsRead(number.value);
      assert lines[1..] == [timing] + texts;
    } else {
      assert lines == [timing] + texts;
    }
    LinesJoined(lines);
    assert CueLines(lines) == [timing] + texts;
    assert ([timing] + texts)[1..] == texts;
    LabelEndsOnce(Strip(Join(texts)));
  }

  /** The first colon of the text, behind one to a hundred characters. */
  predicate LabelEnds(text: string, p: int) {
    1 <= p <= 100 && p < |text| && text[p] == ':' && ':' !in text[..p]
  }

  lemma LabelEndsOnce(text: string)
    ensures HasLabel(text) <==> exists p :: LabelEnds(text, p)
    ensures forall p :: LabelEnds(text, p) ==> p == FirstColon(text)
  {
    var q := FirstColon(text);
    if HasLabel(text) {
      assert LabelEnds(text, q);
    }
  }

  lemma {:induction false} ArrowStandsSomewhere(s: string)
    ensures HasArrow(s) <==> exists i :: ArrowAt(s, i)
  {
    if |s| >= 3 {
      ArrowStandsSomewhere(s[1..]);
      if ArrowAt(s, 0) {
      } else if HasArrow(s) {
        var i :| ArrowAt(s[1..], i);
        assert s[i + 1..i + 4] == s[1..][i..i + 3];
        assert ArrowAt(s, i + 1);
      }
      forall i | ArrowAt(s, i) && i > 0 ensures ArrowAt(s[1..], i - 1) {
        assert s[1..][i - 1..i + 2] == s[i..i + 3];
      }
    }
  }

  predicate ArrowAt(s: string, i: int) {
    0 <= i <= |s| - 3 && s[i..i + 3] == "-->"
  }

  /** A block with neither a NOTE nor a timing is skipped with a warning that quotes its first 80 characters. */
  lemma OtherBlockIsSkipped(lines: seq<string>)
    requires lines != [] && AllShown(lines) && !IsNoteLine(lines[0])
    requires var first := if IsNumber(Strip(lines[0])) then 1 else 0;
             first < |lines| ==> !HasArrow(lines[first])
    ensures var raw := Unlines(lines);
            Classify(raw) == Skipped(SkippedBlock(if |raw| <= 80 then raw else raw[..80]))
  {
    hide Strip, IsNoteLine, HasArrow, IsNumber, TextLines, Unlines;
    LinesJoined(lines);
  }

  lemma BlockIsSpoken(index: nat, c: Cue, tail: string)
    requires Printable(c) && OneLine(tail)
    ensures Classify(Block(index, c, tail)) == Spoken(Strip(c.speaker))
  {
    var timing, spoken := c.start + " --> " + c.end, c.speaker + ":" + tail;
    LineIsShown(timing, |c.start| + 1);
    LineIsShown(spoken, |c.speaker|);
    ArrowInside(c.start, c.end);
    LabelIsRead(c.speaker, tail);
    BlockIsThreeLines(index, c, tail);
    ThreeLines(Decimal(index), timing, spoken);
    hide Classify, Strip, HasArrow, IsNumber, FirstColon, HasLabel, LabelEnds, IsNoteLine, Unlines, Block;
    CueBlockKind(Some(index), timing, [spoken]);
    assert Join([spoken]) == spoken;
    LabelEndsOnce(Strip(spoken));
  }

  lemma ThreeLines(l1: string, l2: string, l3: string)
    ensures Unlines([l1] + ([l2] + [l3])) == l1 + "\n" + l2 + "\n" + l3
  {
    assert ([l1] + ([l2] + [l3]))[1..] == [l2] + [l3] && ([l2] + [l3])[1..] == [l3];
    assert Unlines([l2] + [l3]) == l2 + "\n" + l3;
  }

  lemma LineIsShown(line: string, i: nat)
    requires OneLine(line) && i < |line| && !IsSpace(line[i])
    ensures AllShown([line])
  {
    StripOfVisible(line, i);
  }

  lemma {:induction false} BlocksAreSpoken(cues: seq<Cue>, index: nat)
    requires cues != [] && forall c :: c in cues ==> Printable(c)
    ensures SpokenBlocks(Blocks(cues, index), cues)
  {
    var c := cues[0];
    assert c in cues;
    TailIsOneLine(c.text);
    if |cues| == 1 {
      BlockIsSpoken(index, c, RStrip(" " + c.text + "\n"));
    } else {
      BlockIsSpoken(index, c, " " + c.text);
      BlocksAreSpoken(cues[1..], index + 1);
    }
  }

  lemma {:induction false} SpeakerIsVisible(speaker: string)
    requires LStrip(speaker) != ""
    ensures Strip(speaker) != ""
  {
    if IsSpace(speaker[0]) {
      SpeakerIsVisible(speaker[1..]);
    } else {
      StripOfVisible(speaker, 0);
    }
  }

  predicate SpokenBlocks(blocks: seq<string>, cues: seq<Cue>) {
    && |blocks| == |cues|
    && (forall i :: 0 <= i < |cues| ==> Printable(cues[i]))
    && (forall i :: 0 <= i < |cues| ==> Classify(blocks[i]) == Spoken(Strip(cues[i].speaker)))
  }

  lemma AllButLast(blocks: seq<string>, cues: seq<Cue>, n: nat)
    requires SpokenBlocks(blocks, cues) && |blocks| == n + 1
    ensures SpokenBlocks(blocks[..n], cues[..n]) && Printable(cues[n])
    ensures Classify(blocks[n]) == Spoken(Strip(cues[n].speaker))
    ensures blocks == blocks[..n] + [blocks[n]]
  {
    hide Classify, Strip, Printable;
  }

  /** Cue blocks behind blocks that are no cues. */
  lemma {:induction false} ParseSpoken(front: seq<string>, blocks: seq<string>, cues: seq<Cue>,
                                       parseDate: string -> Option<Date>)
    requires SpokenBlocks(blocks, cues) && ParseBlocks(front, parseDate).speakers == []
    ensures var before := ParseBlocks(front, parseDate);
            ParseBlocks(front + blocks, parseDate)
            == before.(speakers := FirstSeen(SpeakerNames(cues)), cueCount := before.cueCount + |cues|)
  {
    if blocks == [] {
      assert front + blocks == front;
    } else {
      hide ParseBlocks, Classify, AddBlock, AddSpeaker, Strip, FirstSeen, SpeakerNames, Printable;
      var n := |cues| - 1;
      AllButLast(blocks, cues, n);
      ParseSpoken(front, blocks[..n], cues[..n], parseDate);
      OneMoreBlock(front + blocks[..n], blocks[n], parseDate);
      ConcatAssociates(front, blocks[..n], [blocks[n]]);
      SpokenIsAdded(ParseBlocks(front + blocks[..n], parseDate), Strip(cues[n].speaker), parseDate);
      SpeakerIsNext(cues, n);
    }
  }

  lemma SpokenIsAdded(p: Parsed, speaker: string, parseDate: string -> Option<Date>)
    ensures AddBlock(p, Spoken(speaker), parseDate)
            == p.(cueCount := p.cueCount + 1, speakers := AddSpeaker(p.speakers, speaker))
  {
  }

  lemma OneMoreBlock(blocks: seq<string>, block: string, parseDate: string -> Option<Date>)
    ensures ParseBlocks(blocks + [block], parseDate)
            == AddBlock(ParseBlocks(blocks, parseDate), Classify(block), parseDate)
  {
    assert (blocks + [block])[..|blocks|] == blocks;
  }

  lemma SpeakerIsNext(cues: seq<Cue>, n: nat)
    requires n == |cues| - 1 && Printable(cues[n])
    ensures FirstSeen(SpeakerNames(cues)) == AddSpeaker(FirstSeen(SpeakerNames(cues[..n])), Strip(cues[n].speaker))
  {
    SpeakerIsVisible(cues[n].speaker);
    FirstSeenHasSameNames(SpeakerNames(cues[..n]), Strip(cues[n].speaker));
    assert SpeakerNames(cues)[..n + 1 - 1] == SpeakerNames(cues[..n]) by {
      NamesLength(cues[..n]);
    }
  }

  lemma {:induction false} NamesLength(cues: seq<Cue>)
    ensures |SpeakerNames(cues)| == |cues|
  {
    if cues != [] {
      NamesLength(cues[..|cues| - 1]);
    }
  }

  /**
   * Round trip: any non-empty list of cues, printed in the documented format, is parsed without a
   * warning, with every cue counted and the speakers listed once each in order of appearance.
   */
  lemma ParseInvertsPrint(cues: seq<Cue>, parseDate: string -> Option<Date>)
    requires cues != [] && forall c :: c in cues ==> Printable(c)
    ensures Parse(Print(cues), parseDate)
            == Success(Parsed(FirstSeen(SpeakerNames(cues)), None, |cues|, []))
  {
    hide *;
    var blocks := Blocks(cues, 1);
    PrintedBlocks(cues);
    BlocksAreSpoken(cues, 1);
    NothingBefore(blocks, parseDate);
    ParseSpoken([], blocks, cues, parseDate);
    ParseFromBlocks(Print(cues), blocks, parseDate);
  }

  lemma PrintedBlocks(cues: seq<Cue>)
    requires cues != [] && forall c :: c in cues ==> Printable(c)
    ensures HasHeader(Strip(Print(cues)))
    ensures SplitBlocks(Strip(Print(cues)), "")[1..] == Blocks(cues, 1)
  {
    StripOfPrint(cues);
    BlocksAreSolid(cues, 1);
    SplitText(Blocks(cues, 1));
  }

  lemma ParseFromBlocks(text: string, blocks: seq<string>, parseDate: string -> Option<Date>)
    requires HasHeader(Strip(text)) && SplitBlocks(Strip(text), "")[1..] == blocks
    requires ParseBlocks(blocks, parseDate).cueCount > 0
    ensures Parse(text, parseDate) == Success(ParseBlocks(blocks, parseDate))
  {
  }

  lemma SplitText(blocks: seq<string>)
    requires blocks != []
    requires forall b :: b in blocks ==> b != "" && b[0] != '\n' && Solid(b)
    ensures HasHeader("WEBVTT" + ("\n\n" + Glue(blocks)))
    ensures SplitBlocks("WEBVTT" + ("\n\n" + Glue(blocks)), "")[1..] == blocks
  {
    SplitGlued(blocks);
    HeaderIsSolid();
    SplitAtSeparator("WEBVTT", "", Glue(blocks));
  }

  lemma NothingBefore(blocks: seq<string>, parseDate: string -> Option<Date>)
    ensures [] + blocks == blocks && ParseBlocks([], parseDate) == Parsed([], None, 0, [])
  {
  }

  // ---- the date in a NOTE ---------------------------------------------------------------

  /** NOTE meeting-date: {value}, the two words in any case and any white space before the value. */
  function PrintNote(word: string, key: string, gap: string, value: string): string {
    word + " " + (key + (gap + value))
  }

  predicate PrintableNote(word: string, key: string, gap: string, value: string) {
    && Lower(word) == "note" && Lower(key) == "meeting-date:"
    && OneLine(gap) && Spaces(gap)
    && OneLine(value) && value != "" && !IsSpace(value[0]) && !IsSpace(value[|value| - 1])
  }

  lemma NoteLetters(word: string)
    requires Lower(word) == "note"
    ensures |word| == 4 && !IsSpace(word[0]) && OneLine(word)
    ensures UpperChar(word[0]) == 'N' && UpperChar(word[1]) == 'O' && UpperChar(word[2]) == 'T' && UpperChar(word[3]) == 'E'
  {
    assert Lower(word)[0] == 'n' && Lower(word)[1] == 'o' && Lower(word)[2] == 't' && Lower(word)[3] == 'e';
    assert LowerChar(word[0]) == 'n' && LowerChar(word[1]) == 'o' && LowerChar(word[2]) == 't' && LowerChar(word[3]) == 'e';
  }

  lemma KeyLetters(key: string)
    requires Lower(key) == "meeting-date:"
    ensures |key| == 13 && !IsSpace(key[0]) && OneLine(key)
  {
    assert |key| == |Lower(key)|;
    forall i | 0 <= i < |key| ensures !IsLineBreak(key[i]) && !IsSpace(key[i]) {
      assert LowerChar(key[i]) == Lower(key)[i] == "meeting-date:"[i];
      assert !IsSpace("meeting-date:"[i]);
    }
  }

  lemma StripOfTrimmed(s: string)
    requires s != "" && !IsSpace(s[0]) && !IsSpace(s[|s| - 1])
    ensures Strip(s) == s
  {
  }

  lemma NoteIsTrimmed(word: string, key: string, gap: string, value: string)
    requires PrintableNote(word, key, gap, value)
    ensures var note, body := PrintNote(word, key, gap, value), key + (gap + value);
            && note == word + (" " + body) && |word| == 4 && note != "" && body != ""
            && Strip(note) == note && Strip(body) == body && OneLine(note)
  {
    NoteLetters(word);
    KeyLetters(key);
    var note, body := PrintNote(word, key, gap, value), key + (gap + value);
    assert note == word + (" " + body);
    assert note[0] == word[0] && note[|note| - 1] == value[|value| - 1] == body[|body| - 1];
    StripOfTrimmed(note);
    StripOfTrimmed(body);
  }

  lemma NoteIsRead(word: string, key: string, gap: string, value: string)
    requires PrintableNote(word, key, gap, value)
    ensures var note := PrintNote(word, key, gap, value);
            && TextLines(note) == [note] && IsNoteLine(note) && NoteBody([note]) == key + (gap + value)
  {
    var note, body := PrintNote(word, key, gap, value), key + (gap + value);
    NoteIsTrimmed(word, key, gap, value);
    NoteLetters(word);
    hide *;
    NoteIsOneLine(note);
    WordIsRead(word, note, body);
    BodyIsRead(word, note, body);
  }

  lemma NoteIsOneLine(note: string)
    requires OneLine(note) && note != "" && Strip(note) == note
    ensures TextLines(note) == [note]
  {
    OnlyLine(note, "");
    assert "" + note == note;
    OneLineLeft(note);
  }

  lemma WordIsRead(word: string, note: string, body: string)
    requires note == word + (" " + body) && |word| == 4 && Strip(note) == note
    requires UpperChar(word[0]) == 'N' && UpperChar(word[1]) == 'O' && UpperChar(word[2]) == 'T' && UpperChar(word[3]) == 'E'
    ensures IsNoteLine(note)
  {
    hide Strip, UpperChar;
    assert note[0] == word[0] && note[1] == word[1] && note[2] == word[2] && note[3] == word[3];
  }

  lemma BodyIsRead(word: string, note: string, body: string)
    requires note == word + (" " + body) && |word| == 4 && Strip(note) == note && Strip(body) == body && body != ""
    ensures NoteBody([note]) == body
  {
    assert note[4..] == " " + body;
    LeadingSpace(body);
    OneLineLeft(body);
    hide Strip, NonBlank;
    assert [note][1..] == [] && Stripped([]) == [] && [body] + [] == [body];
  }

  lemma OneLineLeft(line: string)
    requires Strip(line) != ""
    ensures NonBlank([line]) == [line]
  {
    NonBlankCons(line, []);
    assert [line] + [] == [line] && NonBlank([]) == [];
  }

  lemma LeadingSpace(body: string)
    requires Strip(body) == body
    ensures Strip(" " + body) == body
  {
    assert (" " + body)[1..] == body;
  }

  lemma DateIsRead(key: string, gap: string, value: string)
    requires Lower(key) == "meeting-date:" && Spaces(gap)
    requires value != "" && !IsSpace(value[0]) && !IsSpace(value[|value| - 1])
    ensures DateValue(key + (gap + value)) == Some(value)
  {
    KeyLetters(key);
    var body := key + (gap + value);
    assert body[..13] == key && body[13..] == gap + value;
    StripRemovesSpaces(gap, value, "");
    assert gap + (value + "") == gap + value;
  }

  lemma NoteBlock(word: string, key: string, gap: string, value: string, parseDate: string -> Option<Date>)
    requires PrintableNote(word, key, gap, value)
    ensures ParseBlocks([PrintNote(word, key, gap, value)], parseDate)
            == Parsed([], parseDate(value), 0, if parseDate(value).None? then [BadDate(value)] else [])
  {
    hide TextLines, IsNoteLine, NoteBody, DateValue;
    var note := PrintNote(word, key, gap, value);
    NoteIsRead(word, key, gap, value);
    DateIsRead(key, gap, value);
    assert Classify(note) == Note(key + (gap + value));
    assert [note][..0] == [] && ParseBlocks([], parseDate) == Nothing;
  }

  /** The word may also stand alone, with what it introduces on the next line. */
  lemma NoteBelowIsRead(word: string, line: string)
    requires Lower(word) == "note" && OneLine(line)
    requires line != "" && !IsSpace(line[0]) && !IsSpace(line[|line| - 1])
    ensures Classify(word + "\n" + line) == Note(line)
  {
    NoteLetters(word);
    LastLetterIsVisible(word);
    StripOfTrimmed(word);
    StripOfTrimmed(line);
    LinesJoined([word, line]);
    assert [word, line][1..] == [line];
    OneLineLeft(line);
    assert Stripped([line]) == [line] by { assert [line][1..] == []; }
    assert [] + [line] == [line] && Join([line]) == line;
  }

  lemma LastLetterIsVisible(word: string)
    requires Lower(word) == "note"
    ensures |word| == 4 && !IsSpace(word[3])
  {
    assert LowerChar(word[3]) == Lower(word)[3] == 'e';
  }

  /** The header is a word of its own. */
  lemma HeaderIsAWord(rest: string)
    ensures HasHeader("WEBVTT" + rest) <==>
            rest == "" || !(rest[0] == '_' || '0' <= rest[0] <= '9' || 'a' <= rest[0] <= 'z' || 'A' <= rest[0] <= 'Z')
  {
  }

  /** A text that does not begin with the header, or in which no block is a cue, is no transcript. */
  lemma NoTranscript(text: string, parseDate: string -> Option<Date>)
    ensures Parse(text, parseDate) == Failure(NotWebVtt) <==> !HasHeader(Strip(text))
    ensures Parse(text, parseDate) == Failure(NoCues) <==>
            HasHeader(Strip(text)) && Count(SplitBlocks(Strip(text), "")[1..], IsCueKind) == 0
  {
    hide SplitBlocks, Strip, HasHeader, ParseBlocks, Count;
    Accounting(SplitBlocks(Strip(text), "")[1..], parseDate);
  }

  /** A transcript that states its date before its cues. */
  function PrintDated(note: string, cues: seq<Cue>): string
    requires cues != []
  {
    "WEBVTT" + "\n\n" + (note + "\n\n" + PrintFrom(cues, 1))
  }

  lemma NoteIsSolid(word: string, key: string, gap: string, value: string)
    requires PrintableNote(word, key, gap, value)
    ensures var note := PrintNote(word, key, gap, value); note != "" && note[0] != '\n' && Solid(note)
  {
    NoteLetters(word);
    KeyLetters(key);
    var note := PrintNote(word, key, gap, value);
    assert note[0] == word[0];
  }

  lemma StripOfDated(note: string, cues: seq<Cue>)
    requires cues != [] && note != ""
    ensures Strip(PrintDated(note, cues)) == "WEBVTT" + ("\n\n" + Glue([note] + Blocks(cues, 1)))
  {
    assert Blocks(cues, 1) != [];
    DatedStartsVisible(note, cues);
    hide RStrip, LStrip, PrintFrom, Glue, Blocks, PrintDated;
    RStripOfPrint(cues, 1);
    var front, rest := "WEBVTT" + "\n\n" + (note + "\n\n"), Glue(Blocks(cues, 1));
    RStripAppend(front, PrintFrom(cues, 1));
    GlueCons(note, Blocks(cues, 1));
    ConcatAssociates("WEBVTT", "\n\n", note + "\n\n");
    ConcatAssociates("WEBVTT", "\n\n" + (note + "\n\n"), rest);
    ConcatAssociates("\n\n", note + "\n\n", rest);
    ConcatAssociates(note, "\n\n", rest);
  }

  lemma DatedStartsVisible(note: string, cues: seq<Cue>)
    requires cues != []
    ensures LStrip(PrintDated(note, cues)) == PrintDated(note, cues)
    ensures PrintDated(note, cues) == "WEBVTT" + "\n\n" + (note + "\n\n") + PrintFrom(cues, 1)
  {
    hide PrintFrom;
    assert PrintDated(note, cues)[0] == 'W';
    ConcatAssociates("WEBVTT" + "\n\n", note + "\n\n", PrintFrom(cues, 1));
  }

  lemma GlueCons(block: string, rest: seq<string>)
    requires rest != []
    ensures Glue([block] + rest) == block + ("\n\n" + Glue(rest))
  {
    assert ([block] + rest)[1..] == rest;
  }

  /**
   * A printed NOTE meeting-date: v, the words in any case, gives the transcript the date that v is
   * read as, or one warning when v cannot be read, and changes nothing else.
   */
  lemma DatedTranscript(word: string, key: string, gap: string, value: string, cues: seq<Cue>,
                        parseDate: string -> Option<Date>)
    requires PrintableNote(word, key, gap, value)
    requires cues != [] && forall c :: c in cues ==> Printable(c)
    ensures Parse(PrintDated(word + " " + (key + (gap + value)), cues), parseDate)
            == Success(Parsed(FirstSeen(SpeakerNames(cues)), parseDate(value), |cues|,
                              if parseDate(value).None? then [BadDate(value)] else []))
  {
    hide *;
    var note := PrintNote(word, key, gap, value);
    NoteIs(word, key, gap, value);
    var blocks := Blocks(cues, 1);
    NoteIsSolid(word, key, gap, value);
    StripOfDated(note, cues);
    BlocksAreSolid(cues, 1);
    BlocksAreSpoken(cues, 1);
    SplitText([note] + blocks);
    NoteBlock(word, key, gap, value, parseDate);
    ParseSpoken([note], blocks, cues, parseDate);
    ParseFromBlocks(PrintDated(note, cues), [note] + blocks, parseDate);
  }

  lemma NoteIs(word: string, key: string, gap: string, value: string)
    ensures PrintNote(word, key, gap, value) == word + " " + (key + (gap + value))
  {
  }
}
