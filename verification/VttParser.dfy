/** The tolerant parser for WEBVTT transcripts. */
module VttParser {
  import opened Wrappers
  import opened Text

  /** A calendar date; which strings dateutil can read is left open. */
  type Date = int

  datatype Warning =
    | SkippedBlock(raw: string)
    | NoCueText
    | NoSpeaker(cue: string)
    | BadDate(value: string)

  datatype ParseError = NotWebVtt | NoCues

  datatype Parsed = Parsed(speakers: seq<string>, date: Option<Date>, cueCount: nat, warnings: seq<Warning>)

  const Nothing := Parsed([], None, 0, [])

  // ---- cutting the text into blocks and lines -------------------------------------------

  predicate IsWordChar(c: char) {
    IsDigit(c) || 'a' <= c <= 'z' || 'A' <= c <= 'Z' || c == '_'
  }

  /** ^WEBVTT\b */
  predicate HasHeader(s: string) {
    "WEBVTT" <= s && (|s| > 6 ==> !IsWordChar(s[6]))
  }

  function NewlineRun(s: string): nat
    ensures NewlineRun(s) <= |s|
  {
    if s != "" && s[0] == '\n' then 1 + NewlineRun(s[1..]) else 0
  }

  function CarriageReturn(s: string): nat
    ensures CarriageReturn(s) <= |s|
  {
    if s != "" && s[0] == '\r' then 1 else 0
  }

  /** The length of a match of \r?\n\r?\n+ at the start of s, or 0. */
  function SeparatorLength(s: string): (k: nat)
    ensures k <= |s|
  {
    var a := CarriageReturn(s);
    if a < |s| && s[a] == '\n' then
      var b := a + 1 + CarriageReturn(s[a + 1..]);
      if b < |s| && s[b] == '\n' then b + NewlineRun(s[b..]) else 0
    else 0
  }

  /** re.split at the separators; current is what has been read of the block at hand. */
  function SplitBlocks(s: string, current: string): (blocks: seq<string>)
    ensures blocks != []
    decreases |s|
  {
    if s == "" then [current]
    else if SeparatorLength(s) > 0 then [current] + SplitBlocks(s[SeparatorLength(s)..], "")
    else SplitBlocks(s[1..], current + [s[0]])
  }

  /** str.splitlines */
  function SplitLines(s: string, current: string): seq<string>
    decreases |s|
  {
    if s == "" then if current == "" then [] else [current]
    else if IsLineBreak(s[0]) then
      [current] + SplitLines(if |s| > 1 && s[0] == '\r' && s[1] == '\n' then s[2..] else s[1..], "")
    else SplitLines(s[1..], current + [s[0]])
  }

  function NonBlank(lines: seq<string>): seq<string> {
    if lines == [] then []
    else (if Strip(lines[0]) != "" then [lines[0]] else []) + NonBlank(lines[1..])
  }

  /** Blank lines are dropped, the others kept in order. */
  lemma {:induction false} BlankLinesAreDropped(before: seq<string>, line: string, after: seq<string>)
    ensures NonBlank(before + ([line] + after))
            == NonBlank(before) + (if Spaces(line) then [] else [line]) + NonBlank(after)
  {
    if before == [] {
      assert before + ([line] + after) == [line] + after && ([line] + after)[1..] == after;
      BlankIsSpaces(line);
    } else {
      assert (before + ([line] + after))[1..] == before[1..] + ([line] + after);
      BlankLinesAreDropped(before[1..], line, after);
    }
  }

  lemma BlankIsSpaces(line: string)
    ensures Strip(line) == "" <==> Spaces(line)
  {
    if Spaces(line) {
      StripRemovesSpaces(line, "", "");
      assert line + ("" + "") == line;
    } else {
      var i :| 0 <= i < |line| && !IsSpace(line[i]);
      StripOfVisible(line, i);
    }
  }

  function TextLines(block: string): seq<string> {
    NonBlank(SplitLines(block, ""))
  }

  function Newlines(k: nat): (s: string)
    ensures |s| == k && forall i :: 0 <= i < k ==> s[i] == '\n'
  {
    seq(k, _ => '\n')
  }

  function Return(written: bool): string {
    if written then "\r" else ""
  }

  lemma {:induction false} NewlinesAreCounted(k: nat, rest: string)
    requires rest != "" ==> rest[0] != '\n'
    ensures NewlineRun(Newlines(k) + rest) == k
    decreases k
  {
    if k > 0 {
      assert (Newlines(k) + rest)[1..] == Newlines(k - 1) + rest;
      NewlinesAreCounted(k - 1, rest);
    } else {
      assert Newlines(k) + rest == rest;
    }
  }

  lemma ReturnIsRead(written: bool, rest: string)
    requires rest != "" && rest[0] == '\n'
    ensures CarriageReturn(Return(written) + rest) == |Return(written)|
    ensures (Return(written) + rest)[|Return(written)|..] == rest
  {
  }

  /** A line end and then more of them, the first two with or without a carriage return, separate two blocks. */
  lemma SeparatorIsRead(first: bool, second: bool, k: nat, rest: string)
    requires k >= 1 && (rest != "" ==> rest[0] != '\n')
    ensures SeparatorLength(Return(first) + ("\n" + (Return(second) + (Newlines(k) + rest))))
            == |Return(first)| + 1 + |Return(second)| + k
  {
    hide NewlineRun, CarriageReturn, Return, Newlines;
    var last := Newlines(k) + rest;
    var middle := Return(second) + last;
    NewlinesAreCounted(k, rest);
    ReturnIsRead(second, last);
    ReturnIsRead(first, "\n" + middle);
    var s, a := Return(first) + ("\n" + middle), |Return(first)|;
    assert s[a..] == "\n" + middle;
    assert s[a] == '\n' && s[a + 1..] == middle;
    assert s[a + 1 + |Return(second)|..] == last;
  }

  /** Nothing else does. */
  lemma SeparatorHasThatForm(s: string) returns (first: bool, second: bool, k: nat)
    requires SeparatorLength(s) > 0
    ensures k >= 1
    ensures s[..SeparatorLength(s)] == Return(first) + "\n" + Return(second) + Newlines(k)
    ensures SeparatorLength(s) < |s| ==> s[SeparatorLength(s)] != '\n'
  {
    var a := CarriageReturn(s);
    var b := a + 1 + CarriageReturn(s[a + 1..]);
    first, second, k := a == 1, b == a + 2, NewlineRun(s[b..]);
    RunOfNewlines(s[b..]);
    var n := b + k;
    assert n == SeparatorLength(s) && s[b..][..k] == s[b..n];
    assert n < |s| ==> s[n] == s[b..][k];
    assert s[..n] == s[..a] + [s[a]] + s[a + 1..b] + s[b..n];
    assert s[..a] == Return(first) && s[a + 1..b] == Return(second);
  }

  lemma {:induction false} RunOfNewlines(s: string)
    ensures s[..NewlineRun(s)] == Newlines(NewlineRun(s))
    ensures NewlineRun(s) < |s| ==> s[NewlineRun(s)] != '\n'
  {
    if s != "" && s[0] == '\n' {
      RunOfNewlines(s[1..]);
      assert s[..NewlineRun(s)] == [s[0]] + s[1..][..NewlineRun(s[1..])];
    }
  }

  /** A line ends at any of the characters that end lines, and a carriage return and a newline are one end. */
  lemma {:induction false} LineEnds(line: string, end: string, rest: string, current: string)
    requires forall i :: 0 <= i < |line| ==> !IsLineBreak(line[i])
    requires end == "\r\n" || (|end| == 1 && IsLineBreak(end[0]) && (end == "\r" && rest != "" ==> rest[0] != '\n'))
    ensures SplitLines(line + (end + rest), current) == [current + line] + SplitLines(rest, "")
    decreases |line|
  {
    var s := line + (end + rest);
    if line == "" {
      assert s == end + rest && s[|end|..] == rest && current + line == current;
      assert |end| == 2 ==> s[0] == '\r' && s[1] == '\n';
      assert |end| == 1 ==> s[0] == end[0] && s[1..] == rest;
    } else {
      assert s[1..] == line[1..] + (end + rest);
      LineEnds(line[1..], end, rest, current + [line[0]]);
      assert current + [line[0]] + line[1..] == current + line;
    }
  }

  // ---- reading lines --------------------------------------------------------------------

  function UpperChar(c: char): char {
    if 'a' <= c <= 'z' then ((c as int) - 32) as char else c
  }

  predicate IsNoteLine(line: string) {
    var t := Strip(line);
    |t| >= 4 && UpperChar(t[0]) == 'N' && UpperChar(t[1]) == 'O' && UpperChar(t[2]) == 'T' && UpperChar(t[3]) == 'E'
  }

  predicate IsNumber(s: string) {
    s != "" && forall i :: 0 <= i < |s| ==> IsDigit(s[i])
  }

  predicate HasArrow(s: string) {
    |s| >= 3 && (s[..3] == "-->" || HasArrow(s[1..]))
  }

  /** The position of the first colon, or the length. */
  function FirstColon(s: string): (p: nat)
    ensures p <= |s|
    ensures forall i :: 0 <= i < p ==> s[i] != ':'
    ensures p < |s| ==> s[p] == ':'
  {
    if s == "" || s[0] == ':' then 0 else 1 + FirstColon(s[1..])
  }

  /** ^(?P<speaker>[^:\n]{1,100}):\s?(?P<text>.*)$ on a text that is a single line. */
  predicate HasLabel(cue: string) {
    FirstColon(cue) < |cue| && 1 <= FirstColon(cue) <= 100
  }

  function Stripped(lines: seq<string>): seq<string> {
    if lines == [] then [] else [Strip(lines[0])] + Stripped(lines[1..])
  }

  /** The text of a NOTE block: what follows the word, then the further lines. */
  function NoteBody(lines: seq<string>): string
    requires lines != []
  {
    var first := Strip(lines[0]);
    Join(NonBlank((if |first| > 4 then [Strip(first[4..])] else []) + Stripped(lines[1..])))
  }

  const DATE_KEY := "meeting-date:"

  /** ^meeting-date:\s*(?P<value>.+)$, ignoring case. */
  function DateValue(body: string): Option<string> {
    if |body| > |DATE_KEY| && Lower(body[..|DATE_KEY|]) == DATE_KEY then Some(Strip(body[|DATE_KEY|..]))
    else None
  }

  // ---- what a block is ------------------------------------------------------------------

  datatype Kind =
    | Blank
    | Note(body: string)
    | Skipped(warning: Warning)
    | Unlabelled(cue: string)
    | Spoken(speaker: string)

  function Prefix80(s: string): string {
    if |s| <= 80 then s else s[..80]
  }

  function CueLines(lines: seq<string>): seq<string>
    requires lines != []
  {
    if IsNumber(Strip(lines[0])) then lines[1..] else lines
  }

  function Classify(raw: string): Kind {
    var lines := TextLines(raw);
    if lines == [] then Blank
    else if IsNoteLine(lines[0]) then Note(NoteBody(lines))
    else
      var cue := CueLines(lines);
      if cue == [] || !HasArrow(cue[0]) then Skipped(SkippedBlock(Prefix80(raw)))
      else if |cue| == 1 then Skipped(NoCueText)
      else
        var text := Strip(Join(cue[1..]));
        if HasLabel(text) then Spoken(Strip(text[..FirstColon(text)])) else Unlabelled(text)
  }

  function AddSpeaker(speakers: seq<string>, speaker: string): seq<string> {
    if speaker != "" && speaker !in speakers then speakers + [speaker] else speakers
  }

  function AddNote(p: Parsed, body: string, parseDate: string -> Option<Date>): Parsed {
    if p.date.Some? || DateValue(body).None? then p
    else
      var value := DateValue(body).value;
      if parseDate(value).Some? then p.(date := parseDate(value))
      else p.(warnings := p.warnings + [BadDate(value)])
  }

  function AddBlock(p: Parsed, kind: Kind, parseDate: string -> Option<Date>): Parsed {
    match kind
    case Blank => p
    case Note(body) => AddNote(p, body, parseDate)
    case Skipped(w) => p.(warnings := p.warnings + [w])
    case Unlabelled(cue) =>
      p.(cueCount := p.cueCount + 1, warnings := p.warnings + [NoSpeaker(Prefix80(cue))])
    case Spoken(speaker) => p.(cueCount := p.cueCount + 1, speakers := AddSpeaker(p.speakers, speaker))
  }

  function ParseBlocks(blocks: seq<string>, parseDate: string -> Option<Date>): Parsed {
    if blocks == [] then Nothing
    else
      AddBlock(ParseBlocks(blocks[..|blocks| - 1], parseDate), Classify(blocks[|blocks| - 1]), parseDate)
  }

  function Parse(text: string, parseDate: string -> Option<Date>): Result<Parsed, ParseError> {
    var stripped := Strip(text);
    if !HasHeader(stripped) then Failure(NotWebVtt)
    else
      var p := ParseBlocks(SplitBlocks(stripped, "")[1..], parseDate);
      if p.cueCount == 0 then Failure(NoCues) else Success(p)
  }

  /** The result under construction, updated block by block. */
  class Transcript {
    var speakers: seq<string>
    var date: Option<Date>
    var cueCount: nat
    var warnings: seq<Warning>

    constructor ()
      ensures State() == Nothing
    {
      speakers, date, cueCount, warnings := [], None, 0, [];
    }

    function State(): Parsed
      reads this
    {
      Parsed(speakers, date, cueCount, warnings)
    }

    method HandleCueBlock(lines: seq<string>, raw: string)
      requires lines != [] && lines == TextLines(raw) && !IsNoteLine(lines[0])
      modifies this
      ensures forall parseDate :: State() == AddBlock(old(State()), Classify(raw), parseDate)
    {
      hide TextLines, Strip, Join, HasArrow, IsNumber, Prefix80;
      var cue := lines;
      if IsNumber(Strip(cue[0])) {
        cue := cue[1..];
      }
      if cue == [] || !HasArrow(cue[0]) {
        warnings := warnings + [SkippedBlock(Prefix80(raw))];
        return;
      }
      var textLines := cue[1..];
      if textLines == [] {
        warnings := warnings + [NoCueText];
        return;
      }
      cueCount := cueCount + 1;
      var text := Strip(Join(textLines));
      var p := FirstColon(text);
      if p == |text| || p < 1 || p > 100 {
        warnings := warnings + [NoSpeaker(Prefix80(text))];
        return;
      }
      var speaker := Strip(text[..p]);
      if speaker != "" && speaker !in speakers {
        speakers := speakers + [speaker];
      }
    }

    method HandleNoteBlock(lines: seq<string>, parseDate: string -> Option<Date>)
      requires lines != []
      modifies this
      ensures State() == AddNote(old(State()), NoteBody(lines), parseDate)
    {
      if date.Some? {
        return;
      }
      var body := NoteBody(lines);
      var value := DateValue(body);
      if value.None? {
        return;
      }
      var parsed := parseDate(value.value);
      if parsed.None? {
        warnings := warnings + [BadDate(value.value)];
        return;
      }
      date := parsed;
    }
  }

  method ParseVtt(text: string, parseDate: string -> Option<Date>) returns (r: Result<Parsed, ParseError>)
    ensures r == Parse(text, parseDate)
  {
    var stripped := Strip(text);
    if !HasHeader(stripped) {
      return Failure(NotWebVtt);
    }
    var blocks := SplitBlocks(stripped, "")[1..];
    var result := new Transcript();
    for i := 0 to |blocks|
      invariant result.State() == ParseBlocks(blocks[..i], parseDate)
    {
      assert blocks[..i + 1][..i] == blocks[..i];
      var lines := TextLines(blocks[i]);
      if lines == [] {
        continue;
      }
      if IsNoteLine(lines[0]) {
        result.HandleNoteBlock(lines, parseDate);
        continue;
      }
      result.HandleCueBlock(lines, blocks[i]);
    }
    assert blocks[..|blocks|] == blocks;
    if result.cueCount == 0 {
      return Failure(NoCues);
    }
    return Success(result.State());
  }

  // ---- projection and accounting --------------------------------------------------------

  /** The distinct names of a list, each where it first occurs. */
  function FirstSeen(names: seq<string>): seq<string> {
    if names == [] then []
    else
      var init, last := names[..|names| - 1], names[|names| - 1];
      FirstSeen(init) + (if last in init then [] else [last])
  }

  lemma {:induction false} FirstSeenHasSameNames(names: seq<string>, x: string)
    ensures x in FirstSeen(names) <==> x in names
  {
    if names != [] {
      var init, last := names[..|names| - 1], names[|names| - 1];
      assert names == init + [last];
      FirstSeenHasSameNames(init, x);
      FirstSeenHasSameNames(init, last);
    }
  }

  lemma {:induction false} FirstSeenHasNoRepeats(names: seq<string>)
    ensures forall i, j :: 0 <= i < j < |FirstSeen(names)| ==> FirstSeen(names)[i] != FirstSeen(names)[j]
  {
    if names != [] {
      var init, last := names[..|names| - 1], names[|names| - 1];
      FirstSeenHasNoRepeats(init);
      FirstSeenHasSameNames(init, last);
    }
  }

  /** The names are listed in the order in which they first occur. */
  lemma {:induction false} FirstSeenInOrder(names: seq<string>, i: nat, j: nat) returns (p: nat, q: nat)
    requires i < j < |FirstSeen(names)|
    ensures p < q < |names| && names[p] == FirstSeen(names)[i] && names[q] == FirstSeen(names)[j]
    ensures names[q] !in names[..q]
  {
    var init, last := names[..|names| - 1], names[|names| - 1];
    if j < |FirstSeen(init)| {
      p, q := FirstSeenInOrder(init, i, j);
      assert names[..q] == init[..q];
    } else {
      q := |init|;
      FirstSeenHasSameNames(init, FirstSeen(init)[i]);
      p :| 0 <= p < |init| && init[p] == FirstSeen(init)[i];
    }
  }

  predicate IsNoteKind(k: Kind) { k.Note? }
  predicate IsCueKind(k: Kind) { k.Spoken? || k.Unlabelled? }

  function Labels(blocks: seq<string>): seq<string> {
    if blocks == [] then []
    else
      var init, last := blocks[..|blocks| - 1], Classify(blocks[|blocks| - 1]);
      Labels(init) + (if last.Spoken? && last.speaker != "" then [last.speaker] else [])
  }

  function Keep(blocks: seq<string>, keep: Kind -> bool): seq<string> {
    if blocks == [] then []
    else
      var init, last := blocks[..|blocks| - 1], blocks[|blocks| - 1];
      Keep(init, keep) + (if keep(Classify(last)) then [last] else [])
  }

  /** The date of the first NOTE whose value can be read. */
  function FirstDate(blocks: seq<string>, parseDate: string -> Option<Date>): Option<Date> {
    if blocks == [] then None
    else
      var k := Classify(blocks[0]);
      if k.Note? && DateValue(k.body).Some? && parseDate(DateValue(k.body).value).Some? then
        parseDate(DateValue(k.body).value)
      else FirstDate(blocks[1..], parseDate)
  }

  lemma {:induction false} FirstDateSnoc(blocks: seq<string>, last: string, parseDate: string -> Option<Date>)
    ensures FirstDate(blocks + [last], parseDate)
            == if FirstDate(blocks, parseDate).Some? then FirstDate(blocks, parseDate)
               else FirstDate([last], parseDate)
  {
    if blocks == [] {
      assert [] + [last] == [last];
    } else {
      assert (blocks + [last])[1..] == blocks[1..] + [last];
      FirstDateSnoc(blocks[1..], last, parseDate);
    }
  }

  lemma {:induction false} SpeakersOfBlocks(blocks: seq<string>, parseDate: string -> Option<Date>)
    ensures ParseBlocks(blocks, parseDate).speakers == FirstSeen(Labels(blocks))
  {
    if blocks != [] {
      hide Classify, AddNote;
      var init, k := blocks[..|blocks| - 1], Classify(blocks[|blocks| - 1]);
      SpeakersOfBlocks(init, parseDate);
      NoteKeepsSpeakers(ParseBlocks(init, parseDate), if k.Note? then k.body else "", parseDate);
      if k.Spoken? && k.speaker != "" {
        assert Labels(blocks)[..|Labels(blocks)| - 1] == Labels(init);
        FirstSeenHasSameNames(Labels(init), k.speaker);
      } else {
        assert Labels(blocks) == Labels(init);
      }
    }
  }

  lemma NoteKeepsSpeakers(p: Parsed, body: string, parseDate: string -> Option<Date>)
    ensures AddNote(p, body, parseDate).speakers == p.speakers
  {
  }

  lemma AddedDate(p: Parsed, k: Kind, parseDate: string -> Option<Date>)
    ensures AddBlock(p, k, parseDate).date
            == if p.date.Some? then p.date
               else if k.Note? && DateValue(k.body).Some? then parseDate(DateValue(k.body).value) else None
  {
    hide DateValue;
  }

  lemma {:induction false} DateOfBlocks(blocks: seq<string>, parseDate: string -> Option<Date>)
    ensures ParseBlocks(blocks, parseDate).date == FirstDate(blocks, parseDate)
  {
    if blocks != [] {
      hide Classify, DateValue, AddBlock;
      var init, last := blocks[..|blocks| - 1], blocks[|blocks| - 1];
      assert blocks == init + [last];
      DateOfBlocks(init, parseDate);
      AddedDate(ParseBlocks(init, parseDate), Classify(last), parseDate);
      FirstDateSnoc(init, last, parseDate);
      assert [last][1..] == [];
      assert FirstDate([], parseDate) == None;
    }
  }

  /** The speakers are the labels in order of first appearance; the date is that of the first readable NOTE. */
  lemma SpeakersAndDate(blocks: seq<string>, parseDate: string -> Option<Date>)
    ensures ParseBlocks(blocks, parseDate).speakers == FirstSeen(Labels(blocks))
    ensures ParseBlocks(blocks, parseDate).date == FirstDate(blocks, parseDate)
  {
    hide *;
    SpeakersOfBlocks(blocks, parseDate);
    DateOfBlocks(blocks, parseDate);
  }

  lemma {:induction false} KeepCues(blocks: seq<string>)
    ensures Labels(Keep(blocks, IsCueKind)) == Labels(blocks)
  {
    if blocks != [] {
      var init, last := blocks[..|blocks| - 1], blocks[|blocks| - 1];
      KeepCues(init);
      if IsCueKind(Classify(last)) {
        assert (Keep(init, IsCueKind) + [last])[..|Keep(init, IsCueKind)|] == Keep(init, IsCueKind);
      } else {
        assert Keep(blocks, IsCueKind) == Keep(init, IsCueKind);
        assert Labels(blocks) == Labels(init);
      }
    }
  }

  lemma {:induction false} KeepNotes(blocks: seq<string>, parseDate: string -> Option<Date>)
    ensures FirstDate(Keep(blocks, IsNoteKind), parseDate) == FirstDate(blocks, parseDate)
  {
    if blocks != [] {
      var init, last := blocks[..|blocks| - 1], blocks[|blocks| - 1];
      assert blocks == init + [last];
      KeepNotes(init, parseDate);
      FirstDateSnoc(init, last, parseDate);
      if IsNoteKind(Classify(last)) {
        FirstDateSnoc(Keep(init, IsNoteKind), last, parseDate);
      } else {
        assert Keep(blocks, IsNoteKind) == Keep(init, IsNoteKind);
        assert [last][1..] == [];
      }
    }
  }

  /** However cue and NOTE blocks interleave, each field of the result depends on its own kind of block only. */
  lemma Projection(blocks: seq<string>, parseDate: string -> Option<Date>)
    ensures ParseBlocks(blocks, parseDate).speakers == ParseBlocks(Keep(blocks, IsCueKind), parseDate).speakers
    ensures ParseBlocks(blocks, parseDate).date == ParseBlocks(Keep(blocks, IsNoteKind), parseDate).date
  {
    SpeakersAndDate(blocks, parseDate);
    SpeakersAndDate(Keep(blocks, IsCueKind), parseDate);
    SpeakersAndDate(Keep(blocks, IsNoteKind), parseDate);
    KeepCues(blocks);
    KeepNotes(blocks, parseDate);
  }

  function Count(blocks: seq<string>, which: Kind -> bool): nat {
    |Keep(blocks, which)|
  }

  /** The NOTE blocks with an unreadable date that were tried, no date being known yet. */
  function BadDates(blocks: seq<string>, parseDate: string -> Option<Date>): nat {
    if blocks == [] then 0
    else
      var init, k := blocks[..|blocks| - 1], Classify(blocks[|blocks| - 1]);
      BadDates(init, parseDate)
      + (if k.Note? && FirstDate(init, parseDate).None? && DateValue(k.body).Some?
            && parseDate(DateValue(k.body).value).None? then 1 else 0)
  }

  /** Every block that is not blank is a NOTE, a counted cue, or a skipped block; each warning has its cause. */
  lemma {:induction false} Accounting(blocks: seq<string>, parseDate: string -> Option<Date>)
    ensures var p := ParseBlocks(blocks, parseDate);
            && Count(blocks, (k: Kind) => !k.Blank?)
               == Count(blocks, IsNoteKind) + p.cueCount + Count(blocks, (k: Kind) => k.Skipped?)
            && p.cueCount == Count(blocks, IsCueKind)
            && |p.warnings|
               == Count(blocks, (k: Kind) => k.Skipped?) + Count(blocks, (k: Kind) => k.Unlabelled?)
                  + BadDates(blocks, parseDate)
  {
    if blocks != [] {
      var init := blocks[..|blocks| - 1];
      Accounting(init, parseDate);
      SpeakersAndDate(init, parseDate);
    }
  }
}
