/** Recognising a reply to a weekly report: by the messages it refers to, or by a report it mentions. */
module ReportMatcher {
  import opened Wrappers
  import opened Text
  import opened GroupMatching
  import opened Outbox
  import opened OutboxRuns
  import ThreadMatcher

  /** The reports table, as far as a reply needs it: each report's owner. */
  type Owners = map<string, string>

  // ---- the tokens of the reference headers ----------------------------------------------

  function Tokens(h: ThreadMatcher.Headers): seq<string> {
    Words(if h.inReplyTo.Some? then h.inReplyTo.value else "", "")
    + Words(if h.references.Some? then h.references.value else "", "")
  }

  // ---- WEEKLY-YYYY-MM-DD-NNNN in text ---------------------------------------------------

  const REPORT_ID_LENGTH := 22

  predicate ReportIdAtStart(s: string)
    ensures ReportIdAtStart(s) ==> |s| >= REPORT_ID_LENGTH
  {
    && |s| >= REPORT_ID_LENGTH && s[..7] == REPORT_ID_START
    && s[11] == '-' && s[14] == '-' && s[17] == '-'
    && forall k :: 7 <= k < REPORT_ID_LENGTH && k != 11 && k != 14 && k != 17 ==> IsDigit(s[k])
  }

  predicate DigitRun(s: string, n: nat) {
    |s| == n && forall i :: 0 <= i < n ==> IsDigit(s[i])
  }

  /** WEEKLY, a date, and a number. */
  lemma ReportIdsLookLikeThis(year: string, month: string, day: string, number: string)
    requires DigitRun(year, 4) && DigitRun(month, 2) && DigitRun(day, 2) && DigitRun(number, 4)
    ensures ReportIdAtStart("WEEKLY-" + year + "-" + month + "-" + day + "-" + number)
  {
    var s := "WEEKLY-" + year + "-" + month + "-" + day + "-" + number;
    assert s[..7] == "WEEKLY-";
  }

  function FindReportIds(s: string): (ids: seq<string>)
    ensures forall i :: 0 <= i < |ids| ==> ReportIdAtStart(ids[i]) && |ids[i]| == REPORT_ID_LENGTH
    decreases |s|
  {
    if s == "" then []
    else if ReportIdAtStart(s) then [s[..REPORT_ID_LENGTH]] + FindReportIds(s[REPORT_ID_LENGTH..])
    else FindReportIds(s[1..])
  }

  // ---- the lookup -----------------------------------------------------------------------

  predicate LinkedTo(l: Link, owners: Owners, ref: string, sender: string) {
    l.messageId == ref && l.jobId.Some? && l.jobId.value in owners && Lower(owners[l.jobId.value]) == Lower(sender)
  }

  /** The newest link of the message to a report of the sender. */
  function ByLink(links: seq<Link>, owners: Owners, ref: string, sender: string): Option<string> {
    if links == [] then None
    else
      var l := links[|links| - 1];
      if LinkedTo(l, owners, ref, sender) then l.jobId else ByLink(links[..|links| - 1], owners, ref, sender)
  }

  function FirstLinked(refs: seq<string>, links: seq<Link>, owners: Owners, sender: string): Option<string> {
    if refs == [] then None
    else
      var found := ByLink(links, owners, refs[0], sender);
      if found.Some? then found else FirstLinked(refs[1..], links, owners, sender)
  }

  function FirstMentioned(c: Casing, ids: seq<string>, owners: Owners, sender: string): Option<string> {
    if ids == [] then None
    else if ids[0] in owners && c.casefold(owners[ids[0]]) == c.casefold(sender) then Some(ids[0])
    else FirstMentioned(c, ids[1..], owners, sender)
  }

  /** _match_report, with its headers read as they are meant to be: In-Reply-To, then References. */
  function MatchReport(c: Casing, h: ThreadMatcher.Headers, links: seq<Link>, owners: Owners, sender: string): Option<string> {
    var linked := FirstLinked(Tokens(h), links, owners, sender);
    if linked.Some? then linked else FirstMentioned(c, FindReportIds(h.subject + " " + h.body), owners, sender)
  }

  // ---- only own reports, and the right one ----------------------------------------------

  lemma {:induction false} ByLinkIsALink(links: seq<Link>, owners: Owners, ref: string, sender: string)
    ensures ByLink(links, owners, ref, sender).Some? <==> exists l :: l in links && LinkedTo(l, owners, ref, sender)
    ensures ByLink(links, owners, ref, sender).Some? ==>
              exists l :: l in links && LinkedTo(l, owners, ref, sender) && l.jobId == ByLink(links, owners, ref, sender)
  {
    if links != [] {
      var init, last := links[..|links| - 1], links[|links| - 1];
      assert links == init + [last];
      ByLinkIsALink(init, owners, ref, sender);
      if LinkedTo(last, owners, ref, sender) {
        assert last in links;
      } else if ByLink(init, owners, ref, sender).Some? {
        var l :| l in init && LinkedTo(l, owners, ref, sender) && l.jobId == ByLink(init, owners, ref, sender);
        assert l in links;
      }
    }
  }

  predicate Owns(c: Casing, owners: Owners, id: string, sender: string) {
    id in owners && (Lower(owners[id]) == Lower(sender) || c.casefold(owners[id]) == c.casefold(sender))
  }

  lemma {:induction false} FirstLinkedIsOwned(c: Casing, refs: seq<string>, links: seq<Link>, owners: Owners, sender: string)
    ensures var found := FirstLinked(refs, links, owners, sender); found.Some? ==> Owns(c, owners, found.value, sender)
  {
    if refs != [] {
      ByLinkIsALink(links, owners, refs[0], sender);
      FirstLinkedIsOwned(c, refs[1..], links, owners, sender);
    }
  }

  lemma {:induction false} FirstMentionedIsOwned(c: Casing, ids: seq<string>, owners: Owners, sender: string)
    ensures var found := FirstMentioned(c, ids, owners, sender); found.Some? ==> Owns(c, owners, found.value, sender)
  {
    if ids != [] {
      FirstMentionedIsOwned(c, ids[1..], owners, sender);
    }
  }

  /** Whatever a message refers to or mentions, it is taken for a reply to a report of its own sender only. */
  lemma OnlyOwnReportsMatch(c: Casing, h: ThreadMatcher.Headers, links: seq<Link>, owners: Owners, sender: string)
    ensures var found := MatchReport(c, h, links, owners, sender); found.Some? ==> Owns(c, owners, found.value, sender)
  {
    FirstLinkedIsOwned(c, Tokens(h), links, owners, sender);
    FirstMentionedIsOwned(c, FindReportIds(h.subject + " " + h.body), owners, sender);
  }

  // ---- a report that is mentioned -------------------------------------------------------

  /** The identifier stands in the text from position k on. */
  predicate StandsAt(s: string, k: int, id: string) {
    0 <= k && k + REPORT_ID_LENGTH <= |s| && s[k..k + REPORT_ID_LENGTH] == id && ReportIdAtStart(id)
  }

  lemma StartsHere(s: string)
    ensures ReportIdAtStart(s) <==> |s| >= REPORT_ID_LENGTH && StandsAt(s, 0, s[..REPORT_ID_LENGTH])
  {
    if |s| >= REPORT_ID_LENGTH {
      var id := s[..REPORT_ID_LENGTH];
      assert id[..7] == s[..7];
      assert forall i :: 0 <= i < REPORT_ID_LENGTH ==> id[i] == s[i];
    }
  }

  lemma OnlyTheFirstIsW(s: string, k: nat)
    requires ReportIdAtStart(s) && k < REPORT_ID_LENGTH
    ensures s[k] == 'W' <==> k == 0
  {
    if k < 7 {
      assert s[k] == s[..7][k] == REPORT_ID_START[k];
    }
  }

  lemma NothingStartsInside(s: string, k: int, id: string)
    requires ReportIdAtStart(s) && 1 <= k < REPORT_ID_LENGTH
    ensures !StandsAt(s, k, id)
  {
    OnlyTheFirstIsW(s, k);
    if ReportIdAtStart(id) {
      OnlyTheFirstIsW(id, 0);
    }
  }

  predicate OwnedBy(c: Casing, owners: Owners, id: string, sender: string) {
    id in owners && c.casefold(owners[id]) == c.casefold(sender)
  }

  /** A report of the sender's stands at k, and none before. */
  ghost predicate FirstOwned(c: Casing, s: string, owners: Owners, sender: string, k: int, id: string) {
    && StandsAt(s, k, id) && OwnedBy(c, owners, id, sender)
    && forall j, other :: j < k && StandsAt(s, j, other) ==> !OwnedBy(c, owners, other, sender)
  }

  lemma Shifted(s: string, n: nat, k: int, id: string)
    requires n <= |s|
    ensures k >= 0 ==> (StandsAt(s[n..], k, id) <==> StandsAt(s, n + k, id))
  {
    if k >= 0 && n + k + REPORT_ID_LENGTH <= |s| {
      assert s[n..][k..k + REPORT_ID_LENGTH] == s[n + k..n + k + REPORT_ID_LENGTH];
    }
  }

  lemma {:induction false} FirstMentionedStands(c: Casing, s: string, owners: Owners, sender: string)
    ensures var found := FirstMentioned(c, FindReportIds(s), owners, sender);
            && (found.Some? ==> exists k :: FirstOwned(c, s, owners, sender, k, found.value))
            && (found.None? ==> forall k, id :: StandsAt(s, k, id) ==> !OwnedBy(c, owners, id, sender))
    decreases |s|
  {
    if s != "" {
      StartsHere(s);
      var id0 := if ReportIdAtStart(s) then s[..REPORT_ID_LENGTH] else "";
      if ReportIdAtStart(s) && OwnedBy(c, owners, id0, sender) {
        assert FirstOwned(c, s, owners, sender, 0, id0);
      } else {
        NoneStandsBefore(c, s, owners, sender);
        var n := if ReportIdAtStart(s) then REPORT_ID_LENGTH else 1;
        FirstMentionedStands(c, s[n..], owners, sender);
        hide ReportIdAtStart, StandsAt, OwnedBy;
        forall k, id | k >= 0 ensures StandsAt(s[n..], k, id) <==> StandsAt(s, n + k, id) {
          Shifted(s, n, k, id);
        }
        MovesOn(c, s, n, owners, sender);
      }
    }
  }

  /** Neither at the start nor inside what is skipped does a report of the sender's stand. */
  lemma NoneStandsBefore(c: Casing, s: string, owners: Owners, sender: string)
    requires s != "" && (ReportIdAtStart(s) ==> !OwnedBy(c, owners, s[..REPORT_ID_LENGTH], sender))
    ensures var n := if ReportIdAtStart(s) then REPORT_ID_LENGTH else 1;
            forall j, other :: j < n && StandsAt(s, j, other) ==> !OwnedBy(c, owners, other, sender)
  {
    StartsHere(s);
    forall j, other | j < (if ReportIdAtStart(s) then REPORT_ID_LENGTH else 1) && StandsAt(s, j, other)
      ensures !OwnedBy(c, owners, other, sender)
    {
      if j > 0 {
        NothingStartsInside(s, j, other);
      }
    }
  }

  lemma MovesOn(c: Casing, s: string, n: nat, owners: Owners, sender: string)
    requires n <= |s|
    requires forall j, other :: j < n && StandsAt(s, j, other) ==> !OwnedBy(c, owners, other, sender)
    requires forall k, id :: k >= 0 ==> (StandsAt(s[n..], k, id) <==> StandsAt(s, n + k, id))
    ensures forall k, id :: FirstOwned(c, s[n..], owners, sender, k, id) ==> FirstOwned(c, s, owners, sender, n + k, id)
    ensures (forall k, id :: StandsAt(s[n..], k, id) ==> !OwnedBy(c, owners, id, sender))
            ==> forall k, id :: StandsAt(s, k, id) ==> !OwnedBy(c, owners, id, sender)
  {
    hide OwnedBy;
    forall k, id | FirstOwned(c, s[n..], owners, sender, k, id)
      ensures FirstOwned(c, s, owners, sender, n + k, id)
    {
      assert StandsAt(s, n + k, id);
      forall j, other | j < n + k && StandsAt(s, j, other) ensures !OwnedBy(c, owners, other, sender) {
        if j >= n {
          assert StandsAt(s[n..], j - n, other);
        }
      }
    }
    if forall k, id :: StandsAt(s[n..], k, id) ==> !OwnedBy(c, owners, id, sender) {
      forall k, id | StandsAt(s, k, id) ensures !OwnedBy(c, owners, id, sender) {
        if k >= n {
          assert StandsAt(s[n..], k - n, id);
        }
      }
    }
  }

  /**
   * A message without a reference to a mail about a report of the sender's is about the first of
   * the sender's reports mentioned in its subject or, after that, in its body; and about none if
   * none is mentioned.
   */
  lemma MentionedReportExactly(c: Casing, h: ThreadMatcher.Headers, links: seq<Link>, owners: Owners, sender: string)
    requires FirstLinked(Tokens(h), links, owners, sender).None?
    ensures var found, text := MatchReport(c, h, links, owners, sender), h.subject + " " + h.body;
            && (found.Some? ==> exists k :: FirstOwned(c, text, owners, sender, k, found.value))
            && (found.None? ==> forall k, id :: StandsAt(text, k, id) ==> !OwnedBy(c, owners, id, sender))
  {
    FirstMentionedStands(c, h.subject + " " + h.body, owners, sender);
  }

  /** A reference fails if and only if no mail about a report of the sender's bears it. */
  lemma {:induction false} NoneLinked(refs: seq<string>, links: seq<Link>, owners: Owners, sender: string)
    ensures FirstLinked(refs, links, owners, sender).None?
            <==> forall ref, l :: ref in refs && l in links ==> !LinkedTo(l, owners, ref, sender)
  {
    if refs != [] {
      ByLinkIsALink(links, owners, refs[0], sender);
      NoneLinked(refs[1..], links, owners, sender);
    }
  }

  lemma {:induction false} OneWord(s: string, current: string)
    requires forall i :: 0 <= i < |s| ==> !IsSpace(s[i])
    ensures Words(s, current) == if current + s == "" then [] else [current + s]
    decreases |s|
  {
    if s != "" {
      OneWord(s[1..], current + [s[0]]);
      assert current + [s[0]] + s[1..] == current + s;
    } else {
      assert current + s == current;
    }
  }

  /**
   * In every store that delivery leads to, a reply to a delivered mail about a report of its sender
   * is matched with exactly that report, whatever else it refers to or mentions.
   */
  lemma ReplyFindsItsReport(c: Casing, events: seq<Event>, h: ThreadMatcher.Headers, l: Link, owners: Owners, sender: string)
    requires l.messageId != "" && forall i :: 0 <= i < |l.messageId| ==> !IsSpace(l.messageId[i])
    requires h.inReplyTo == Some(l.messageId)
    requires l in Run(Initial, events).d.links && LinkedTo(l, owners, l.messageId, sender)
    ensures MatchReport(c, h, Run(Initial, events).d.links, owners, sender) == l.jobId
  {
    hide Run, Words, RowsOk, ResponsesLinked;
    RunKeepsInv(Initial, events);
    var links := Run(Initial, events).d.links;
    OneWord(l.messageId, "");
    assert "" + l.messageId == l.messageId;
    assert Tokens(h)[0] == l.messageId;
    ByLinkIsALink(links, owners, l.messageId, sender);
    var found :| found in links && LinkedTo(found, owners, l.messageId, sender)
                 && found.jobId == ByLink(links, owners, l.messageId, sender);
    SameLink(Run(Initial, events).d, l, found);
  }

  lemma SameLink(d: Delivery, l: Link, m: Link)
    requires LinksOk(d) && l in d.links && m in d.links && l.messageId == m.messageId
    ensures l == m
  {
  }

  lemma {:induction false} FirstLinkedDecides(refs: seq<string>, links: seq<Link>, owners: Owners, sender: string, k: nat)
    requires k < |refs| && ByLink(links, owners, refs[k], sender).Some?
    requires forall j, l :: 0 <= j < k && l in links ==> !LinkedTo(l, owners, refs[j], sender)
    ensures FirstLinked(refs, links, owners, sender) == ByLink(links, owners, refs[k], sender)
    decreases k
  {
    if k > 0 {
      ByLinkIsALink(links, owners, refs[0], sender);
      FirstLinkedDecides(refs[1..], links, owners, sender, k - 1);
    }
  }

  /** The header holds these words, with a space between any two. */
  predicate Holds(header: Option<string>, words: seq<string>) {
    (if header.Some? then header.value else "") == Join(words) && AllWords(words)
  }

  /** The first reference of the two headers that stands for a mail about a report of the sender's decides. */
  lemma ReferencesFindTheReport(c: Casing, events: seq<Event>, h: ThreadMatcher.Headers, first: seq<string>,
                                second: seq<string>, k: nat, l: Link, owners: Owners, sender: string)
    requires Holds(h.inReplyTo, first) && Holds(h.references, second) && k < |first + second|
    requires var links := Run(Initial, events).d.links;
             && l in links && LinkedTo(l, owners, (first + second)[k], sender)
             && forall j, m :: 0 <= j < k && m in links ==> !LinkedTo(m, owners, (first + second)[j], sender)
    ensures MatchReport(c, h, Run(Initial, events).d.links, owners, sender) == l.jobId
  {
    hide Run, Words, RowsOk, ResponsesLinked;
    RunKeepsInv(Initial, events);
    var links, refs := Run(Initial, events).d.links, first + second;
    WordsInvertJoin(first);
    WordsInvertJoin(second);
    assert Tokens(h) == refs;
    ByLinkIsALink(links, owners, refs[k], sender);
    FirstLinkedDecides(refs, links, owners, sender, k);
    var found :| found in links && LinkedTo(found, owners, refs[k], sender)
                 && found.jobId == ByLink(links, owners, refs[k], sender);
    SameLink(Run(Initial, events).d, l, found);
  }
}
