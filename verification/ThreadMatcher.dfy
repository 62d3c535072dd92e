/** Associating a reply with the job it is about. */
module ThreadMatcher {
  import opened Wrappers
  import opened Text
  import opened JobIds
  import opened JobStore
  import opened Outbox
  import opened OutboxRuns

  datatype Headers = Headers(inReplyTo: Option<string>, references: Option<string>, subject: string, body: string)

  // ---- reading the reference headers ----------------------------------------------------

  predicate IsTokenChar(c: char) {
    c != '<' && c != '>' && !IsSpace(c)
  }

  function TokenRun(s: string): (n: nat)
    ensures n <= |s|
    ensures forall i :: 0 <= i < n ==> IsTokenChar(s[i])
    ensures n < |s| ==> !IsTokenChar(s[n])
  {
    if s == "" || !IsTokenChar(s[0]) then 0 else 1 + TokenRun(s[1..])
  }

  /** The length of a match of <[^<>\s]+> at the start of s, or 0. */
  function TokenLength(s: string): (n: nat)
    ensures n <= |s|
  {
    if s == "" || s[0] != '<' then 0
    else
      var n := TokenRun(s[1..]);
      if n > 0 && n + 1 < |s| && s[n + 1] == '>' then n + 2 else 0
  }

  function FindTokens(s: string): (tokens: seq<string>)
    ensures forall i :: 0 <= i < |tokens| ==> tokens[i] != ""
    decreases |s|
  {
    if s == "" then []
    else if TokenLength(s) > 0 then [s[..TokenLength(s)]] + FindTokens(s[TokenLength(s)..])
    else FindTokens(s[1..])
  }

  /** " ".join of the headers that are present and not empty. */
  function RawReferences(h: Headers): string {
    var first := if h.inReplyTo.Some? then h.inReplyTo.value else "";
    var second := if h.references.Some? then h.references.value else "";
    if first == "" then second else if second == "" then first else first + " " + second
  }

  function ReferencedIds(h: Headers): (ids: seq<string>)
    ensures forall i :: 0 <= i < |ids| ==> ids[i] != ""
  {
    var raw := RawReferences(h);
    var tokens := FindTokens(raw);
    if tokens != [] then tokens else if Strip(raw) != "" then [Strip(raw)] else []
  }

  // ---- looking a message identifier up --------------------------------------------------

  /** The newest link to a job of the sender. */
  function ByLink(links: seq<Link>, jobs: map<string, Job>, ref: string, sender: string): Option<string> {
    if links == [] then None
    else
      var l := links[|links| - 1];
      if l.messageId == ref && l.jobId.Some? && Owned(jobs, l.jobId.value, sender).Some? then l.jobId
      else ByLink(links[..|links| - 1], jobs, ref, sender)
  }

  /** The newest job of exactly this sender whose last response it is. */
  function ByLastResponse(order: seq<string>, jobs: map<string, Job>, ref: string, sender: string): Option<string> {
    if order == [] then None
    else
      var id := order[|order| - 1];
      if id in jobs && jobs[id].lastResponse == Some(ref) && jobs[id].senderEmail == sender then Some(id)
      else ByLastResponse(order[..|order| - 1], jobs, ref, sender)
  }

  function MatchReferences(refs: seq<string>, links: seq<Link>, order: seq<string>, jobs: map<string, Job>,
                           sender: string): Option<string> {
    if refs == [] then None
    else
      var linked := ByLink(links, jobs, refs[0], sender);
      var found := if linked.Some? then linked else ByLastResponse(order, jobs, refs[0], sender);
      if found.Some? then found else MatchReferences(refs[1..], links, order, jobs, sender)
  }

  /** The job named in the subject or body, when exactly one identifier occurs there. */
  function MatchMentioned(h: Headers, jobs: map<string, Job>, sender: string): Option<string> {
    var found := FindAll(h.subject) + FindAll(h.body);
    if found != [] && (forall id :: id in found ==> id == found[0]) && Owned(jobs, found[0], sender).Some? then Some(found[0])
    else None
  }

  function Match(h: Headers, links: seq<Link>, order: seq<string>, jobs: map<string, Job>, sender: string): Option<string> {
    var byHeader := MatchReferences(ReferencedIds(h), links, order, jobs, sender);
    if byHeader.Some? then byHeader else MatchMentioned(h, jobs, sender)
  }

  // ---- the index subsumes the last-response column --------------------------------------

  lemma {:induction false} ByLinkFinds(links: seq<Link>, jobs: map<string, Job>, l: Link, sender: string)
    requires l in links && l.jobId.Some? && Owned(jobs, l.jobId.value, sender).Some?
    ensures ByLink(links, jobs, l.messageId, sender).Some?
  {
    if links[|links| - 1] != l {
      assert links == links[..|links| - 1] + [links[|links| - 1]];
      ByLinkFinds(links[..|links| - 1], jobs, l, sender);
    }
  }

  lemma {:induction false} ByLinkIsALink(links: seq<Link>, jobs: map<string, Job>, ref: string, sender: string)
    requires ByLink(links, jobs, ref, sender).Some?
    ensures exists l :: l in links && l.messageId == ref && l.jobId == ByLink(links, jobs, ref, sender)
    ensures Owned(jobs, ByLink(links, jobs, ref, sender).value, sender).Some?
  {
    var l := links[|links| - 1];
    if l.messageId == ref && l.jobId.Some? && Owned(jobs, l.jobId.value, sender).Some? {
      assert l in links;
    } else {
      ByLinkIsALink(links[..|links| - 1], jobs, ref, sender);
      var found :| found in links[..|links| - 1] && found.messageId == ref
                   && found.jobId == ByLink(links[..|links| - 1], jobs, ref, sender);
      assert found in links;
    }
  }

  lemma {:induction false} ByLastResponseIsLinked(d: Delivery, order: seq<string>, ref: string, sender: string)
    requires ResponsesLinked(d) && ref != ""
    ensures ByLastResponse(order, d.jobs, ref, sender).Some? ==> ByLink(d.links, d.jobs, ref, sender).Some?
    ensures ByLastResponse(order, d.jobs, ref, sender).Some?
            ==> Owned(d.jobs, ByLastResponse(order, d.jobs, ref, sender).value, sender).Some?
  {
    if order != [] {
      var id := order[|order| - 1];
      if id in d.jobs && d.jobs[id].lastResponse == Some(ref) && d.jobs[id].senderEmail == sender {
        assert IsLinked(d.links, id, d.jobs[id].lastResponse.value);
        var l :| l in d.links && l.jobId == Some(id) && l.messageId == ref;
        ByLinkFinds(d.links, d.jobs, l, sender);
      } else {
        ByLastResponseIsLinked(d, order[..|order| - 1], ref, sender);
      }
    }
  }

  lemma {:induction false} ReferencesNeedOnlyLinks(refs: seq<string>, d: Delivery, order: seq<string>, sender: string)
    requires ResponsesLinked(d) && forall i :: 0 <= i < |refs| ==> refs[i] != ""
    ensures MatchReferences(refs, d.links, order, d.jobs, sender) == MatchReferences(refs, d.links, [], d.jobs, sender)
  {
    if refs != [] {
      ByLastResponseIsLinked(d, order, refs[0], sender);
      ReferencesNeedOnlyLinks(refs[1..], d, order, sender);
    }
  }

  /** In every store that delivery can lead to, the lookup of last responses never changes the outcome. */
  lemma FallbackIsNeverNeeded(events: seq<Event>, h: Headers, order: seq<string>, sender: string)
    ensures var d := Run(Initial, events).d;
            Match(h, d.links, order, d.jobs, sender) == Match(h, d.links, [], d.jobs, sender)
  {
    RunKeepsInv(Initial, events);
    ReferencesNeedOnlyLinks(ReferencedIds(h), Run(Initial, events).d, order, sender);
  }

  // ---- the matched job is the sender's --------------------------------------------------

  lemma {:induction false} ByLastResponseIsOwned(order: seq<string>, jobs: map<string, Job>, ref: string, sender: string)
    requires ByLastResponse(order, jobs, ref, sender).Some?
    ensures Owned(jobs, ByLastResponse(order, jobs, ref, sender).value, sender).Some?
  {
    var id := order[|order| - 1];
    if !(id in jobs && jobs[id].lastResponse == Some(ref) && jobs[id].senderEmail == sender) {
      ByLastResponseIsOwned(order[..|order| - 1], jobs, ref, sender);
    }
  }

  lemma {:induction false} ReferencesMatchOwned(refs: seq<string>, links: seq<Link>, order: seq<string>,
                                                jobs: map<string, Job>, sender: string)
    ensures var found := MatchReferences(refs, links, order, jobs, sender);
            found.Some? ==> Owned(jobs, found.value, sender).Some?
  {
    if refs != [] {
      if ByLink(links, jobs, refs[0], sender).Some? {
        ByLinkIsALink(links, jobs, refs[0], sender);
      } else if ByLastResponse(order, jobs, refs[0], sender).Some? {
        ByLastResponseIsOwned(order, jobs, refs[0], sender);
      } else {
        ReferencesMatchOwned(refs[1..], links, order, jobs, sender);
      }
    }
  }

  /** A message is only ever matched with a job of its own sender, whatever it refers to or mentions. */
  lemma OnlyOwnJobsMatch(h: Headers, links: seq<Link>, order: seq<string>, jobs: map<string, Job>, sender: string)
    ensures var found := Match(h, links, order, jobs, sender);
            found.Some? ==> found.value in jobs && Lower(jobs[found.value].senderEmail) == Lower(sender)
  {
    ReferencesMatchOwned(ReferencedIds(h), links, order, jobs, sender);
  }

  // ---- the reference that decides -------------------------------------------------------

  /** The identifier is that of a response to a job of the sender, by the links or by a job's last response. */
  predicate Known(links: seq<Link>, order: seq<string>, jobs: map<string, Job>, ref: string, sender: string) {
    || (exists l :: l in links && l.messageId == ref && l.jobId.Some? && Owned(jobs, l.jobId.value, sender).Some?)
    || (exists id :: id in order && id in jobs && jobs[id].lastResponse == Some(ref) && jobs[id].senderEmail == sender)
  }

  lemma {:induction false} ByLastResponseFinds(order: seq<string>, jobs: map<string, Job>, ref: string, sender: string)
    ensures ByLastResponse(order, jobs, ref, sender).Some?
            <==> exists id :: id in order && id in jobs && jobs[id].lastResponse == Some(ref) && jobs[id].senderEmail == sender
  {
    if order != [] {
      ByLastResponseFinds(order[..|order| - 1], jobs, ref, sender);
      assert order == order[..|order| - 1] + [order[|order| - 1]];
    }
  }

  lemma LookupFinds(links: seq<Link>, order: seq<string>, jobs: map<string, Job>, ref: string, sender: string)
    ensures ByLink(links, jobs, ref, sender).Some? || ByLastResponse(order, jobs, ref, sender).Some?
            <==> Known(links, order, jobs, ref, sender)
  {
    ByLastResponseFinds(order, jobs, ref, sender);
    if ByLink(links, jobs, ref, sender).Some? {
      ByLinkIsALink(links, jobs, ref, sender);
    }
    forall l | l in links && l.messageId == ref && l.jobId.Some? && Owned(jobs, l.jobId.value, sender).Some?
      ensures ByLink(links, jobs, ref, sender).Some?
    {
      ByLinkFinds(links, jobs, l, sender);
    }
  }

  /** The references fail if and only if none is known, and those that are not known are passed over. */
  lemma {:induction false} FirstKnownDecides(refs: seq<string>, links: seq<Link>, order: seq<string>,
                                             jobs: map<string, Job>, sender: string, k: nat)
    requires k <= |refs| && forall j :: 0 <= j < k ==> !Known(links, order, jobs, refs[j], sender)
    ensures MatchReferences(refs, links, order, jobs, sender) == MatchReferences(refs[k..], links, order, jobs, sender)
    ensures k < |refs| && Known(links, order, jobs, refs[k], sender) ==>
              MatchReferences(refs, links, order, jobs, sender).Some?
    decreases k
  {
    hide Known, ByLink, ByLastResponse;
    if refs != [] {
      LookupFinds(links, order, jobs, refs[0], sender);
      if k > 0 {
        FirstKnownDecides(refs[1..], links, order, jobs, sender, k - 1);
        assert refs[1..][k - 1..] == refs[k..];
      }
    }
  }

  // ---- an identifier that is mentioned --------------------------------------------------

  ghost predicate Mentions(h: Headers, id: string) {
    (exists k :: StandsAt(h.subject, k, id)) || (exists k :: StandsAt(h.body, k, id))
  }

  /**
   * A message none of whose references is known is matched with a job if and only if the job's
   * identifier stands in its subject or body, no other identifier does, and the job is the sender's.
   */
  lemma MentionedExactly(h: Headers, links: seq<Link>, order: seq<string>, jobs: map<string, Job>, sender: string, id: string)
    requires forall ref :: ref in ReferencedIds(h) ==> !Known(links, order, jobs, ref, sender)
    ensures Match(h, links, order, jobs, sender) == Some(id) <==>
            && Mentions(h, id) && (forall other :: Mentions(h, other) ==> other == id)
            && id in jobs && Lower(jobs[id].senderEmail) == Lower(sender)
  {
    hide Known, Mentions, FindAll, ReferencedIds;
    var refs := ReferencedIds(h);
    FirstKnownDecides(refs, links, order, jobs, sender, |refs|);
    assert refs[|refs|..] == [];
    var found := FindAll(h.subject) + FindAll(h.body);
    forall x ensures x in found <==> Mentions(h, x) {
      MentionsFound(h, x);
    }
    if found != [] {
      assert Mentions(h, found[0]);
    }
  }

  lemma MentionsFound(h: Headers, id: string)
    ensures id in FindAll(h.subject) + FindAll(h.body) <==> Mentions(h, id)
  {
    FoundExactly(h.subject, id);
    FoundExactly(h.body, id);
  }

  // ---- a reply to a recorded response finds its job -------------------------------------

  lemma {:induction false} TokenRunOf(name: string, rest: string)
    requires forall i :: 0 <= i < |name| ==> IsTokenChar(name[i])
    ensures TokenRun(name + (">" + rest)) == |name|
  {
    var s := name + (">" + rest);
    if name != "" {
      assert s[1..] == name[1..] + (">" + rest);
      TokenRunOf(name[1..], rest);
    } else {
      assert s == ">" + rest;
    }
  }

  /** A well-formed message identifier at the start of the headers is the first one read. */
  lemma FirstTokenIsRead(name: string, rest: string)
    requires name != "" && forall i :: 0 <= i < |name| ==> IsTokenChar(name[i])
    ensures var s := "<" + (name + (">" + rest));
            FindTokens(s) != [] && FindTokens(s)[0] == "<" + (name + ">")
  {
    var s := "<" + (name + (">" + rest));
    assert s[1..] == name + (">" + rest);
    TokenRunOf(name, rest);
    assert s[|name| + 1] == '>';
    assert s[..|name| + 2] == "<" + (name + ">");
  }

  /**
   * A reply whose In-Reply-To is the identifier of a recorded response to one of its sender's jobs
   * is matched with exactly that job, whatever else it refers to.
   */
  lemma ReplyFindsItsJob(events: seq<Event>, order: seq<string>, h: Headers, name: string, jobId: string, sender: string)
    requires name != "" && forall i :: 0 <= i < |name| ==> IsTokenChar(name[i])
    requires h.inReplyTo == Some("<" + (name + ">"))
    requires var d := Run(Initial, events).d;
             IsLinked(d.links, jobId, "<" + (name + ">")) && Owned(d.jobs, jobId, sender).Some?
    ensures var d := Run(Initial, events).d;
            Match(h, d.links, order, d.jobs, sender) == Some(jobId)
  {
    hide Run, RowsOk, ResponsesLinked, RawReferences, ReferencedIds, Owned;
    RunKeepsInv(Initial, events);
    FirstReference(h, name);
    LinkedReferenceWins(Run(Initial, events).d, ReferencedIds(h), order, jobId, sender);
  }

  lemma LinkedReferenceWins(d: Delivery, refs: seq<string>, order: seq<string>, jobId: string, sender: string)
    requires LinksOk(d) && refs != []
    requires IsLinked(d.links, jobId, refs[0]) && Owned(d.jobs, jobId, sender).Some?
    ensures MatchReferences(refs, d.links, order, d.jobs, sender) == Some(jobId)
  {
    var l :| l in d.links && l.jobId == Some(jobId) && l.messageId == refs[0];
    ByLinkFinds(d.links, d.jobs, l, sender);
    ByLinkIsALink(d.links, d.jobs, refs[0], sender);
    var found :| found in d.links && found.messageId == refs[0] && found.jobId == ByLink(d.links, d.jobs, refs[0], sender);
    assert found == l;
  }

  lemma FirstReference(h: Headers, name: string)
    requires name != "" && forall i :: 0 <= i < |name| ==> IsTokenChar(name[i])
    requires h.inReplyTo == Some("<" + (name + ">"))
    ensures ReferencedIds(h) != [] && ReferencedIds(h)[0] == "<" + (name + ">")
  {
    var second := if h.references.Some? then h.references.value else "";
    var rest := if second == "" then "" else " " + second;
    FirstTokenIsRead(name, rest);
    assert RawReferences(h) == "<" + (name + (">" + rest));
  }

  // ---- the other ways in which a reply names a response ---------------------------------

  /** A message identifier in angle brackets. */
  predicate IsReference(t: string) {
    |t| >= 3 && t[0] == '<' && t[|t| - 1] == '>' && forall i :: 1 <= i < |t| - 1 ==> IsTokenChar(t[i])
  }

  predicate AllReferences(tokens: seq<string>) {
    forall i :: 0 <= i < |tokens| ==> IsReference(tokens[i])
  }

  /** The next bracketed identifier is read, whatever stands before it that opens no bracket. */
  lemma {:induction false} TokenIsRead(gap: string, t: string, rest: string)
    requires '<' !in gap
    ensures FindTokens(gap) == []
    ensures IsReference(t) ==> FindTokens(gap + (t + rest)) == [t] + FindTokens(rest)
  {
    if gap != "" {
      assert gap[0] != '<' && (gap + (t + rest))[1..] == gap[1..] + (t + rest);
      TokenIsRead(gap[1..], t, rest);
    } else if IsReference(t) {
      assert gap + (t + rest) == t + rest;
      TokenLengthOf(t, rest);
      assert (t + rest)[..|t|] == t && (t + rest)[|t|..] == rest;
    }
  }

  lemma TokenLengthOf(t: string, rest: string)
    requires IsReference(t)
    ensures TokenLength(t + rest) == |t|
  {
    var name := t[1..|t| - 1];
    TokenRunOf(name, rest);
    assert (t + rest)[1..] == name + (">" + rest);
  }

  lemma {:induction false} TokensOfList(tokens: seq<string>)
    requires AllReferences(tokens)
    ensures FindTokens(Join(tokens)) == tokens
  {
    hide FindTokens, IsReference;
    TokenIsRead("", "", "");
    if |tokens| == 1 {
      TokenIsRead("", tokens[0], "");
      assert "" + (tokens[0] + "") == Join(tokens);
    } else if tokens != [] {
      TokensOfList(tokens[1..]);
      TokenIsRead("", tokens[0], " " + Join(tokens[1..]));
      assert "" + (tokens[0] + (" " + Join(tokens[1..]))) == Join(tokens);
      SpaceIsPassed(Join(tokens[1..]));
    }
  }

  lemma SpaceIsPassed(s: string)
    ensures FindTokens(" " + s) == FindTokens(s)
  {
    assert (" " + s)[1..] == s;
  }

  /** The header holds these identifiers, with a space between any two. */
  predicate Holds(header: Option<string>, tokens: seq<string>) {
    (if header.Some? then header.value else "") == Join(tokens) && AllReferences(tokens)
  }

  lemma {:induction false} JoinTogether(first: seq<string>, second: seq<string>)
    requires first != [] && second != []
    ensures Join(first + second) == Join(first) + " " + Join(second)
  {
    if |first| == 1 {
      assert (first + second)[1..] == second;
    } else {
      assert (first + second)[1..] == first[1..] + second;
      JoinTogether(first[1..], second);
    }
  }

  lemma JoinIsEmpty(tokens: seq<string>)
    requires AllReferences(tokens)
    ensures Join(tokens) == "" <==> tokens == []
  {
    if tokens != [] {
      assert IsReference(tokens[0]);
    }
  }

  /** The identifiers of both headers are looked up, those of In-Reply-To first. */
  lemma ReferencesAreRead(h: Headers, first: seq<string>, second: seq<string>)
    requires Holds(h.inReplyTo, first) && Holds(h.references, second)
    ensures ReferencedIds(h) == first + second
  {
    hide FindTokens;
    JoinIsEmpty(first);
    JoinIsEmpty(second);
    if first == [] {
      assert first + second == second;
    } else if second == [] {
      assert first + second == first;
    } else {
      JoinTogether(first, second);
    }
    TokensOfList(first + second);
    if first + second == [] {
      assert Strip("") == "";
    }
  }

  /**
   * A reply is matched with the job of the first of its references that is known: here the k-th of
   * In-Reply-To and References together, the identifier of a recorded response to a job of its sender's.
   */
  lemma ReferencesFindTheJob(events: seq<Event>, order: seq<string>, h: Headers, first: seq<string>, second: seq<string>,
                             k: nat, jobId: string, sender: string)
    requires Holds(h.inReplyTo, first) && Holds(h.references, second) && k < |first + second|
    requires var d := Run(Initial, events).d;
             && IsLinked(d.links, jobId, (first + second)[k]) && Owned(d.jobs, jobId, sender).Some?
             && forall j :: 0 <= j < k ==> !Known(d.links, order, d.jobs, (first + second)[j], sender)
    ensures var d := Run(Initial, events).d;
            Match(h, d.links, order, d.jobs, sender) == Some(jobId)
  {
    hide Run, RowsOk, ResponsesLinked, Holds, ReferencedIds, Owned, Known, IsLinked;
    var d := Run(Initial, events).d;
    RunKeepsInv(Initial, events);
    ReferencesAreRead(h, first, second);
    FirstKnownDecides(ReferencedIds(h), d.links, order, d.jobs, sender, k);
    LinkedReferenceWins(d, ReferencedIds(h)[k..], order, jobId, sender);
  }

  /** An identifier without brackets, in either header alone and with any white space around it, finds its job as well. */
  lemma BareReferenceFindsTheJob(events: seq<Event>, order: seq<string>, h: Headers, before: string, id: string,
                                 after: string, jobId: string, sender: string)
    requires id != "" && !IsSpace(id[0]) && !IsSpace(id[|id| - 1]) && '<' !in id
    requires Spaces(before) && Spaces(after)
    requires (h.inReplyTo == Some(before + (id + after)) && h.references.None?)
             || (h.references == Some(before + (id + after)) && h.inReplyTo.None?)
    requires var d := Run(Initial, events).d; IsLinked(d.links, jobId, id) && Owned(d.jobs, jobId, sender).Some?
    ensures var d := Run(Initial, events).d;
            Match(h, d.links, order, d.jobs, sender) == Some(jobId)
  {
    BareReferenceIsRead(h, before, id, after);
    hide Run, RowsOk, ResponsesLinked, ReferencedIds, Owned, IsLinked;
    RunKeepsInv(Initial, events);
    LinkedReferenceWins(Run(Initial, events).d, ReferencedIds(h), order, jobId, sender);
  }

  lemma BareReferenceIsRead(h: Headers, before: string, id: string, after: string)
    requires id != "" && !IsSpace(id[0]) && !IsSpace(id[|id| - 1]) && '<' !in id
    requires Spaces(before) && Spaces(after)
    requires (h.inReplyTo == Some(before + (id + after)) && h.references.None?)
             || (h.references == Some(before + (id + after)) && h.inReplyTo.None?)
    ensures ReferencedIds(h) == [id]
  {
    hide FindTokens, Strip;
    var raw := before + (id + after);
    assert raw == RawReferences(h);
    StripRemovesSpaces(before, id, after);
    assert '<' !in raw by {
      assert !IsSpace('<');
    }
    TokenIsRead(raw, "", "");
  }
}
