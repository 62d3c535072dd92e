/** The trust boundary: a command is resolved against the message's real attachments and the sender's real jobs. */
module Validator {
  import opened Wrappers
  import opened Text
  import opened Attachments
  import opened JobStore

  datatype Attachment = Attachment(filename: string, content: Bytes)

  datatype AttachmentMeta = AttachmentMeta(filename: string, size: nat)

  function MetaOf(a: Attachment): AttachmentMeta {
    AttachmentMeta(a.filename, |a.content|)
  }

  function Metas(attachments: seq<Attachment>): (metas: seq<AttachmentMeta>)
    ensures |metas| == |attachments|
    ensures forall i :: 0 <= i < |metas| ==> metas[i] == MetaOf(attachments[i])
  {
    seq(|attachments|, i requires 0 <= i < |attachments| => MetaOf(attachments[i]))
  }

  datatype Refusal = Rejected | ClarificationRequired

  predicate EndsWith(s: string, suffix: string) {
    |s| >= |suffix| && s[|s| - |suffix|..] == suffix
  }

  predicate IsVtt(filename: string) {
    EndsWith(Lower(filename), ".vtt")
  }

  predicate IsAudio(filename: string) {
    var lower := Lower(filename);
    || EndsWith(lower, ".wav") || EndsWith(lower, ".mp3") || EndsWith(lower, ".m4a") || EndsWith(lower, ".ogg")
    || EndsWith(lower, ".flac") || EndsWith(lower, ".aac") || EndsWith(lower, ".wma")
  }

  /** next((a for a in attachments if a.filename == name), None), as a position. */
  function FirstNamed(metas: seq<AttachmentMeta>, name: string): (r: Option<nat>)
    ensures r.Some? ==> r.value < |metas| && metas[r.value].filename == name
    ensures r.Some? ==> forall i :: 0 <= i < r.value ==> metas[i].filename != name
    ensures r.None? ==> forall i :: 0 <= i < |metas| ==> metas[i].filename != name
  {
    if metas == [] then None
    else if metas[0].filename == name then Some(0)
    else
      var r := FirstNamed(metas[1..], name);
      if r.Some? then Some(r.value + 1) else None
  }

  function Positions(metas: seq<AttachmentMeta>, keep: string -> bool): (ps: seq<nat>)
    ensures forall k :: 0 <= k < |ps| ==> ps[k] < |metas| && keep(metas[ps[k]].filename)
    ensures forall i :: 0 <= i < |metas| && keep(metas[i].filename) ==> i in ps
    ensures forall j, k :: 0 <= j < k < |ps| ==> ps[j] < ps[k]
  {
    if metas == [] then []
    else
      var n := |metas| - 1;
      var before := Positions(metas[..n], keep);
      assert forall k :: 0 <= k < |before| ==> before[k] < n;
      before + (if keep(metas[n].filename) then [n] else [])
  }

  /** The attachment a submit command is resolved to, as a position in the message's list. */
  function Resolve(named: Option<string>, metas: seq<AttachmentMeta>): (r: Result<nat, Refusal>)
    ensures r.Success? ==> r.value < |metas|
  {
    if metas == [] then Failure(ClarificationRequired)
    else
      var matched := if named.Some? && named.value != "" then FirstNamed(metas, named.value) else None;
      var candidates := Positions(metas, IsVtt);
      if matched.Some? then Success(matched.value)
      else if |candidates| == 1 then Success(candidates[0])
      else if |candidates| == 0 && Positions(metas, IsAudio) != [] then Failure(Rejected)
      else Failure(ClarificationRequired)
  }

  predicate FirstOf(metas: seq<AttachmentMeta>, name: string, i: nat) {
    i < |metas| && metas[i].filename == name && forall j :: 0 <= j < i ==> metas[j].filename != name
  }

  predicate OnlyVtt(metas: seq<AttachmentMeta>, i: nat) {
    i < |metas| && IsVtt(metas[i].filename) && forall j :: 0 <= j < |metas| && j != i ==> !IsVtt(metas[j].filename)
  }

  predicate Bears(metas: seq<AttachmentMeta>, name: Option<string>) {
    name.Some? && name.value != "" && exists j :: 0 <= j < |metas| && metas[j].filename == name.value
  }

  /** The first attachment of the given name; failing that, the only transcript there is. */
  lemma ResolvesTo(named: Option<string>, metas: seq<AttachmentMeta>, i: nat)
    requires i < |metas|
    ensures Resolve(named, metas) == Success(i) <==>
            if Bears(metas, named) then FirstOf(metas, named.value, i) else OnlyVtt(metas, i)
  {
    hide IsVtt, IsAudio, Positions, FirstNamed;
    OnlyPosition(metas, IsVtt, i);
    if named.Some? {
      FirstNamedIs(metas, named.value, i);
    }
  }

  lemma FirstNamedIs(metas: seq<AttachmentMeta>, name: string, i: nat)
    ensures FirstNamed(metas, name) == Some(i) <==> FirstOf(metas, name, i)
    ensures FirstNamed(metas, name).Some? <==> exists j :: 0 <= j < |metas| && metas[j].filename == name
  {
    hide FirstNamed;
  }

  lemma OnlyPosition(metas: seq<AttachmentMeta>, keep: string -> bool, i: nat)
    requires i < |metas|
    ensures |Positions(metas, keep)| == 1 && Positions(metas, keep)[0] == i <==>
            keep(metas[i].filename) && forall j :: 0 <= j < |metas| && j != i ==> !keep(metas[j].filename)
  {
    hide Positions;
    var ps := Positions(metas, keep);
    if |ps| >= 2 {
      assert ps[0] < ps[1];
    }
  }

  function ValidateSubmit(named: Option<string>, metas: seq<AttachmentMeta>, maxBytes: nat)
    : Result<AttachmentMeta, Refusal>
  {
    var resolved := Resolve(named, metas);
    if resolved.Failure? then Failure(resolved.error)
    else
      var meta := metas[resolved.value];
      if IsAudio(meta.filename) || !IsVtt(meta.filename) || meta.size > maxBytes then Failure(Rejected)
      else Success(meta)
  }

  /** The attachment that accept saves, looked up again by file name. */
  function SavedAttachment(attachments: seq<Attachment>, filename: string): Option<nat> {
    FirstNamed(Metas(attachments), filename)
  }

  lemma {:induction false} TwoCandidates(metas: seq<AttachmentMeta>, keep: string -> bool, i: nat, j: nat)
    requires i < j < |metas| && keep(metas[i].filename) && keep(metas[j].filename)
    ensures |Positions(metas, keep)| >= 2
  {
    var n := |metas| - 1;
    if j == n {
      assert i in Positions(metas[..n], keep) by {
        assert metas[..n][i] == metas[i];
      }
    } else {
      TwoCandidates(metas[..n], keep, i, j);
    }
  }

  /**
   * The attachment whose name and size were checked is the very list element that accept saves,
   * also when several attachments bear the same name: it exists, ends in .vtt, and its content is
   * within the limit.
   */
  lemma CheckedIsSaved(attachments: seq<Attachment>, named: Option<string>, maxBytes: nat)
    ensures var validated := ValidateSubmit(named, Metas(attachments), maxBytes);
            validated.Success? ==>
              var resolved := Resolve(named, Metas(attachments));
              && resolved.Success? && resolved.value < |attachments|
              && var chosen := attachments[resolved.value];
                 && SavedAttachment(attachments, validated.value.filename) == Some(resolved.value)
                 && validated.value == MetaOf(chosen)
                 && |chosen.content| <= maxBytes
                 && IsVtt(chosen.filename)
  {
    hide Resolve, IsVtt, IsAudio, FirstNamed;
    if ValidateSubmit(named, Metas(attachments), maxBytes).Success? {
      ResolvedIsFirst(named, Metas(attachments));
    }
  }

  lemma ResolvedIsFirst(named: Option<string>, metas: seq<AttachmentMeta>)
    requires Resolve(named, metas).Success? && IsVtt(metas[Resolve(named, metas).value].filename)
    ensures var i := Resolve(named, metas).value;
            FirstNamed(metas, metas[i].filename) == Some(i)
  {
    hide IsVtt, IsAudio, Positions;
    var i := Resolve(named, metas).value;
    var first := FirstNamed(metas, metas[i].filename);
    if first.value < i {
      TwoCandidates(metas, IsVtt, first.value, i);
    }
  }

  /** A submission is accepted exactly when it resolves to an attachment that passes the checks on its own data. */
  lemma AcceptedWhenChecked(named: Option<string>, metas: seq<AttachmentMeta>, maxBytes: nat)
    ensures ValidateSubmit(named, metas, maxBytes).Success? <==>
            exists i :: 0 <= i < |metas| && Resolve(named, metas) == Success(i)
                        && IsVtt(metas[i].filename) && metas[i].size <= maxBytes
  {
    var r := Resolve(named, metas);
    if r.Success? && r.value < |metas| && IsVtt(metas[r.value].filename) {
      VttIsNotAudio(Lower(metas[r.value].filename));
    }
  }

  lemma VttIsNotAudio(lower: string)
    requires EndsWith(lower, ".vtt")
    ensures !EndsWith(lower, ".wav") && !EndsWith(lower, ".mp3") && !EndsWith(lower, ".m4a") && !EndsWith(lower, ".ogg")
    ensures !EndsWith(lower, ".flac") && !EndsWith(lower, ".aac") && !EndsWith(lower, ".wma")
  {
    assert lower[|lower| - 4..][3] == lower[|lower| - 1] == 't';
    assert |lower| >= 5 ==> lower[|lower| - 5..][4] == lower[|lower| - 1];
    assert ".wav"[3] == 'v' && ".mp3"[3] == '3' && ".m4a"[3] == 'a' && ".ogg"[3] == 'g';
    assert ".flac"[4] == 'c' && ".aac"[3] == 'c' && ".wma"[3] == 'a';
  }

  /** status, results and cancel: the job must be the sender's own. */
  function ValidateJobReference(jobId: Option<string>, threadJobId: Option<string>, jobs: map<string, Job>,
                                sender: string): Result<string, Refusal> {
    var id := if jobId.Some? && jobId.value != "" then jobId else threadJobId;
    if id.None? || id.value == "" then Failure(ClarificationRequired)
    else if Owned(jobs, id.value, sender).None? then Failure(ClarificationRequired)
    else Success(id.value)
  }

  datatype Verb = Submit | Status | Results | Cancel | Assess | Help

  /** What the model made of a message. */
  datatype ParsedCommand = ParsedCommand(
    verb: Verb,
    attachment: Option<string>,
    groupHint: Option<string>,
    jobId: Option<string>,
    transcriptFocus: Option<string>,
    githubFocus: Option<string>,
    trelloFocus: Option<string>,
    requiresClarification: bool)

  datatype ValidatedCommand = ValidatedCommand(
    verb: Verb,
    attachment: Option<AttachmentMeta>,
    groupHint: Option<string>,
    jobId: Option<string>,
    transcriptFocus: Option<string>,
    githubFocus: Option<string>,
    trelloFocus: Option<string>)

  predicate Named(s: Option<string>) {
    s.Some? && s.value != ""
  }

  function ValidateCommand(cmd: ParsedCommand, attachments: seq<Attachment>, maxBytes: nat, threadJobId: Option<string>,
                           jobs: map<string, Job>, sender: string): Result<ValidatedCommand, Refusal> {
    if cmd.requiresClarification then Failure(ClarificationRequired)
    else
      match cmd.verb
      case Submit =>
        var r := ValidateSubmit(cmd.attachment, Metas(attachments), maxBytes);
        if r.Failure? then Failure(r.error)
        else Success(ValidatedCommand(Submit, Some(r.value), cmd.groupHint, None, None, None, None))
      case Assess =>
        if !Named(cmd.transcriptFocus) && !Named(cmd.githubFocus) && !Named(cmd.trelloFocus) then
          Failure(ClarificationRequired)
        else
          Success(ValidatedCommand(Assess, None, cmd.groupHint, None,
                                   cmd.transcriptFocus, cmd.githubFocus, cmd.trelloFocus))
      case Help => Success(ValidatedCommand(Help, None, None, None, None, None, None))
      case _ =>
        var r := ValidateJobReference(cmd.jobId, threadJobId, jobs, sender);
        if r.Failure? then Failure(r.error)
        else Success(ValidatedCommand(cmd.verb, None, None, Some(r.value), None, None, None))
  }

  /** Nothing but the sender's own attachments and jobs comes out of the validator. */
  lemma ValidatedIsReal(cmd: ParsedCommand, attachments: seq<Attachment>, maxBytes: nat, threadJobId: Option<string>,
                        jobs: map<string, Job>, sender: string)
    requires ValidateCommand(cmd, attachments, maxBytes, threadJobId, jobs, sender).Success?
    ensures var v := ValidateCommand(cmd, attachments, maxBytes, threadJobId, jobs, sender).value;
            && v.verb == cmd.verb
            && (v.verb.Submit? <==> v.attachment.Some?)
            && (v.verb.Submit? ==>
                  var i := SavedAttachment(attachments, v.attachment.value.filename);
                  && i.Some? && i.value < |attachments| && v.attachment.value == MetaOf(attachments[i.value])
                  && |attachments[i.value].content| <= maxBytes && IsVtt(attachments[i.value].filename))
            && (v.verb.Status? || v.verb.Results? || v.verb.Cancel? ==>
                  v.jobId.Some? && Owned(jobs, v.jobId.value, sender).Some?)
            && (v.verb.Assess? ==> Named(v.transcriptFocus) || Named(v.githubFocus) || Named(v.trelloFocus))
  {
    hide ValidateSubmit, IsVtt, SavedAttachment;
    if cmd.verb.Submit? {
      CheckedIsSaved(attachments, cmd.attachment, maxBytes);
    }
  }

  // ---- what is refused, and how ---------------------------------------------------------

  predicate IsAny(filename: string, k: int, capital: char, small: char) {
    0 <= k < |filename| && (filename[k] == capital || filename[k] == small)
  }

  /** The last four characters are .vtt in any case. */
  lemma VttNames(filename: string)
    ensures IsVtt(filename) <==>
            var n := |filename|;
            n >= 4 && filename[n - 4] == '.' && IsAny(filename, n - 3, 'V', 'v') && IsAny(filename, n - 2, 'T', 't')
            && IsAny(filename, n - 1, 'T', 't')
  {
    var lower, n := Lower(filename), |filename|;
    if n >= 4 {
      assert lower[n - 4..] == [LowerChar(filename[n - 4]), LowerChar(filename[n - 3]), LowerChar(filename[n - 2]),
                                LowerChar(filename[n - 1])];
    }
  }

  /** A name that ends in one of the seven extensions, in any case, is that of an audio file. */
  lemma AudioNames(stem: string, extension: string)
    requires Lower(extension) in {".wav", ".mp3", ".m4a", ".ogg", ".flac", ".aac", ".wma"}
    ensures IsAudio(stem + extension)
  {
    assert Lower(stem + extension) == Lower(stem) + Lower(extension);
    assert (Lower(stem) + Lower(extension))[|Lower(stem)|..] == Lower(extension);
  }

  predicate NoVtt(metas: seq<AttachmentMeta>) {
    forall i :: 0 <= i < |metas| ==> !IsVtt(metas[i].filename)
  }

  predicate SomeAudio(metas: seq<AttachmentMeta>) {
    exists i :: 0 <= i < |metas| && IsAudio(metas[i].filename)
  }

  /**
   * A submission that names no attachment of the message is refused for good when the message has
   * audio but no transcript; otherwise, without exactly one transcript, its sender is asked. One
   * that resolves to an attachment is refused for good when that is no .vtt or too large.
   */
  lemma RefusedExactly(named: Option<string>, metas: seq<AttachmentMeta>, maxBytes: nat)
    ensures var r := ValidateSubmit(named, metas, maxBytes);
            && (r == Failure(ClarificationRequired) <==>
                  !Bears(metas, named) && !(NoVtt(metas) && SomeAudio(metas)) && forall i: nat :: !OnlyVtt(metas, i))
            && (r == Failure(Rejected) <==>
                  || (!Bears(metas, named) && NoVtt(metas) && SomeAudio(metas))
                  || exists i :: 0 <= i < |metas| && (if Bears(metas, named) then FirstOf(metas, named.value, i) else OnlyVtt(metas, i))
                                 && (!IsVtt(metas[i].filename) || metas[i].size > maxBytes))
  {
    hide IsVtt, IsAudio, FirstNamed, Positions, OnlyVtt, FirstOf;
    var r := Resolve(named, metas);
    NonePositions(metas);
    ResolvedOrAsked(named, metas);
    forall i | 0 <= i < |metas| ensures Resolve(named, metas) == Success(i) <==>
        if Bears(metas, named) then FirstOf(metas, named.value, i) else OnlyVtt(metas, i) {
      ResolvesTo(named, metas, i);
    }
    if r.Success? && IsVtt(metas[r.value].filename) {
      VttIsNoAudio(metas[r.value].filename);
    }
  }

  lemma VttIsNoAudio(filename: string)
    requires IsVtt(filename)
    ensures !IsAudio(filename)
  {
    VttIsNotAudio(Lower(filename));
  }

  lemma NonePositions(metas: seq<AttachmentMeta>)
    ensures Positions(metas, IsVtt) == [] <==> NoVtt(metas)
    ensures Positions(metas, IsAudio) != [] <==> SomeAudio(metas)
  {
    hide Positions;
    if Positions(metas, IsVtt) != [] {
      assert IsVtt(metas[Positions(metas, IsVtt)[0]].filename);
    }
    if Positions(metas, IsAudio) != [] {
      assert IsAudio(metas[Positions(metas, IsAudio)[0]].filename);
    }
  }

  lemma ResolvedOrAsked(named: Option<string>, metas: seq<AttachmentMeta>)
    ensures forall i: nat :: OnlyVtt(metas, i) || (Bears(metas, named) && FirstOf(metas, named.value, i)) ==> i < |metas|
    ensures Resolve(named, metas) == Failure(Rejected) <==> !Bears(metas, named) && NoVtt(metas) && SomeAudio(metas)
    ensures Bears(metas, named) ==> exists i: nat :: FirstOf(metas, named.value, i)
  {
    hide IsVtt, IsAudio, FirstNamed, Positions;
    NonePositions(metas);
    if named.Some? {
      FirstNamedIs(metas, named.value, 0);
      if Bears(metas, named) {
        FirstNamedIs(metas, named.value, FirstNamed(metas, named.value).value);
      }
    }
  }

  /** The job a command is about: the one it names, and only without a name the one of its thread. */
  predicate RefersTo(cmd: ParsedCommand, threadJobId: Option<string>, id: string) {
    id != "" && (cmd.jobId == Some(id) || ((cmd.jobId.None? || cmd.jobId.value == "") && threadJobId == Some(id)))
  }

  /**
   * A command that asks to be clarified is; otherwise status, results and cancel are for the job
   * they refer to if it is the sender's, and are asked about if it is not; a question needs at
   * least one of its three subjects; a submission is what becomes of its attachment; help is given.
   */
  lemma ValidatedExactly(cmd: ParsedCommand, attachments: seq<Attachment>, maxBytes: nat, threadJobId: Option<string>,
                         jobs: map<string, Job>, sender: string, v: ValidatedCommand)
    ensures var r := ValidateCommand(cmd, attachments, maxBytes, threadJobId, jobs, sender);
            && (cmd.requiresClarification ==> r == Failure(ClarificationRequired))
            && (!cmd.requiresClarification ==>
                  match cmd.verb
                  case Submit =>
                    var submitted := ValidateSubmit(cmd.attachment, Metas(attachments), maxBytes);
                    r == (if submitted.Failure? then Failure(submitted.error)
                          else Success(ValidatedCommand(Submit, Some(submitted.value), cmd.groupHint, None, None, None, None)))
                  case Assess =>
                    var none := && (cmd.transcriptFocus.None? || cmd.transcriptFocus.value == "")
                                && (cmd.githubFocus.None? || cmd.githubFocus.value == "")
                                && (cmd.trelloFocus.None? || cmd.trelloFocus.value == "");
                    r == (if none then Failure(ClarificationRequired)
                          else Success(ValidatedCommand(Assess, None, cmd.groupHint, None, cmd.transcriptFocus,
                                                        cmd.githubFocus, cmd.trelloFocus)))
                  case Help => r == Success(ValidatedCommand(Help, None, None, None, None, None, None))
                  case _ =>
                    && (r == Success(v) <==>
                          && v.jobId.Some? && RefersTo(cmd, threadJobId, v.jobId.value)
                          && v.jobId.value in jobs && Lower(jobs[v.jobId.value].senderEmail) == Lower(sender)
                          && v == ValidatedCommand(cmd.verb, None, None, v.jobId, None, None, None))
                    && (r.Failure? ==> r.error.ClarificationRequired?))
  {
    hide ValidateSubmit;
  }
}
