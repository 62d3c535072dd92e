/** Choosing the group a request is about, and checking a sender's answer to "which group?". */
module GroupMatching {
  import opened Wrappers
  import opened Text

  datatype Group = Group(id: int, name: string)

  datatype Match =
    | Matched(group: Group)
    | Ambiguous(candidates: seq<Group>)
    | NoMatch

  /** str.lower and str.casefold: which letters they fold is left open. */
  datatype Casing = Casing(lower: string -> string, casefold: string -> string)

  /** All that is assumed of the two foldings: casefold never tells apart what lower identifies. */
  ghost predicate Coherent(c: Casing) {
    forall x, y :: c.lower(x) == c.lower(y) ==> c.casefold(x) == c.casefold(y)
  }

  function Names(groups: seq<Group>): (names: seq<string>)
    ensures |names| == |groups| && forall i :: 0 <= i < |groups| ==> names[i] == groups[i].name
  {
    if groups == [] then [] else [groups[0].name] + Names(groups[1..])
  }

  // ---- group_matching.py ----------------------------------------------------------------

  function SameLower(c: Casing, groups: seq<Group>, needle: string): seq<Group> {
    if groups == [] then []
    else
      (if c.lower(Strip(groups[0].name)) == needle then [groups[0]] else [])
      + SameLower(c, groups[1..], needle)
  }

  function MatchGroup(c: Casing, hint: Option<string>, groups: seq<Group>): Match {
    if groups == [] then NoMatch
    else if hint.Some? && hint.value != "" then
      var matches := SameLower(c, groups, c.lower(Strip(hint.value)));
      if |matches| == 1 then Matched(matches[0])
      else if |matches| == 0 then NoMatch
      else Ambiguous(matches)
    else if |groups| == 1 then Matched(groups[0])
    else Ambiguous(groups)
  }

  function Key(c: Casing, g: Group): string {
    c.lower(Strip(g.name))
  }

  predicate NoneNamed(c: Casing, groups: seq<Group>, needle: string) {
    forall j :: 0 <= j < |groups| ==> Key(c, groups[j]) != needle
  }

  /** The group at i, and no other, has the name that is looked for. */
  predicate OnlyAt(c: Casing, groups: seq<Group>, needle: string, i: int) {
    0 <= i < |groups| && Key(c, groups[i]) == needle
    && NoneNamed(c, groups[..i], needle) && NoneNamed(c, groups[i + 1..], needle)
  }

  lemma {:induction false} NoneFound(c: Casing, groups: seq<Group>, needle: string)
    ensures SameLower(c, groups, needle) == [] <==> NoneNamed(c, groups, needle)
  {
    if groups != [] {
      NoneFound(c, groups[1..], needle);
      assert forall j :: 0 < j < |groups| ==> groups[j] == groups[1..][j - 1];
    }
  }

  lemma {:induction false} OneFound(c: Casing, groups: seq<Group>, needle: string, i: int)
    requires OnlyAt(c, groups, needle, i)
    ensures SameLower(c, groups, needle) == [groups[i]]
  {
    if i == 0 {
      NoneFound(c, groups[1..], needle);
    } else {
      assert groups[..i][0] == groups[0];
      assert groups[1..][..i - 1] == groups[..i][1..] && groups[1..][i..] == groups[i + 1..];
      OneFound(c, groups[1..], needle, i - 1);
    }
  }

  lemma {:induction false} FoundOne(c: Casing, groups: seq<Group>, needle: string) returns (i: int)
    requires |SameLower(c, groups, needle)| == 1
    ensures OnlyAt(c, groups, needle, i)
  {
    if Key(c, groups[0]) == needle {
      i := 0;
      NoneFound(c, groups[1..], needle);
    } else {
      var k := FoundOne(c, groups[1..], needle);
      i := k + 1;
      assert groups[1..][k + 1..] == groups[i + 1..];
      assert forall j :: 0 < j < i ==> groups[..i][j] == groups[1..][..k][j - 1];
    }
  }

  /** A given hint matches exactly when one group alone has its name; with none it is the only group. */
  lemma MatchedExactly(c: Casing, hint: Option<string>, groups: seq<Group>)
    ensures MatchGroup(c, hint, groups).Matched?
            <==> if hint.Some? && hint.value != "" then exists i :: OnlyAt(c, groups, c.lower(Strip(hint.value)), i)
                 else |groups| == 1
    ensures hint.Some? && hint.value != "" ==>
              forall i :: OnlyAt(c, groups, c.lower(Strip(hint.value)), i)
                          ==> MatchGroup(c, hint, groups) == Matched(groups[i])
  {
    if hint.Some? && hint.value != "" {
      hide SameLower, OnlyAt;
      var needle := c.lower(Strip(hint.value));
      OnlyInside(c, groups, needle);
      forall i | OnlyAt(c, groups, needle, i) ensures MatchGroup(c, hint, groups) == Matched(groups[i]) {
        OneFound(c, groups, needle, i);
      }
      if groups != [] && |SameLower(c, groups, needle)| == 1 {
        var i := FoundOne(c, groups, needle);
      }
    }
  }

  /** Without a match, none is found when nothing bears the name; otherwise there are several to choose from. */
  lemma UnmatchedExactly(c: Casing, hint: Option<string>, groups: seq<Group>)
    ensures MatchGroup(c, hint, groups).NoMatch?
            <==> groups == [] || (hint.Some? && hint.value != "" && NoneNamed(c, groups, c.lower(Strip(hint.value))))
    ensures MatchGroup(c, hint, groups).Ambiguous? ==>
              && |MatchGroup(c, hint, groups).candidates| >= 2
              && forall g :: g in MatchGroup(c, hint, groups).candidates ==>
                   g in groups && (hint.Some? && hint.value != "" ==> c.lower(Strip(g.name)) == c.lower(Strip(hint.value)))
  {
    if hint.Some? && hint.value != "" {
      NoneFound(c, groups, c.lower(Strip(hint.value)));
      FoundAreNamed(c, groups, c.lower(Strip(hint.value)));
    }
  }

  lemma {:induction false} FoundAreNamed(c: Casing, groups: seq<Group>, needle: string)
    ensures forall g :: g in SameLower(c, groups, needle) ==> g in groups && c.lower(Strip(g.name)) == needle
  {
    if groups != [] {
      FoundAreNamed(c, groups[1..], needle);
    }
  }

  lemma OnlyInside(c: Casing, groups: seq<Group>, needle: string)
    ensures forall i :: OnlyAt(c, groups, needle, i) ==> 0 <= i < |groups|
  {
  }

  // ---- pipeline.py: comparing an answer with the offered options ------------------------

  function Normalise(c: Casing, value: string): string {
    Join(Words(c.casefold(Strip(value)), ""))
  }

  /** The same words, whatever their case and the white space around them. */
  predicate SameWords(c: Casing, x: string, y: string) {
    Words(c.casefold(Strip(x)), "") == Words(c.casefold(Strip(y)), "")
  }

  lemma NormaliseTellsWords(c: Casing, x: string, y: string)
    ensures Normalise(c, x) == Normalise(c, y) <==> SameWords(c, x, y)
  {
    var a, b := Words(c.casefold(Strip(x)), ""), Words(c.casefold(Strip(y)), "");
    WordsAreWords(c.casefold(Strip(x)), "");
    WordsAreWords(c.casefold(Strip(y)), "");
    WordsInvertJoin(a);
    WordsInvertJoin(b);
  }

  function SameNormalised(c: Casing, options: seq<string>, answer: string): seq<string> {
    if options == [] then []
    else
      (if Normalise(c, options[0]) == Normalise(c, answer) then [options[0]] else [])
      + SameNormalised(c, options[1..], answer)
  }

  /** The option an answer selects, if it selects exactly one. */
  function AcceptedAnswer(c: Casing, options: seq<string>, answer: string): (chosen: Option<string>)
    ensures chosen.Some? ==> SameNormalised(c, options, answer) == [chosen.value]
  {
    var matches := SameNormalised(c, options, answer);
    if |matches| == 1 then Some(matches[0]) else None
  }

  /** The option at i, and no other, has the words of the answer. */
  predicate Selects(c: Casing, options: seq<string>, answer: string, i: int) {
    0 <= i < |options| && SameWords(c, options[i], answer) && OthersDiffer(c, options, answer, i)
  }

  predicate OthersDiffer(c: Casing, options: seq<string>, answer: string, i: int) {
    forall j :: 0 <= j < |options| && j != i ==> !SameWords(c, options[j], answer)
  }

  lemma {:induction false} NoneSelected(c: Casing, options: seq<string>, answer: string)
    ensures SameNormalised(c, options, answer) == [] <==> OthersDiffer(c, options, answer, -1)
  {
    hide Normalise, SameWords;
    if options != [] {
      NormaliseTellsWords(c, options[0], answer);
      NoneSelected(c, options[1..], answer);
      assert forall j :: 0 < j < |options| ==> options[j] == options[1..][j - 1];
      assert forall j :: 0 <= j < |options| - 1 ==> options[1..][j] == options[j + 1];
    }
  }

  lemma {:induction false} OneSelected(c: Casing, options: seq<string>, answer: string, i: int)
    requires Selects(c, options, answer, i)
    ensures SameNormalised(c, options, answer) == [options[i]]
  {
    hide Normalise, SameWords;
    NormaliseTellsWords(c, options[0], answer);
    assert forall j :: 0 <= j < |options| - 1 ==> options[1..][j] == options[j + 1];
    if i == 0 {
      NoneSelected(c, options[1..], answer);
    } else {
      OneSelected(c, options[1..], answer, i - 1);
    }
  }

  lemma {:induction false} SelectedOne(c: Casing, options: seq<string>, answer: string) returns (i: int)
    requires |SameNormalised(c, options, answer)| == 1
    ensures Selects(c, options, answer, i)
  {
    hide Normalise, SameWords;
    NormaliseTellsWords(c, options[0], answer);
    assert forall j :: 0 < j < |options| ==> options[j] == options[1..][j - 1];
    if Normalise(c, options[0]) == Normalise(c, answer) {
      i := 0;
      NoneSelected(c, options[1..], answer);
    } else {
      var k := SelectedOne(c, options[1..], answer);
      i := k + 1;
    }
  }

  /** An answer is accepted if and only if exactly one offered name has its words, and then for that name. */
  lemma AcceptedExactly(c: Casing, options: seq<string>, answer: string)
    ensures AcceptedAnswer(c, options, answer).Some? <==> exists i :: Selects(c, options, answer, i)
    ensures forall i :: Selects(c, options, answer, i) ==> AcceptedAnswer(c, options, answer) == Some(options[i])
  {
    hide Selects, SameNormalised;
    OnlyOptions(c, options, answer);
    forall i | Selects(c, options, answer, i) ensures AcceptedAnswer(c, options, answer) == Some(options[i]) {
      OneSelected(c, options, answer, i);
    }
    if |SameNormalised(c, options, answer)| == 1 {
      var i := SelectedOne(c, options, answer);
    }
  }

  lemma OnlyOptions(c: Casing, options: seq<string>, answer: string)
    ensures forall i :: Selects(c, options, answer, i) ==> 0 <= i < |options|
  {
  }

  // ---- the two comparisons agree --------------------------------------------------------

  /** What the lookup by lower case yields when an answer selects exactly one of the offered names. */
  ghost predicate FoundAlone(c: Casing, groups: seq<Group>, chosen: string) {
    var found := SameLower(c, groups, c.lower(Strip(chosen)));
    && |found| == 1
    && found[0] in groups
    && found[0].name == chosen
    && forall g :: g in groups && g.name == chosen ==> g == found[0]
  }

  /** With one option equal to the answer, the finer lookup finds that option's group and no other. */
  lemma {:induction false} LowerRefinesNormalise(c: Casing, groups: seq<Group>, answer: string, chosen: string)
    requires Coherent(c)
    requires Normalise(c, chosen) == Normalise(c, answer)
    ensures SameNormalised(c, Names(groups), answer) == []
            ==> SameLower(c, groups, c.lower(Strip(chosen))) == []
    ensures SameNormalised(c, Names(groups), answer) == [chosen] ==> FoundAlone(c, groups, chosen)
  {
    if groups != [] {
      LowerRefinesNormalise(c, groups[1..], answer, chosen);
      var head := groups[0];
      assert Names(groups)[1..] == Names(groups[1..]);
      var rest := SameNormalised(c, Names(groups[1..]), answer);
      var lowRest := SameLower(c, groups[1..], c.lower(Strip(chosen)));
      if Normalise(c, head.name) == Normalise(c, answer) {
        assert SameNormalised(c, Names(groups), answer) == [head.name] + rest;
        if [head.name] + rest == [chosen] {
          assert head.name == ([head.name] + rest)[0] == chosen;
          assert |[head.name] + rest| == 1 + |rest|;
          assert rest == [];
          NoneNormalised(c, groups[1..], answer, chosen);
          assert SameLower(c, groups, c.lower(Strip(chosen))) == [head] + lowRest == [head];
        }
      } else {
        assert c.lower(Strip(head.name)) != c.lower(Strip(chosen));
        assert SameNormalised(c, Names(groups), answer) == rest;
        assert SameLower(c, groups, c.lower(Strip(chosen))) == lowRest;
        if rest == [chosen] {
          assert head.name != chosen;
          assert forall g :: g in groups ==> g == head || g in groups[1..];
        }
      }
    }
  }

  lemma {:induction false} NoneNormalised(c: Casing, groups: seq<Group>, answer: string, chosen: string)
    requires Normalise(c, chosen) == Normalise(c, answer)
    requires SameNormalised(c, Names(groups), answer) == []
    ensures forall g :: g in groups ==> g.name != chosen
  {
    if groups != [] {
      assert Names(groups)[1..] == Names(groups[1..]);
      NoneNormalised(c, groups[1..], answer, chosen);
    }
  }

  lemma {:induction false} SelectedIsOffered(c: Casing, options: seq<string>, answer: string, i: nat)
    requires i < |SameNormalised(c, options, answer)|
    ensures SameNormalised(c, options, answer)[i] in options
    ensures Normalise(c, SameNormalised(c, options, answer)[i]) == Normalise(c, answer)
  {
    if Normalise(c, options[0]) != Normalise(c, answer) {
      SelectedIsOffered(c, options[1..], answer, i);
    } else if i > 0 {
      SelectedIsOffered(c, options[1..], answer, i - 1);
    }
  }

  /**
   * The clarification question ends: an answer accepted for the offered names leads the next
   * match_group to exactly the group of that name. It does so except in one case, an empty
   * name accepted among several groups, since an empty hint counts as no hint.
   */
  lemma AcceptedAnswerResolves(c: Casing, groups: seq<Group>, answer: string, chosen: string)
    requires Coherent(c)
    requires AcceptedAnswer(c, Names(groups), answer) == Some(chosen)
    ensures chosen in Names(groups)
    ensures MatchGroup(c, Some(chosen), groups).Matched? <==> chosen != "" || |groups| == 1
    ensures MatchGroup(c, Some(chosen), groups).Matched?
            ==> forall g :: g in groups && g.name == chosen ==> MatchGroup(c, Some(chosen), groups) == Matched(g)
  {
    AcceptedIsFoundAlone(c, groups, answer, chosen);
    FoundAloneMatches(c, groups, chosen);
  }

  lemma AcceptedIsFoundAlone(c: Casing, groups: seq<Group>, answer: string, chosen: string)
    requires Coherent(c)
    requires AcceptedAnswer(c, Names(groups), answer) == Some(chosen)
    ensures chosen in Names(groups)
    ensures FoundAlone(c, groups, chosen)
  {
    var selected := SameNormalised(c, Names(groups), answer);
    SelectedIsOffered(c, Names(groups), answer, 0);
    assert selected[0] == chosen;
    LowerRefinesNormalise(c, groups, answer, chosen);
  }

  lemma FoundAloneMatches(c: Casing, groups: seq<Group>, chosen: string)
    requires FoundAlone(c, groups, chosen)
    ensures MatchGroup(c, Some(chosen), groups).Matched? <==> chosen != "" || |groups| == 1
    ensures MatchGroup(c, Some(chosen), groups).Matched?
            ==> forall g :: g in groups && g.name == chosen ==> MatchGroup(c, Some(chosen), groups) == Matched(g)
  {
    var found := SameLower(c, groups, c.lower(Strip(chosen)));
    assert |groups| == 1 ==> groups[0] == found[0];
  }

  /** The case where the question is asked again: a group whose name is the empty string. */
  lemma EmptyNameIsAskedAgain(c: Casing)
    requires c.casefold("") == "" && c.casefold("b") == "b"
    ensures var groups := [Group(1, ""), Group(2, "b")];
            && AcceptedAnswer(c, Names(groups), "") == Some("")
            && MatchGroup(c, Some(""), groups) == Ambiguous(groups)
  {
    var groups := [Group(1, ""), Group(2, "b")];
    assert Names(groups) == ["", "b"];
    assert Strip("b") == "b" && Strip("") == "";
    assert Normalise(c, "b") == "b";
    assert SameNormalised(c, ["", "b"][1..], "") == [];
    assert SameNormalised(c, ["", "b"], "") == [""];
  }
}
