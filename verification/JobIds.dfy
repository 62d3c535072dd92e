/** Job identifiers DIAR-YYYY-MMDD-NNNN: how they are printed, and how they are found in text. */
module JobIds {
  import opened Text

  const ID_LENGTH := 19
  const PREFIX_LENGTH := 15

  /** The pattern DIAR-\d{4}-\d{4}-\d{4}, one position at a time. */
  predicate Fits(k: nat, c: char) {
    if k == 0 then c == 'D'
    else if k == 1 then c == 'I'
    else if k == 2 then c == 'A'
    else if k == 3 then c == 'R'
    else if k == 4 || k == 9 || k == 14 then c == '-'
    else IsDigit(c)
  }

  predicate IdAtStart(s: string)
    ensures IdAtStart(s) ==> |s| >= ID_LENGTH
  {
    |s| >= ID_LENGTH && forall k :: 0 <= k < ID_LENGTH ==> Fits(k, s[k])
  }

  /** A day's prefix, DIAR-YYYY-MMDD-. */
  predicate IsPrefix(p: string) {
    |p| == PREFIX_LENGTH && forall k :: 0 <= k < PREFIX_LENGTH ==> Fits(k, p[k])
  }

  predicate FourDigitRun(s: string) {
    |s| == 4 && forall i :: 0 <= i < 4 ==> IsDigit(s[i])
  }

  /** DIAR, a year, a month and day, and a number. */
  lemma IdsLookLikeThis(year: string, day: string, number: string)
    requires FourDigitRun(year) && FourDigitRun(day) && FourDigitRun(number)
    ensures IsPrefix("DIAR-" + year + "-" + day + "-")
    ensures IdAtStart("DIAR-" + year + "-" + day + "-" + number)
  {
  }

  /** f"{prefix}{seq:04d}" */
  function Format(prefix: string, n: nat): string {
    prefix + Pad4(n)
  }

  predicate HasPrefix(id: string, prefix: string) {
    prefix <= id
  }

  lemma FormatIsInjective(prefix: string, m: nat, n: nat)
    ensures HasPrefix(Format(prefix, n), prefix)
    ensures Format(prefix, m) == Format(prefix, n) <==> m == n
  {
    ReadDecimalInvertsPad4(m);
    ReadDecimalInvertsPad4(n);
    assert Format(prefix, m)[|prefix|..] == Pad4(m);
    assert Format(prefix, n)[|prefix|..] == Pad4(n);
  }

  /** re.findall: leftmost matches, each search resuming after the previous match. */
  function FindAll(s: string): seq<string> {
    if s == "" then []
    else if IdAtStart(s) then [s[..ID_LENGTH]] + FindAll(s[ID_LENGTH..])
    else FindAll(s[1..])
  }

  function Here(s: string): seq<string> {
    if IdAtStart(s) then [s[..ID_LENGTH]] else []
  }

  /** Every place where an identifier stands, whether or not places overlap. */
  function Occurrences(s: string): seq<string> {
    if s == "" then [] else Here(s) + Occurrences(s[1..])
  }

  lemma OccurrencesStep(s: string)
    requires s != ""
    ensures Occurrences(s) == Here(s) + Occurrences(s[1..])
  {
  }

  /** No identifier starts inside another, since only the first character can be a D. */
  lemma {:induction false} NothingStartsInside(s: string, k: nat)
    requires IdAtStart(s)
    requires 1 <= k <= ID_LENGTH
    ensures Occurrences(s[k..]) == Occurrences(s[ID_LENGTH..])
    decreases ID_LENGTH - k
  {
    if k < ID_LENGTH {
      assert Fits(k, s[k]);
      assert s[k..][0] == s[k] && s[k] != 'D';
      assert !IdAtStart(s[k..]) by {
        assert !Fits(0, s[k..][0]);
      }
      assert s[k..][1..] == s[k + 1..];
      NothingStartsInside(s, k + 1);
    }
  }

  /** Skipping past each match loses nothing: the scan finds all occurrences, in order. */
  lemma {:induction false} FindAllFindsEveryOccurrence(s: string)
    ensures FindAll(s) == Occurrences(s)
    decreases |s|
  {
    if s != "" {
      if IdAtStart(s) {
        NothingStartsInside(s, 1);
        FindAllFindsEveryOccurrence(s[ID_LENGTH..]);
      } else {
        FindAllFindsEveryOccurrence(s[1..]);
      }
    }
  }

  /** The identifier stands in the text from position k on. */
  predicate StandsAt(s: string, k: int, id: string) {
    0 <= k && k + ID_LENGTH <= |s| && s[k..k + ID_LENGTH] == id && IdAtStart(id)
  }

  /** What the scan finds is what stands somewhere in the text. */
  lemma {:induction false} FoundExactly(s: string, id: string)
    ensures id in FindAll(s) <==> exists k :: StandsAt(s, k, id)
  {
    FindAllFindsEveryOccurrence(s);
    OccursExactly(s, id);
  }

  lemma {:induction false} OccursExactly(s: string, id: string)
    ensures id in Occurrences(s) <==> exists k :: StandsAt(s, k, id)
    decreases |s|
  {
    if s != "" {
      OccursExactly(s[1..], id);
      HereExactly(s, id);
      forall k | StandsAt(s[1..], k, id) ensures StandsAt(s, k + 1, id) {
        assert s[1..][k..k + ID_LENGTH] == s[k + 1..k + 1 + ID_LENGTH];
      }
      forall k | StandsAt(s, k, id) && k > 0 ensures StandsAt(s[1..], k - 1, id) {
        assert s[1..][k - 1..k - 1 + ID_LENGTH] == s[k..k + ID_LENGTH];
      }
    }
  }

  lemma HereExactly(s: string, id: string)
    ensures id in Here(s) <==> StandsAt(s, 0, id)
  {
    if |s| >= ID_LENGTH {
      assert forall k :: 0 <= k < ID_LENGTH ==> s[k] == s[..ID_LENGTH][k];
    }
  }

  /** An identifier cannot straddle the start of another. */
  lemma StartsAlike(before: string, rest: string)
    requires before != "" && rest != "" && rest[0] == 'D'
    ensures Here(before + rest) == Here(before)
  {
    var s := before + rest;
    if |before| < ID_LENGTH {
      assert s[|before|] == 'D';
      assert !Fits(|before|, s[|before|]);
    } else {
      assert forall k :: 0 <= k < ID_LENGTH ==> s[k] == before[k];
      assert s[..ID_LENGTH] == before[..ID_LENGTH];
    }
  }

  lemma {:induction false} OccurrencesSplit(before: string, rest: string)
    requires rest != "" && rest[0] == 'D'
    ensures Occurrences(before + rest) == Occurrences(before) + Occurrences(rest)
  {
    if before == "" {
      assert before + rest == rest;
    } else {
      hide Occurrences, Here;
      StartsAlike(before, rest);
      OccurrencesStep(before);
      OccurrencesStep(before + rest);
      assert (before + rest)[1..] == before[1..] + rest;
      OccurrencesSplit(before[1..], rest);
      ConcatAssociates(Here(before), Occurrences(before[1..]), Occurrences(rest));
    }
  }

  /**
   * An identifier embedded anywhere in a text is read back. Up to number 9999 of a day that is
   * the identifier itself; a longer number is read as its leading four digits.
   */
  lemma ScanReadsFormattedId(before: string, prefix: string, n: nat, after: string)
    requires IsPrefix(prefix)
    ensures FindAll(before + Format(prefix, n) + after)
            == FindAll(before) + [Format(prefix, FourDigits(n))] + FindAll(Pad4(n)[4..] + after)
    ensures FourDigits(n) == n <==> n <= 9999
  {
    IdStarts(prefix, n, after);
    hide FindAll, Occurrences, Format, Pad4, IdAtStart;
    var id := Format(prefix, n) + after;
    OccurrencesSplit(before, id);
    ConcatAssociates(before, Format(prefix, n), after);
    ConcatAssociates(FindAll(before), [Format(prefix, FourDigits(n))], FindAll(Pad4(n)[4..] + after));
    FindAllFindsEveryOccurrence(before);
    FindAllFindsEveryOccurrence(id);
    FindAllFindsEveryOccurrence(before + id);
  }

  lemma IdStarts(prefix: string, n: nat, after: string)
    requires IsPrefix(prefix)
    ensures var id := Format(prefix, n) + after;
            && id != "" && id[0] == 'D'
            && FindAll(id) == [Format(prefix, FourDigits(n))] + FindAll(Pad4(n)[4..] + after)
  {
    hide FindAll, Pad4, FourDigits;
    var id := Format(prefix, n) + after;
    Pad4Prefix(n);
    assert forall k :: 0 <= k < PREFIX_LENGTH ==> id[k] == prefix[k];
    assert forall k :: PREFIX_LENGTH <= k < ID_LENGTH ==> id[k] == Pad4(n)[k - PREFIX_LENGTH];
    assert Fits(0, prefix[0]);
    assert IdAtStart(id);
    FindAtStart(id);
    Pad4Short(FourDigits(n));
    assert id[..ID_LENGTH] == prefix + Pad4(n)[..4];
    assert id[ID_LENGTH..] == Pad4(n)[4..] + after;
  }

  lemma FindAtStart(s: string)
    requires IdAtStart(s)
    ensures FindAll(s) == [s[..ID_LENGTH]] + FindAll(s[ID_LENGTH..])
  {
  }

  lemma Pad4Short(n: nat)
    requires n <= 9999
    ensures |Pad4(n)| == 4
  {
    DecimalLength(n);
  }

  /** A number of five digits is read as the identifier of a tenth of it. */
  lemma FiveDigitIdIsMisread(prefix: string, n: nat)
    requires IsPrefix(prefix)
    requires 10000 <= n <= 99999
    ensures FindAll(Format(prefix, n)) == [Format(prefix, n / 10)]
  {
    ScanReadsFormattedId("", prefix, n, "");
    assert "" + Format(prefix, n) + "" == Format(prefix, n);
    assert Pad4(n)[4..] + "" == Pad4(n)[4..];
    NoIdWithoutD(Pad4(n)[4..]);
  }

  lemma {:induction false} NoIdWithoutD(s: string)
    requires forall i :: 0 <= i < |s| ==> IsDigit(s[i])
    ensures FindAll(s) == []
  {
    if s != "" {
      assert !Fits(0, s[0]);
      NoIdWithoutD(s[1..]);
    }
  }
}
