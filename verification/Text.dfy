/** The string operations the agent relies on: character classes, strip, and decimal numerals. */
module Text {

  predicate IsDigit(c: char) {
    '0' <= c <= '9'
  }

  /** The characters that str.isspace accepts, which are those str.strip removes. */
  predicate IsSpace(c: char) {
    || '\t' <= c <= '\r' || '\U{1C}' <= c <= '\U{20}' || c == '\U{85}' || c == '\U{A0}'
    || c == '\U{1680}' || '\U{2000}' <= c <= '\U{200A}' || c == '\U{2028}' || c == '\U{2029}'
    || c == '\U{202F}' || c == '\U{205F}' || c == '\U{3000}'
  }

  /** The characters at which str.splitlines ends a line. */
  predicate IsLineBreak(c: char) {
    || '\n' <= c <= '\r' || '\U{1C}' <= c <= '\U{1E}' || c == '\U{85}'
    || c == '\U{2028}' || c == '\U{2029}'
  }

  /** Every character that ends a line is white space; blanks and tabs are white space within a line. */
  lemma LineBreaksAreSpace(c: char)
    ensures IsLineBreak(c) ==> IsSpace(c)
    ensures IsSpace(' ') && IsSpace('\t') && !IsLineBreak(' ') && !IsLineBreak('\t') && IsLineBreak('\r')
    ensures '!' <= c <= '~' ==> !IsSpace(c)
  {
  }

  function LStrip(s: string): string {
    if s != "" && IsSpace(s[0]) then LStrip(s[1..]) else s
  }

  function RStrip(s: string): string {
    if s != "" && IsSpace(s[|s| - 1]) then RStrip(s[..|s| - 1]) else s
  }

  function Strip(s: string): string {
    RStrip(LStrip(s))
  }

  function LowerChar(c: char): char {
    if 'A' <= c <= 'Z' then ((c as int) + 32) as char else c
  }

  function Lower(s: string): string {
    seq(|s|, i requires 0 <= i < |s| => LowerChar(s[i]))
  }

  predicate IsCapital(c: char) {
    'A' <= c <= 'Z'
  }

  /** The same letter, or a small one and its capital. */
  predicate SameLetter(a: char, b: char) {
    || a == b
    || ('A' <= a <= 'Z' && 'a' <= b <= 'z' && (a as int) - ('A' as int) == (b as int) - ('a' as int))
    || ('A' <= b <= 'Z' && 'a' <= a <= 'z' && (b as int) - ('A' as int) == (a as int) - ('a' as int))
  }

  /** Lower case tells apart exactly what differs in more than the case of its letters, and has no capitals. */
  lemma LowerFoldsCase(s: string, t: string)
    ensures Lower(s) == Lower(t) <==> |s| == |t| && forall i :: 0 <= i < |s| ==> SameLetter(s[i], t[i])
    ensures forall i :: 0 <= i < |Lower(s)| ==> !IsCapital(Lower(s)[i])
    ensures (forall i :: 0 <= i < |s| ==> !IsCapital(s[i])) ==> Lower(s) == s
  {
    if Lower(s) == Lower(t) {
      assert |s| == |Lower(s)| == |t|;
      forall i | 0 <= i < |s| ensures SameLetter(s[i], t[i]) {
        assert LowerChar(s[i]) == Lower(s)[i] == Lower(t)[i] == LowerChar(t[i]);
      }
    }
  }

  lemma ConcatAssociates<T>(a: seq<T>, b: seq<T>, c: seq<T>)
    ensures a + b + c == a + (b + c)
  {
  }

  /** Right-stripping never reaches past a character that is not white space. */
  lemma {:induction false} RStripKeepsHead(head: string, tail: string)
    requires head != "" && !IsSpace(head[|head| - 1])
    ensures RStrip(head + tail) == head + RStrip(tail)
  {
    if tail == "" {
      assert head + tail == head;
    } else {
      assert (head + tail)[|head + tail| - 1] == tail[|tail| - 1];
      assert (head + tail)[..|head + tail| - 1] == head + tail[..|tail| - 1];
      if IsSpace(tail[|tail| - 1]) {
        RStripKeepsHead(head, tail[..|tail| - 1]);
      }
    }
  }

  predicate Spaces(s: string) {
    forall i :: 0 <= i < |s| ==> IsSpace(s[i])
  }

  /** White space around a text that neither starts nor ends with any is all that strip removes. */
  lemma {:induction false} StripRemovesSpaces(before: string, text: string, after: string)
    requires Spaces(before) && Spaces(after)
    requires text != "" ==> !IsSpace(text[0]) && !IsSpace(text[|text| - 1])
    ensures Strip(before + (text + after)) == text
  {
    if before != "" {
      assert (before + (text + after))[1..] == before[1..] + (text + after);
      StripRemovesSpaces(before[1..], text, after);
    } else {
      assert before + (text + after) == text + after;
      StripsEnd(text, after);
      if text == "" {
        assert text + after == after;
        StripsStart(after);
      }
    }
  }

  lemma {:induction false} StripOfVisible(s: string, i: nat)
    requires i < |s| && !IsSpace(s[i])
    ensures Strip(s) != ""
    decreases |s|
  {
    LStripKeepsVisible(s, i);
    var t := LStrip(s);
    RStripKeepsHead(t[..1], t[1..]);
    assert t[..1] + t[1..] == t;
  }

  lemma {:induction false} LStripKeepsVisible(s: string, i: nat)
    requires i < |s| && !IsSpace(s[i])
    ensures LStrip(s) != "" && !IsSpace(LStrip(s)[0])
  {
    if IsSpace(s[0]) {
      LStripKeepsVisible(s[1..], i - 1);
    }
  }

  lemma {:induction false} StripsEnd(text: string, after: string)
    requires Spaces(after) && (text != "" ==> !IsSpace(text[|text| - 1]))
    ensures RStrip(text + after) == text
  {
    if after == "" {
      assert text + after == text;
    } else {
      assert (text + after)[..|text + after| - 1] == text + after[..|after| - 1];
      StripsEnd(text, after[..|after| - 1]);
    }
  }

  lemma {:induction false} StripsStart(s: string)
    requires Spaces(s)
    ensures LStrip(s) == ""
  {
    if s != "" {
      StripsStart(s[1..]);
    }
  }

  // ---- words ----------------------------------------------------------------------------

  /** " ".join */
  function Join(words: seq<string>): string {
    if words == [] then ""
    else if |words| == 1 then words[0]
    else words[0] + " " + Join(words[1..])
  }

  /** str.split(): the maximal runs of characters that are not white space; current is the run being read. */
  function Words(s: string, current: string): seq<string> {
    if s == "" then (if current == "" then [] else [current])
    else if IsSpace(s[0]) then (if current == "" then [] else [current]) + Words(s[1..], "")
    else Words(s[1..], current + [s[0]])
  }

  predicate IsWord(w: string) {
    w != "" && forall i :: 0 <= i < |w| ==> !IsSpace(w[i])
  }

  predicate AllWords(words: seq<string>) {
    forall i :: 0 <= i < |words| ==> IsWord(words[i])
  }

  lemma {:induction false} RunIsRead(run: string, rest: string, current: string)
    requires forall i :: 0 <= i < |run| ==> !IsSpace(run[i])
    ensures Words(run + rest, current) == Words(rest, current + run)
    decreases |run|
  {
    if run == "" {
      assert run + rest == rest && current + run == current;
    } else {
      assert (run + rest)[1..] == run[1..] + rest;
      assert current + [run[0]] + run[1..] == current + run;
      RunIsRead(run[1..], rest, current + [run[0]]);
    }
  }

  /** White space alone has no words; and after white space the next word is all up to the next white space. */
  lemma {:induction false} FirstWord(gap: string, word: string, rest: string)
    requires Spaces(gap)
    ensures Words(gap, "") == []
    ensures IsWord(word) && (rest != "" ==> IsSpace(rest[0]))
            ==> Words(gap + (word + rest), "") == [word] + Words(rest, "")
  {
    if gap != "" {
      assert (gap + (word + rest))[1..] == gap[1..] + (word + rest);
      FirstWord(gap[1..], word, rest);
    } else {
      assert gap + (word + rest) == word + rest;
      if IsWord(word) {
        RunIsRead(word, rest, "");
        assert "" + word == word;
      }
    }
  }

  lemma {:induction false} WordsAreWords(s: string, current: string)
    requires forall i :: 0 <= i < |current| ==> !IsSpace(current[i])
    ensures AllWords(Words(s, current))
    decreases |s|
  {
    if s != "" {
      WordsAreWords(s[1..], if IsSpace(s[0]) then "" else current + [s[0]]);
    }
  }

  /** Joining words and splitting the result gives the words again, so different words never join alike. */
  lemma {:induction false} WordsInvertJoin(words: seq<string>)
    requires AllWords(words)
    ensures Words(Join(words), "") == words
  {
    if words != [] {
      var w := words[0];
      if |words| == 1 {
        FirstWord("", w, "");
        assert "" + (w + "") == w;
      } else {
        WordsInvertJoin(words[1..]);
        var rest := " " + Join(words[1..]);
        FirstWord("", w, rest);
        assert "" + (w + rest) == Join(words);
        assert rest[1..] == Join(words[1..]);
      }
    }
  }

  // ---- decimal numerals -----------------------------------------------------------------

  function Digit(d: nat): char
    requires d < 10
  {
    ((('0' as int) + d) as char)
  }

  function Decimal(n: nat): (s: string)
    ensures s != "" && forall i :: 0 <= i < |s| ==> IsDigit(s[i])
  {
    if n < 10 then [Digit(n)] else Decimal(n / 10) + [Digit(n % 10)]
  }

  function DigitValue(c: char): nat
    requires IsDigit(c)
  {
    (c as int) - ('0' as int)
  }

  function ReadDecimal(s: string): nat
    requires forall i :: 0 <= i < |s| ==> IsDigit(s[i])
  {
    if s == "" then 0
    else 10 * ReadDecimal(s[..|s| - 1]) + DigitValue(s[|s| - 1])
  }

  lemma {:induction false} ReadDecimalInvertsDecimal(n: nat)
    ensures ReadDecimal(Decimal(n)) == n
  {
    if n >= 10 {
      ReadDecimalInvertsDecimal(n / 10);
      assert Decimal(n)[..|Decimal(n)| - 1] == Decimal(n / 10);
    }
  }

  /** The format specification :04d. */
  function Zeros(k: nat): (s: string)
    ensures |s| == k && forall i :: 0 <= i < k ==> s[i] == '0'
  {
    seq(k, _ => '0')
  }

  function Pad4(n: nat): (s: string)
    ensures |s| >= 4 && forall i :: 0 <= i < |s| ==> IsDigit(s[i])
  {
    var d := Decimal(n);
    if |d| >= 4 then d else Zeros(4 - |d|) + d
  }

  lemma {:induction false} ReadDecimalIgnoresZeros(k: nat, s: string)
    requires forall i :: 0 <= i < |s| ==> IsDigit(s[i])
    ensures ReadDecimal(Zeros(k) + s) == ReadDecimal(s)
  {
    if s != "" {
      assert (Zeros(k) + s)[..|Zeros(k) + s| - 1] == Zeros(k) + s[..|s| - 1];
      ReadDecimalIgnoresZeros(k, s[..|s| - 1]);
    } else if k > 0 {
      assert Zeros(k) + s == Zeros(k);
      assert Zeros(k)[..k - 1] == Zeros(k - 1) + "";
      ReadDecimalIgnoresZeros(k - 1, "");
    } else {
      assert Zeros(k) + s == "";
    }
  }

  /** A number is read back from its zero-padded numeral, so padding never merges two numbers. */
  lemma ReadDecimalInvertsPad4(n: nat)
    ensures ReadDecimal(Pad4(n)) == n
  {
    ReadDecimalInvertsDecimal(n);
    var d := Decimal(n);
    if |d| < 4 {
      ReadDecimalIgnoresZeros(4 - |d|, d);
    }
  }

  lemma {:induction false} DecimalLength(n: nat)
    ensures |Decimal(n)| <= 4 <==> n <= 9999
    ensures |Decimal(n)| <= 3 <==> n <= 999
    ensures |Decimal(n)| <= 2 <==> n <= 99
    ensures |Decimal(n)| <= 1 <==> n <= 9
  {
    if n >= 10 {
      DecimalLength(n / 10);
    }
  }

  /** The leading four digits of a long numeral are the numeral of the number with the rest dropped. */
  function FourDigits(n: nat): (m: nat)
    ensures m <= 9999
  {
    if n <= 9999 then n else FourDigits(n / 10)
  }

  lemma {:induction false} Pad4Prefix(n: nat)
    ensures Pad4(n)[..4] == Pad4(FourDigits(n))
  {
    DecimalLength(n);
    if n <= 9999 {
      assert |Pad4(n)| == 4;
    } else {
      DecimalLength(n / 10);
      Pad4Prefix(n / 10);
      assert |Decimal(n / 10)| >= 4;
      assert Decimal(n) == Decimal(n / 10) + [Digit(n % 10)];
      assert Pad4(n)[..4] == Decimal(n / 10)[..4];
    }
  }
}
