/** The text operations the parsers rely on: lines, words, trimming, splitting, unsigned numbers. */
module Text {
  import opened Slots
  import opened Decimal

  /** The Unicode White_Space property. */
  predicate IsSpace(c: char) {
    || '\U{9}' <= c <= '\U{D}' || c == ' ' || c == '\U{85}' || c == '\U{A0}' || c == '\U{1680}'
    || '\U{2000}' <= c <= '\U{200A}' || c == '\U{2028}' || c == '\U{2029}' || c == '\U{202F}' || c == '\U{205F}' || c == '\U{3000}'
  }

  /** The characters that have that property, one by one. */
  const WHITE_SPACE: string :=
    "\U{9}\U{A}\U{B}\U{C}\U{D} \U{85}\U{A0}\U{1680}\U{2000}\U{2001}\U{2002}\U{2003}\U{2004}\U{2005}\U{2006}\U{2007}\U{2008}\U{2009}\U{200A}\U{2028}\U{2029}\U{202F}\U{205F}\U{3000}"

  lemma SpacesAreThese(c: char)
    ensures IsSpace(c) <==> c in WHITE_SPACE
  {
    if IsSpace(c) {
      assert exists k :: 0 <= k < |WHITE_SPACE| && WHITE_SPACE[k] == c by {
        var k := if c <= '\U{D}' then c as int - 9
                 else if '\U{2000}' <= c <= '\U{200A}' then c as int - 0x2000 + 9
                 else if c == ' ' then 5 else if c == '\U{85}' then 6 else if c == '\U{A0}' then 7 else if c == '\U{1680}' then 8
                 else if c == '\U{2028}' then 20 else if c == '\U{2029}' then 21 else if c == '\U{202F}' then 22
                 else if c == '\U{205F}' then 23 else 24;
        assert WHITE_SPACE[k] == c;
      }
    }
  }

  predicate NoSpace(text: string) {
    forall k :: 0 <= k < |text| ==> !IsSpace(text[k])
  }

  predicate AllSpace(text: string) {
    forall k :: 0 <= k < |text| ==> IsSpace(text[k])
  }

  predicate Lacks(text: string, c: char) {
    forall k :: 0 <= k < |text| ==> text[k] != c
  }

  // ---------- Words ----------

  function TrimStart(text: string): string {
    if |text| > 0 && IsSpace(text[0]) then TrimStart(text[1..]) else text
  }

  function TrimEnd(text: string): string {
    if |text| > 0 && IsSpace(text[|text| - 1]) then TrimEnd(text[..|text| - 1]) else text
  }

  function Trim(text: string): string {
    TrimEnd(TrimStart(text))
  }

  function WordLength(text: string): (n: nat)
    ensures n <= |text| && NoSpace(text[..n])
    ensures n < |text| ==> IsSpace(text[n])
  {
    if |text| == 0 || IsSpace(text[0]) then 0
    else
      var n := WordLength(text[1..]);
      assert text[..n + 1] == [text[0]] + text[1..][..n];
      n + 1
  }

  lemma {:induction false} TrimStartShortens(text: string)
    ensures |TrimStart(text)| <= |text|
    ensures |TrimStart(text)| > 0 ==> !IsSpace(TrimStart(text)[0])
  {
    if |text| > 0 && IsSpace(text[0]) {
      TrimStartShortens(text[1..]);
    }
  }

  /** The words of a text: its maximal runs without white space. */
  function Words(text: string): seq<string>
    decreases |text|
  {
    TrimStartShortens(text);
    var rest := TrimStart(text);
    if |rest| == 0 then []
    else
      var n := WordLength(rest);
      assert n > 0;
      [rest[..n]] + Words(rest[n..])
  }

  function Join(words: seq<string>): string {
    if |words| == 0 then "" else " " + words[0] + Join(words[1..])
  }

  predicate IsWord(word: string) {
    |word| > 0 && NoSpace(word)
  }

  lemma {:induction false} TrimStartSkips(space: string, text: string)
    requires AllSpace(space)
    ensures TrimStart(space + text) == TrimStart(text)
  {
    if |space| == 0 {
      assert space + text == text;
    } else {
      assert (space + text)[1..] == space[1..] + text;
      TrimStartSkips(space[1..], text);
    }
  }

  lemma {:induction false} TrimEndSkips(text: string, space: string)
    requires AllSpace(space)
    ensures TrimEnd(text + space) == TrimEnd(text)
    decreases |space|
  {
    if |space| == 0 {
      assert text + space == text;
    } else {
      var n := |space| - 1;
      assert (text + space)[..|text| + n] == text + space[..n];
      TrimEndSkips(text, space[..n]);
    }
  }

  /** A text that neither begins nor ends with white space is what is left of it when it is padded. */
  lemma TrimPadded(lead: string, text: string, trail: string)
    requires AllSpace(lead) && AllSpace(trail)
    requires |text| > 0 ==> !IsSpace(text[0]) && !IsSpace(text[|text| - 1])
    ensures Trim(lead + text + trail) == text
  {
    assert lead + text + trail == lead + (text + trail);
    TrimStartSkips(lead, text + trail);
    if |text| == 0 {
      assert text + trail == trail + "";
      TrimStartSkips(trail, "");
    } else {
      assert TrimStart(text + trail) == text + trail;
      TrimEndSkips(text, trail);
    }
  }

  lemma {:induction false} WordLengthOf(word: string, rest: string)
    requires NoSpace(word) && (|rest| == 0 || IsSpace(rest[0]))
    ensures WordLength(word + rest) == |word|
  {
    if |word| == 0 {
      assert word + rest == rest;
    } else {
      assert (word + rest)[1..] == word[1..] + rest;
      WordLengthOf(word[1..], rest);
    }
  }

  /** The first word is split off, whatever white space is before it. */
  lemma WordsStep(space: string, word: string, rest: string)
    requires AllSpace(space) && IsWord(word) && (|rest| == 0 || IsSpace(rest[0]))
    ensures Words(space + word + rest) == [word] + Words(rest)
  {
    assert space + word + rest == space + (word + rest);
    TrimStartSkips(space, word + rest);
    assert !IsSpace((word + rest)[0]);
    assert TrimStart(word + rest) == word + rest;
    WordLengthOf(word, rest);
    assert (word + rest)[..|word|] == word && (word + rest)[|word|..] == rest;
  }

  lemma NoWords(space: string)
    requires AllSpace(space)
    ensures Words(space) == []
  {
    TrimStartSkips(space, "");
    assert space + "" == space;
  }

  /** Joining words and splitting the result gives the words back. */
  lemma {:induction false} WordsOfJoin(words: seq<string>, trailer: string)
    requires (forall k :: 0 <= k < |words| ==> IsWord(words[k])) && AllSpace(trailer)
    ensures Words(Join(words) + trailer) == words
    ensures |Join(words) + trailer| > 0 ==> IsSpace((Join(words) + trailer)[0])
  {
    if |words| == 0 {
      assert Join(words) + trailer == trailer;
      NoWords(trailer);
    } else {
      var rest := Join(words[1..]) + trailer;
      WordsOfJoin(words[1..], trailer);
      assert Join(words) + trailer == " " + words[0] + rest;
      WordsStep(" ", words[0], rest);
    }
  }

  // ---------- Splitting ----------

  function IndexOf(text: string, c: char): (found: Option<nat>)
    ensures match found
            case None => Lacks(text, c)
            case Some(i) => i < |text| && text[i] == c && Lacks(text[..i], c)
  {
    if |text| == 0 then None
    else if text[0] == c then Some(0)
    else match IndexOf(text[1..], c) case None => None case Some(i) => Some(i + 1)
  }

  function LastIndexOf(text: string, c: char): (found: Option<nat>)
    ensures match found
            case None => Lacks(text, c)
            case Some(i) => i < |text| && text[i] == c && Lacks(text[i + 1..], c)
  {
    if |text| == 0 then None
    else if text[|text| - 1] == c then Some(|text| - 1)
    else LastIndexOf(text[..|text| - 1], c)
  }

  lemma {:induction false} IndexOfFirst(before: string, c: char, after: string)
    requires Lacks(before, c)
    ensures IndexOf(before + [c] + after, c) == Some(|before|)
  {
    if |before| > 0 {
      assert (before + [c] + after)[1..] == before[1..] + [c] + after;
      IndexOfFirst(before[1..], c, after);
    }
  }

  lemma {:induction false} LastIndexOfLast(before: string, c: char, after: string)
    requires Lacks(after, c)
    ensures LastIndexOf(before + [c] + after, c) == Some(|before|)
    decreases |after|
  {
    if |after| > 0 {
      var n := |after| - 1;
      var text := before + [c] + after;
      assert text[..|text| - 1] == before + [c] + after[..n];
      LastIndexOfLast(before, c, after[..n]);
    }
  }

  /** Lines end with a newline, or a carriage return and a newline; the last one may end with the text. */
  function Lines(text: string): seq<string>
    decreases |text|
  {
    if |text| == 0 then []
    else match IndexOf(text, '\n')
      case None => [text]
      case Some(i) => [StripCarriageReturn(text[..i])] + Lines(text[i + 1..])
  }

  function StripCarriageReturn(line: string): string {
    if |line| > 0 && line[|line| - 1] == '\r' then line[..|line| - 1] else line
  }

  /** Lines with what ends each of them. */
  function Unlines(lines: seq<string>, ends: seq<string>): string
    requires |ends| == |lines|
  {
    if |lines| == 0 then "" else lines[0] + ends[0] + Unlines(lines[1..], ends[1..])
  }

  /** One line: no newline in it, and no carriage return at its end. */
  predicate IsLine(line: string) {
    Lacks(line, '\n') && (|line| > 0 ==> line[|line| - 1] != '\r')
  }

  /** Every line ends with a newline, or a carriage return and a newline; the last one may end with the text. */
  predicate AreEnds(lines: seq<string>, ends: seq<string>) {
    && |ends| == |lines|
    && forall k :: 0 <= k < |ends| ==> ends[k] == "\n" || ends[k] == "\r\n" || (k == |ends| - 1 && ends[k] == "" && lines[k] != "")
  }

  lemma FirstLine(line: string, end: string, rest: string)
    requires IsLine(line) && (end == "\n" || end == "\r\n")
    ensures Lines(line + end + rest) == [line] + Lines(rest)
  {
    var before := if end == "\n" then line else line + "\r";
    var text := line + end + rest;
    assert text == before + ['\n'] + rest;
    IndexOfFirst(before, '\n', rest);
    assert text[..|before|] == before && text[|before| + 1..] == rest;
    assert StripCarriageReturn(before) == line;
  }

  lemma {:induction false} LinesOfUnlines(lines: seq<string>, ends: seq<string>)
    requires AreEnds(lines, ends) && forall k :: 0 <= k < |lines| ==> IsLine(lines[k])
    ensures Lines(Unlines(lines, ends)) == lines
  {
    if |lines| > 0 {
      LinesOfUnlines(lines[1..], ends[1..]);
      if ends[0] == "" {
        assert Unlines(lines, ends) == lines[0] && lines == [lines[0]];
      } else {
        FirstLine(lines[0], ends[0], Unlines(lines[1..], ends[1..]));
      }
    }
  }

  // ---------- Unsigned numbers ----------

  const U64: nat := 0x1_0000_0000_0000_0000

  const U32: nat := 0x1_0000_0000

  /** Digit by digit, stopping at the first character that is no digit and at the first overflow. */
  function Accumulate(digits: string, value: nat, limit: nat): Option<nat> {
    if |digits| == 0 then Some(value)
    else if !IsDigit(digits[0]) then None
    else
      var next := value * 10 + DigitValue(digits[0]);
      if next >= limit then None else Accumulate(digits[1..], next, limit)
  }

  /** An unsigned number below `limit`: an optional plus sign and at least one digit. */
  function ParseUnsigned(text: string, limit: nat): Option<nat> {
    if |text| == 0 then None
    else if text[0] == '+' then (if |text| == 1 then None else Accumulate(text[1..], 0, limit))
    else Accumulate(text, 0, limit)
  }

  function Unsigned(text: string): string {
    if |text| > 0 && text[0] == '+' then text[1..] else text
  }

  lemma {:induction false} ValueGrows(digits: string, k: nat)
    requires AllDigits(digits) && k <= |digits|
    ensures Value(digits[..k]) <= Value(digits)
    decreases |digits|
  {
    if k == |digits| {
      assert digits[..k] == digits;
    } else {
      var shorter := digits[..|digits| - 1];
      assert shorter[..k] == digits[..k];
      ValueGrows(shorter, k);
    }
  }

  lemma {:induction false} AccumulateValue(digits: string, k: nat, limit: nat)
    requires k <= |digits| && AllDigits(digits[..k]) && Value(digits[..k]) < limit
    ensures Accumulate(digits[k..], Value(digits[..k]), limit)
         == if AllDigits(digits) && Value(digits) < limit then Some(Value(digits)) else None
    decreases |digits| - k
  {
    if k == |digits| {
      assert digits[..k] == digits;
    } else {
      assert digits[k..][0] == digits[k] && digits[k..][1..] == digits[k + 1..];
      if IsDigit(digits[k]) {
        assert digits[..k + 1][..k] == digits[..k];
        var next := Value(digits[..k]) * 10 + DigitValue(digits[k]);
        assert Value(digits[..k + 1]) == next;
        if next < limit {
          AccumulateValue(digits, k + 1, limit);
        } else if AllDigits(digits) {
          ValueGrows(digits, k + 1);
        }
      }
    }
  }

  /** The value of a decimal numeral below the limit. */
  function Denoted(digits: string, limit: nat): Option<nat> {
    if |digits| > 0 && AllDigits(digits) && Value(digits) < limit then Some(Value(digits)) else None
  }

  /** Exactly the decimal numerals below the limit, with or without a plus sign, are accepted, for their value. */
  lemma ParseUnsignedIsExact(text: string, limit: nat)
    requires limit > 0
    ensures ParseUnsigned(text, limit) == Denoted(Unsigned(text), limit)
  {
    var digits := Unsigned(text);
    assert digits[..0] == [] && digits[0..] == digits;
    AccumulateValue(digits, 0, limit);
  }

  /** Printing and parsing a number gives it back when it fits, and nothing when it does not. */
  lemma ParsePrinted(n: nat, limit: nat)
    requires limit > 0
    ensures ParseUnsigned(Print(n), limit) == if n < limit then Some(n) else None
    ensures IsWord(Print(n)) && Lacks(Print(n), ')') && Lacks(Print(n), '\n')
    ensures ParseUnsigned("+" + Print(n), limit) == ParseUnsigned(Print(n), limit)
  {
    assert ("+" + Print(n))[1..] == Print(n);
    ParseUnsignedIsExact("+" + Print(n), limit);
    assert IsDigit(Print(n)[0]);
    ParseUnsignedIsExact(Print(n), limit);
  }
}
