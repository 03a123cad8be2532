/**
  The language of Range headers that the download handler accepts, as a grammar that knows
  nothing of how they are read: optional white space, the unit in any case, and one
  specifier whose numbers may carry a sign. The headers of section 14.1.2 of RFC 9110 with
  one specifier are those without signs and inner spaces.
 */
module RangeGrammar {
  import opened Wrappers
  import opened Text
  import opened ByteRange

  /** The text is an optional sign and decimal digits, of a value within 64 bits. */
  ghost predicate Denotes(text: string, n: int) {
    exists digits :: SignedDigits(text, digits, n)
  }

  predicate SignedDigits(text: string, digits: string, n: int) {
    && ParseDecimal(digits).Some?
    && MIN_INT64 <= n <= MAX_INT64
    && var value := ParseDecimal(digits).value;
       || ((text == digits || text == "+" + digits) && n == value)
       || (text == "-" + digits && n == -(value as int))
  }

  /** The numbers on the two sides of the dash. */
  ghost predicate Sides(left: string, right: string, spec: Spec) {
    match spec
    case FromTo(first, last) => first >= 0 && last >= 0 && Denotes(left, first) && Denotes(right, last)
    case From(first) => first >= 0 && Denotes(left, first) && right == ""
    case Suffix(length) => length > 0 && left == "" && Denotes(right, length)
  }

  /** A header taken apart; the unit is the only piece that is never empty. */
  datatype Pieces = Pieces(before: string, unit: string, afterUnit: string, left: string, beforeDash: string,
                           afterDash: string, right: string, after: string)

  function Joined(p: Pieces): string {
    p.before + p.unit + p.afterUnit + p.left + p.beforeDash + "-" + p.afterDash + p.right + p.after
  }

  ghost predicate Grammatical(p: Pieces, spec: Spec) {
    && ToLower(p.unit) == UNIT
    && Blank(p.before) && Blank(p.afterUnit) && Blank(p.beforeDash) && Blank(p.afterDash) && Blank(p.after)
    && '-' !in p.left && Sides(p.left, p.right, spec)
    && (p.left == "" ==> p.beforeDash == "") && (p.right == "" ==> p.afterDash == "")
  }

  /** The header is a sentence of the grammar for this specifier. */
  ghost predicate HeaderFor(raw: string, spec: Spec) {
    exists p :: Grammatical(p, spec) && raw == Joined(p)
  }

  // ----- Numbers -----------------------------------------------------------------------

  /** Digits begin and end with a digit, and hold no sign, comma or space. */
  lemma DigitsShape(digits: string)
    requires ParseDecimal(digits).Some?
    ensures digits != "" && IsDigit(digits[0]) && IsDigit(digits[|digits| - 1])
    ensures ',' !in digits && '-' !in digits
  {
    ParsedIsDigits(digits);
    assert digits[0] in digits && digits[|digits| - 1] in digits;
  }

  lemma DenotedIsParsed(text: string, n: int)
    requires Denotes(text, n)
    ensures ParseInt(text) == Some(n)
    ensures text != "" && Trimmed(text) && ',' !in text
  {
    var digits :| SignedDigits(text, digits, n);
    DigitsShape(digits);
    if text != digits { assert text[1..] == digits; }
  }

  lemma ParsedIsDenoted(text: string, n: int)
    requires ParseInt(text) == Some(n)
    ensures Denotes(text, n)
  {
    var signed := text != "" && (text[0] == '+' || text[0] == '-');
    var digits := if signed then text[1..] else text;
    if signed { assert text == [text[0]] + digits; }
    assert SignedDigits(text, digits, n);
  }

  lemma SidesIff(left: string, right: string, spec: Spec)
    ensures ReadSpec(left, right) == Ok(spec) <==> Sides(left, right, spec)
  {
    forall text, n | Denotes(text, n) ensures ParseInt(text) == Some(n) && text != "" { DenotedIsParsed(text, n); }
    forall text, n | ParseInt(text) == Some(n) ensures Denotes(text, n) { ParsedIsDenoted(text, n); }
  }

  /** A side is trimmed and holds no comma. */
  lemma SidesShape(left: string, right: string, spec: Spec)
    requires Sides(left, right, spec)
    ensures Trimmed(left) && Trimmed(right) && ',' !in left && ',' !in right
  {
    forall text, n | Denotes(text, n) ensures Trimmed(text) && ',' !in text { DenotedIsParsed(text, n); }
  }

  // ----- From the grammar to the reader ------------------------------------------------

  function LeftPart(p: Pieces): string {
    p.left + p.beforeDash
  }

  function RightPart(p: Pieces): string {
    p.afterDash + p.right
  }

  lemma PartsTrim(p: Pieces, spec: Spec)
    requires Grammatical(p, spec)
    ensures TrimSpace(LeftPart(p)) == p.left && TrimSpace(RightPart(p)) == p.right
    ensures '-' !in LeftPart(p) && ',' !in LeftPart(p) && ',' !in RightPart(p)
  {
    SidesShape(p.left, p.right, spec);
    TrimOfPadded("", p.left, p.beforeDash);
    TrimOfPadded(p.afterDash, p.right, "");
    assert "" + p.left + p.beforeDash == LeftPart(p) && p.afterDash + p.right + "" == RightPart(p);
    assert Blank(p.beforeDash) && Blank(p.afterDash);
  }

  lemma SpecTextOfParts(p: Pieces, spec: Spec)
    requires Grammatical(p, spec)
    ensures var text := LeftPart(p) + "-" + RightPart(p);
      text != "" && Trimmed(text) && ReadSpecText(text) == Ok(spec)
  {
    var left, right := LeftPart(p), RightPart(p);
    var text := left + "-" + right;
    PartsTrim(p, spec);
    SidesShape(p.left, p.right, spec);
    assert text == left + ['-'] + right;
    IndexAfter(left, '-', right);
    assert text[..|left|] == left && text[|left| + 1..] == right;
    SidesIff(p.left, p.right, spec);
    if p.left != "" { assert text[0] == p.left[0]; }
    if p.right != "" { assert text[|text| - 1] == p.right[|p.right| - 1]; }
  }

  /** Whatever the case of the unit, it is six letters long and begins with one. */
  lemma UnitShape(unit: string, rest: string)
    requires ToLower(unit) == UNIT
    ensures |unit| == |UNIT| && HasUnit(unit + rest) && (unit + rest)[|UNIT|..] == rest && !IsSpace((unit + rest)[0])
  {
    var s := unit + rest;
    assert forall i | 0 <= i < |UNIT| :: s[i] == unit[i] && ToLower(s)[i] == ToLower(unit)[i];
    assert ToLower(unit)[0] == 'b';
    assert Lower(unit[0]) == 'b';
  }

  lemma HeaderOfUnit(unit: string, blank: string, text: string)
    requires ToLower(unit) == UNIT && Blank(blank) && text != "" && Trimmed(text) && ReadSpecText(text).Ok?
    ensures var header := unit + (blank + text);
      header != "" && Trimmed(header) && ReadHeader(header) == Ok(Some(ReadSpecText(text).value))
  {
    var header := unit + (blank + text);
    UnitShape(unit, blank + text);
    assert header[|header| - 1] == text[|text| - 1];
    TrimOfPadded(blank, text, "");
    assert blank + text + "" == blank + text;
    assert TrimSpace(header) == header;
  }

  lemma PaddingIsIgnored(before: string, header: string, after: string)
    requires Blank(before) && Trimmed(header) && Blank(after)
    ensures ReadHeader(before + header + after) == ReadHeader(header)
  {
    TrimOfPadded(before, header, after);
  }

  lemma JoinedIsPadded(p: Pieces)
    ensures Joined(p) == p.before + (p.unit + (p.afterUnit + (LeftPart(p) + "-" + RightPart(p)))) + p.after
  {
    var text := p.left + p.beforeDash + "-" + p.afterDash + p.right;
    assert LeftPart(p) + "-" + RightPart(p) == text;
    assert Joined(p) == p.before + (p.unit + (p.afterUnit + text)) + p.after;
  }

  /** Once the text of the specifier is right, blanks and the unit around it change nothing. */
  lemma TextIsRead(before: string, unit: string, blank: string, text: string, after: string, spec: Spec)
    requires Blank(before) && ToLower(unit) == UNIT && Blank(blank) && Blank(after)
    requires text != "" && Trimmed(text) && ReadSpecText(text) == Ok(spec)
    ensures ReadHeader(before + (unit + (blank + text)) + after) == Ok(Some(spec))
  {
    HeaderOfUnit(unit, blank, text);
    PaddingIsIgnored(before, unit + (blank + text), after);
  }

  lemma GrammaticalIsRead(p: Pieces, spec: Spec)
    requires Grammatical(p, spec)
    ensures ReadHeader(Joined(p)) == Ok(Some(spec))
  {
    SpecTextOfParts(p, spec);
    TextIsRead(p.before, p.unit, p.afterUnit, LeftPart(p) + "-" + RightPart(p), p.after, spec);
    JoinedIsPadded(p);
  }

  // ----- From the reader to the grammar ------------------------------------------------

  /** A text is its trimmed core between blanks; all of it counts as leading when nothing is left. */
  lemma Peel(s: string) returns (before: string, after: string)
    ensures Blank(before) && Blank(after) && s == before + TrimSpace(s) + after
    ensures TrimSpace(s) == "" ==> after == ""
  {
    var from, to := TrimSpaceIsSlice(s);
    before, after := s[..from], s[to..];
    assert s == before + TrimSpace(s) + after;
    if TrimSpace(s) == "" {
      before, after := s, "";
      assert forall i | 0 <= i < |s| :: IsSpace(s[i]);
    }
  }

  /** As Peel, but all of it counts as trailing when nothing is left. */
  lemma PeelRight(s: string) returns (core: string, before: string, after: string)
    ensures core == TrimSpace(s) && Blank(before) && Blank(after) && s == before + core + after
    ensures core == "" ==> before == ""
  {
    core := TrimSpace(s);
    before, after := Peel(s);
    if core == "" {
      before, after := "", before;
      assert s == before + core + after;
    }
  }

  lemma LowerOfPrefix(header: string)
    requires HasUnit(header)
    ensures ToLower(header[..|UNIT|]) == UNIT
  {
    var unit := header[..|UNIT|];
    assert forall i | 0 <= i < |UNIT| :: ToLower(unit)[i] == ToLower(header)[i] == ToLower(header)[..|UNIT|][i];
  }

  /** A header that is read has the unit, and a specifier text after it. */
  lemma ShellOfRead(raw: string, spec: Spec)
    returns (before: string, unit: string, blank: string, text: string, after: string)
    requires ReadHeader(raw) == Ok(Some(spec))
    ensures Blank(before) && ToLower(unit) == UNIT && Blank(blank) && Blank(after)
    ensures raw == before + (unit + (blank + text)) + after && ReadSpecText(text) == Ok(spec)
  {
    var header := TrimSpace(raw);
    var body := header[|UNIT|..];
    var shell, end, rest;
    shell, end := Peel(raw);
    blank, rest := Peel(body);
    before, unit, text, after := shell, header[..|UNIT|], TrimSpace(body), rest + end;
    LowerOfPrefix(header);
    assert header == unit + body;
    ShellJoined(before, unit, blank, text, rest, end);
  }

  lemma ShellJoined(before: string, unit: string, blank: string, text: string, rest: string, end: string)
    ensures before + (unit + (blank + text + rest)) + end == before + (unit + (blank + text)) + (rest + end)
  {
  }

  /** A specifier text that is read has the two sides around its first dash. */
  lemma SplitOfRead(text: string, spec: Spec) returns (before: string, after: string)
    requires ReadSpecText(text) == Ok(spec)
    ensures text == before + "-" + after && '-' !in before && Sides(TrimSpace(before), TrimSpace(after), spec)
  {
    var dash := IndexOf(text, '-').value;
    IndexIsFirst(text, '-');
    before, after := text[..dash], text[dash + 1..];
    assert text == before + "-" + after;
    SidesIff(TrimSpace(before), TrimSpace(after), spec);
  }

  /** The two sides are numbers padded with blanks, or nothing. */
  lemma PartsOfRead(text: string, spec: Spec)
    returns (start: string, left: string, beforeDash: string, afterDash: string, right: string, end: string)
    requires ReadSpecText(text) == Ok(spec)
    ensures Blank(start) && Blank(beforeDash) && Blank(afterDash) && Blank(end)
    ensures '-' !in left && Sides(left, right, spec)
    ensures (left == "" ==> beforeDash == "") && (right == "" ==> afterDash == "")
    ensures text == (start + left + beforeDash) + "-" + (afterDash + right + end)
  {
    var before, after := SplitOfRead(text, spec);
    left := TrimSpace(before);
    start, beforeDash := Peel(before);
    right, afterDash, end := PeelRight(after);
  }

  lemma PartsJoined(p: Pieces, before: string, blank: string, start: string, end: string, after: string)
    requires p.before == before && p.afterUnit == blank + start && p.after == end + after
    ensures var text := (start + p.left + p.beforeDash) + "-" + (p.afterDash + p.right + end);
      before + (p.unit + (blank + text)) + after == Joined(p)
  {
  }

  lemma ReadIsGrammatical(raw: string, spec: Spec) returns (p: Pieces)
    requires ReadHeader(raw) == Ok(Some(spec))
    ensures Grammatical(p, spec) && raw == Joined(p)
  {
    var before, unit, blank, text, after := ShellOfRead(raw, spec);
    var start, left, beforeDash, afterDash, right, end := PartsOfRead(text, spec);
    p := Pieces(before, unit, blank + start, left, beforeDash, afterDash, right, end + after);
    PartsJoined(p, before, blank, start, end, after);
  }

  /** The reader accepts exactly the sentences of the grammar, each as its specifier. */
  lemma ReadIffGrammatical(raw: string, spec: Spec)
    ensures ReadHeader(raw) == Ok(Some(spec)) <==> HeaderFor(raw, spec)
  {
    if ReadHeader(raw) == Ok(Some(spec)) {
      var p := ReadIsGrammatical(raw, spec);
    }
    if HeaderFor(raw, spec) {
      var p :| Grammatical(p, spec) && raw == Joined(p);
      GrammaticalIsRead(p, spec);
    }
  }

  /** No header at all is white space, and nothing else. */
  lemma NoHeaderIff(raw: string)
    ensures ReadHeader(raw) == Ok(None) <==> Blank(raw)
  {
    if Blank(raw) {
      TrimOfPadded(raw, "", "");
      assert raw + "" + "" == raw;
    } else if TrimSpace(raw) == "" {
      var before, after := Peel(raw);
    }
  }
}
