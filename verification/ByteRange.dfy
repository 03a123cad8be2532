/** The Range header of a download, against section 14.1.2 of RFC 9110, and which requests count. */
module ByteRange {
  import opened Wrappers
  import opened Text

  const MIN_INT64: int := -0x8000_0000_0000_0000
  const MAX_INT64: int := 0x7FFF_FFFF_FFFF_FFFF

  datatype Range = Range(start: int, end: int, partial: bool)

  datatype Error = UnsupportedUnit | InvalidRange | InvalidSuffix | InvalidStart | InvalidEnd | OutsideFile

  // ----- The standard ------------------------------------------------------------------

  /** "first-last", "first-" and "-length". */
  datatype Spec = FromTo(first: int, last: int) | From(first: int) | Suffix(length: int)

  /** The bytes a specifier selects from a representation of the given size. */
  predicate Selects(spec: Spec, size: int, b: int) {
    && 0 <= b < size
    && match spec
       case FromTo(first, last) => first <= b <= last
       case From(first) => first <= b
       case Suffix(length) => size - length <= b
  }

  predicate NonNegative(spec: Spec) {
    match spec
    case FromTo(first, last) => 0 <= first && 0 <= last
    case From(first) => 0 <= first
    case Suffix(length) => 0 <= length
  }

  /** A last position is not before the first. */
  predicate Valid(spec: Spec) {
    NonNegative(spec) && (spec.FromTo? ==> spec.first <= spec.last)
  }

  /** A specifier is satisfiable if it selects anything. */
  ghost predicate Satisfiable(spec: Spec, size: int) {
    exists b :: Selects(spec, size, b)
  }

  // ----- The header --------------------------------------------------------------------

  /** strconv.ParseInt in base 10 with 64 bits: an optional sign, digits, and a range check. */
  function ParseInt(s: string): Option<int> {
    var signed := s != "" && (s[0] == '+' || s[0] == '-');
    match ParseDecimal(if signed then s[1..] else s)
    case None => None
    case Some(n) =>
      var value: int := if signed && s[0] == '-' then -(n as int) else n;
      if MIN_INT64 <= value <= MAX_INT64 then Some(value) else None
  }

  /** What stands on the two sides of the first '-', as a specifier. */
  function ReadSpec(startText: string, endText: string): Result<Spec, Error> {
    if startText == "" && endText == "" then Err(InvalidRange)
    else if startText == "" then
      match ParseInt(endText)
      case Some(n) => if n <= 0 then Err(InvalidSuffix) else Ok(Suffix(n))
      case None => Err(InvalidSuffix)
    else
      match ParseInt(startText)
      case None => Err(InvalidStart)
      case Some(first) =>
        if first < 0 then Err(InvalidStart)
        else if endText == "" then Ok(From(first))
        else
          match ParseInt(endText)
          case None => Err(InvalidEnd)
          case Some(last) => if last < 0 then Err(InvalidEnd) else Ok(FromTo(first, last))
  }

  /** The text after the unit: one specifier, split at its first '-'. */
  function ReadSpecText(spec: string): Result<Spec, Error> {
    if spec == "" || ',' in spec then Err(InvalidRange)
    else
      match IndexOf(spec, '-')
      case None => Err(InvalidRange)
      case Some(dash) => ReadSpec(TrimSpace(spec[..dash]), TrimSpace(spec[dash + 1..]))
  }

  const UNIT: string := "bytes="

  predicate HasUnit(header: string) {
    |header| >= |UNIT| && ToLower(header)[..|UNIT|] == UNIT
  }

  /** None without a header; otherwise the one specifier it holds. */
  function ReadHeader(raw: string): Result<Option<Spec>, Error> {
    var header := TrimSpace(raw);
    if header == "" then Ok(None)
    else if !HasUnit(header) then Err(UnsupportedUnit)
    else
      match ReadSpecText(TrimSpace(header[|UNIT|..]))
      case Ok(s) => Ok(Some(s))
      case Err(e) => Err(e)
  }

  // ----- The code ----------------------------------------------------------------------

  /** The interval computed from a specifier; a rejected suffix length never gets here. */
  method Resolve(spec: Spec, size: int) returns (result: Result<Range, Error>)
    requires size > 0
    requires NonNegative(spec)
    ensures result.Ok? <==> Valid(spec) && Satisfiable(spec, size)
    ensures result.Ok? ==>
      var r := result.value;
      r.partial && 0 <= r.start <= r.end < size && forall b :: r.start <= b <= r.end <==> Selects(spec, size, b)
    ensures result.Err? ==> result.error == OutsideFile
  {
    var start, end := 0, 0;
    match spec {
      case Suffix(length) =>
        var suffixLength := length;
        if suffixLength > size { suffixLength := size; }
        start := size - suffixLength;
        end := size - 1;
      case From(first) =>
        start := first;
        end := size - 1;
      case FromTo(first, last) =>
        start := first;
        end := last;
    }
    if start >= size || start > end { return Err(OutsideFile); }
    if end >= size { end := size - 1; }
    assert Selects(spec, size, start);
    result := Ok(Range(start, end, true));
  }

  /**
    parseRangeHeader: a header is accepted iff it is absent or holds one valid, satisfiable
    specifier, and then the interval is the non-empty set of bytes it selects.
   */
  method ParseRangeHeader(header: string, size: int) returns (result: Result<Range, Error>)
    requires size > 0
    ensures result.Ok? <==>
      ReadHeader(header).Ok? && var spec := ReadHeader(header).value;
        spec.Some? ==> Valid(spec.value) && Satisfiable(spec.value, size)
    ensures result.Ok? && ReadHeader(header).value.None? ==> !result.value.partial
    ensures result.Ok? && ReadHeader(header).value.Some? ==>
      var r := result.value;
      && r.partial && 0 <= r.start <= r.end < size
      && forall b :: r.start <= b <= r.end <==> Selects(ReadHeader(header).value.value, size, b)
  {
    SpecsAreNonNegative(header);
    var read := ReadHeader(header);
    if read.Err? { return Err(read.error); }
    if read.value.None? { return Ok(Range(0, 0, false)); }
    result := Resolve(read.value.value, size);
  }

  lemma SpecsAreNonNegative(header: string)
    ensures ReadHeader(header).Ok? && ReadHeader(header).value.Some? ==>
      NonNegative(ReadHeader(header).value.value)
  {
  }

  predicate ShouldRecord(r: Range) {
    !r.partial || r.start == 0
  }

  // ----- Headers as clients write them -------------------------------------------------

  function Written(spec: Spec): string
    requires Valid(spec)
  {
    match spec
    case FromTo(first, last) => Decimal(first) + "-" + Decimal(last)
    case From(first) => Decimal(first) + "-"
    case Suffix(length) => "-" + Decimal(length)
  }

  predicate Fits(spec: Spec) {
    match spec
    case FromTo(_, last) => last <= MAX_INT64
    case From(first) => first <= MAX_INT64
    case Suffix(length) => 0 < length <= MAX_INT64
  }

  lemma IntRoundTrip(n: nat)
    requires n <= MAX_INT64
    ensures ParseInt(Decimal(n)) == Some(n)
  {
    ParseInvertsDecimal(n);
  }

  /** Splitting at the first '-' finds the two numbers: neither contains one. */
  lemma SplitRoundTrip(left: string, right: string)
    requires Trimmed(left) && Trimmed(right) && '-' !in left
    ensures IndexOf(left + "-" + right, '-') == Some(|left|)
    ensures var s := left + "-" + right; TrimSpace(s[..|left|]) == left && TrimSpace(s[|left| + 1..]) == right
  {
    var s := left + "-" + right;
    assert s == left + ['-'] + right;
    IndexAfter(left, '-', right);
    assert s[..|left|] == left && s[|left| + 1..] == right;
  }

  lemma UnitIsRecognised(rest: string)
    ensures HasUnit(UNIT + rest) && (UNIT + rest)[|UNIT|..] == rest
  {
    var s := UNIT + rest;
    assert forall i | 0 <= i < |UNIT| :: s[i] == UNIT[i] && Lower(UNIT[i]) == UNIT[i];
    assert forall i | 0 <= i < |UNIT| :: ToLower(s)[i] == UNIT[i];
  }

  function LeftOf(spec: Spec): string
    requires Valid(spec)
  {
    if spec.Suffix? then "" else Decimal(spec.first)
  }

  function RightOf(spec: Spec): string
    requires Valid(spec)
  {
    match spec case FromTo(_, last) => Decimal(last) case From(_) => "" case Suffix(n) => Decimal(n)
  }

  /** The two sides of a written specifier read back as the specifier. */
  lemma SpecRoundTrip(spec: Spec)
    requires Valid(spec) && Fits(spec)
    ensures ReadSpec(LeftOf(spec), RightOf(spec)) == Ok(spec)
  {
    match spec
    case FromTo(first, last) => IntRoundTrip(first); IntRoundTrip(last);
    case From(first) => IntRoundTrip(first);
    case Suffix(length) => IntRoundTrip(length);
  }

  lemma WrittenParts(spec: Spec)
    requires Valid(spec)
    ensures Written(spec) == LeftOf(spec) + "-" + RightOf(spec) && Trimmed(Written(spec)) && Written(spec) != ""
    ensures Trimmed(LeftOf(spec)) && Trimmed(RightOf(spec))
    ensures '-' !in LeftOf(spec) && ',' !in Written(spec)
  {
    if spec.FromTo? { DecimalIsDigits(spec.first); DecimalIsDigits(spec.last); }
    if spec.From? { DecimalIsDigits(spec.first); }
    if spec.Suffix? { DecimalIsDigits(spec.length); }
  }

  /** A number beyond 64 bits, or a suffix of no bytes, is refused. */
  lemma UnfitSpecIsRefused(spec: Spec)
    requires Valid(spec) && !Fits(spec)
    ensures ReadSpec(LeftOf(spec), RightOf(spec)).Err?
  {
    match spec
    case FromTo(_, last) => ParseInvertsDecimal(last);
    case From(first) => ParseInvertsDecimal(first);
    case Suffix(length) => ParseInvertsDecimal(length);
  }

  lemma SpecTextIsItsParts(spec: Spec)
    requires Valid(spec)
    ensures ReadSpecText(Written(spec)) == ReadSpec(LeftOf(spec), RightOf(spec))
  {
    WrittenParts(spec);
    SplitRoundTrip(LeftOf(spec), RightOf(spec));
  }

  lemma UnitIsDropped(header: string, text: string)
    requires header != "" && Trimmed(header) && HasUnit(header) && header[|UNIT|..] == text && Trimmed(text)
    ensures ReadHeader(header) ==
      match ReadSpecText(text) case Ok(s) => Ok(Some(s)) case Err(e) => Err(e)
  {
  }

  /** The standard's way of writing a specifier is read as that specifier if it fits, and refused otherwise. */
  lemma HeaderRoundTrip(spec: Spec)
    requires Valid(spec)
    ensures ReadHeader(UNIT + Written(spec)) == Ok(Some(spec)) <==> Fits(spec)
    ensures ReadHeader(UNIT + Written(spec)).Err? <==> !Fits(spec)
  {
    var text := Written(spec);
    var header := UNIT + text;
    WrittenParts(spec);
    UnitIsRecognised(text);
    assert header[0] == 'b' && header[|header| - 1] == text[|text| - 1];
    SpecTextIsItsParts(spec);
    if Fits(spec) { SpecRoundTrip(spec); } else { UnfitSpecIsRefused(spec); }
    UnitIsDropped(header, text);
  }

  // ----- Which requests are counted ----------------------------------------------------

  predicate Covers(r: Range, size: int, b: int) {
    if r.partial then r.start <= b <= r.end else 0 <= b < size
  }

  predicate InFile(r: Range, size: int) {
    r.partial ==> 0 <= r.start <= r.end < size
  }

  predicate Served(ranges: seq<Range>, size: int, b: int) {
    exists i | 0 <= i < |ranges| :: Covers(ranges[i], size, b)
  }

  /** Every byte of the file is served by exactly one of the requests. */
  ghost predicate Tiles(ranges: seq<Range>, size: int) {
    && (forall i | 0 <= i < |ranges| :: InFile(ranges[i], size))
    && (forall b | 0 <= b < size :: Served(ranges, size, b))
    && (forall b, i, j | 0 <= b < size && 0 <= i < |ranges| && 0 <= j < |ranges|
          && Covers(ranges[i], size, b) && Covers(ranges[j], size, b) :: i == j)
  }

  /** shouldRecordDownload over a sequence of requests. */
  function Recorded(ranges: seq<Range>): set<nat> {
    set i: nat | i < |ranges| && ShouldRecord(ranges[i])
  }

  /** However a client splits a file among its requests, the download is recorded exactly once. */
  lemma OneDownloadPerTiling(ranges: seq<Range>, size: int)
    requires size > 0 && Tiles(ranges, size)
    ensures |Recorded(ranges)| == 1
  {
    assert Served(ranges, size, 0);
    var i :| 0 <= i < |ranges| && Covers(ranges[i], size, 0);
    assert InFile(ranges[i], size);
    assert i in Recorded(ranges);
    forall j | j in Recorded(ranges) ensures j == i {
      assert InFile(ranges[j], size);
      assert Covers(ranges[j], size, 0);
    }
    assert Recorded(ranges) == {i};
  }
}
