/**
  The .bee package reader: the frame of the stream, and the connector that describes how its
  section area is divided among platforms.
 */
module BeePackage {
  import opened Basics
  import opened Bytes
  import opened Wrappers

  const HEADER_BYTES: nat := 8
  const ENCRYPTED_MIN_LENGTH: nat := 33
  const MAX_CONNECTOR_BYTES: nat := 67_108_864
  const MAX_SECTION_BYTES: nat := 4_294_967_296
  const MAX_INT64: int := 0x7FFF_FFFF_FFFF_FFFF

  /** int64(uint64): the upper half of the range becomes negative. */
  function ToInt64(n: nat): int {
    if n > MAX_INT64 then n - 0x1_0000_0000_0000_0000 else n
  }

  // ----- The frame ---------------------------------------------------------------------

  datatype FrameError =
    | ShortHeader | ConnectorNotPositive | ConnectorTooLarge | ConnectorTooSmall | ConnectorOverLimit
    | ShortConnector | NoSections | SectionsTooLarge | OverLimit

  datatype Frame<+D> = Frame(size: nat, digest: D, connectorBytes: nat, sectionBytes: nat, connector: seq<Byte>)

  /** An 8-byte length, that many connector bytes, then the sections; nothing else. */
  predicate Framed(stream: seq<Byte>, connector: seq<Byte>, sections: seq<Byte>) {
    stream == LittleEndian(|connector|, HEADER_BYTES) + connector + sections
  }

  predicate SizesOk(connector: int, sections: int, maxBytes: int) {
    && ENCRYPTED_MIN_LENGTH <= connector <= MAX_CONNECTOR_BYTES
    && 0 < sections <= MAX_SECTION_BYTES
    && (maxBytes > 0 ==> HEADER_BYTES + connector + sections <= maxBytes)
  }

  ghost predicate Acceptable(stream: seq<Byte>, maxBytes: int) {
    exists connector, sections :: Framed(stream, connector, sections) && SizesOk(|connector|, |sections|, maxBytes)
  }

  /** The counting reader over the tee: what has been read is counted and hashed. */
  class CountingReader {
    const stream: seq<Byte>
    var n: nat
    var hashed: seq<Byte>

    ghost predicate Valid()
      reads this
    {
      n <= |stream| && hashed == stream[..n]
    }

    constructor (stream: seq<Byte>)
      ensures this.stream == stream && Valid() && n == 0
    {
      this.stream, n, hashed := stream, 0, [];
    }

    /** Reads `want` bytes, or as many as there are. */
    method Read(want: nat) returns (data: seq<Byte>)
      requires Valid()
      modifies this
      ensures Valid()
      ensures n == if want <= |stream| - old(n) then old(n) + want else |stream|
      ensures data == stream[old(n)..n]
    {
      var upTo := if want <= |stream| - n then n + want else |stream|;
      data := stream[n..upTo];
      assert stream[..upTo] == hashed + data;
      hashed := hashed + data;
      n := upTo;
    }
  }

  lemma FrameFromParts(stream: seq<Byte>, connectorBytes: nat)
    requires |stream| >= HEADER_BYTES + connectorBytes
    requires FromLittleEndian(stream[0..HEADER_BYTES]) == connectorBytes
    ensures Framed(stream, stream[HEADER_BYTES..HEADER_BYTES + connectorBytes],
                   stream[HEADER_BYTES + connectorBytes..|stream|])
  {
    var header := stream[0..HEADER_BYTES];
    EncodeDecode(header);
    Reassembled(stream, HEADER_BYTES, HEADER_BYTES + connectorBytes);
  }

  lemma Reassembled(stream: seq<Byte>, i: nat, j: nat)
    requires i <= j <= |stream|
    ensures stream == stream[0..i] + stream[i..j] + stream[j..|stream|]
  {
  }

  /** The header alone decides where the connector ends, so a stream has at most one frame. */
  lemma FrameIsUnique(stream: seq<Byte>, connector: seq<Byte>, sections: seq<Byte>)
    requires Framed(stream, connector, sections) && |connector| <= MAX_CONNECTOR_BYTES
    ensures |stream| >= HEADER_BYTES + |connector|
    ensures FromLittleEndian(stream[0..HEADER_BYTES]) == |connector|
    ensures connector == stream[HEADER_BYTES..HEADER_BYTES + |connector|]
    ensures sections == stream[HEADER_BYTES + |connector|..|stream|]
  {
    Pow256Of8();
    DecodeEncode(|connector|, HEADER_BYTES);
    assert stream[0..HEADER_BYTES] == LittleEndian(|connector|, HEADER_BYTES);
  }

  /** The header's number fits the length of the stream. */
  predicate LengthFits(stream: seq<Byte>, maxBytes: int) {
    && |stream| >= HEADER_BYTES
    && var n := FromLittleEndian(stream[0..HEADER_BYTES]);
       SizesOk(n, |stream| - HEADER_BYTES - n, maxBytes)
  }

  lemma FitsIfAcceptable(stream: seq<Byte>, maxBytes: int)
    ensures Acceptable(stream, maxBytes) ==> LengthFits(stream, maxBytes)
  {
    if Acceptable(stream, maxBytes) {
      var connector, sections :| Framed(stream, connector, sections) && SizesOk(|connector|, |sections|, maxBytes);
      FrameIsUnique(stream, connector, sections);
    }
  }

  lemma AcceptableIfFits(stream: seq<Byte>, maxBytes: int)
    requires LengthFits(stream, maxBytes)
    ensures Acceptable(stream, maxBytes)
  {
    FrameFromParts(stream, FromLittleEndian(stream[0..HEADER_BYTES]));
  }

  /** Two's complement: the same number modulo 2^64, from -2^63 on. */
  lemma Int64Reading(n: nat)
    requires n < 0x1_0000_0000_0000_0000
    ensures -0x8000_0000_0000_0000 <= ToInt64(n) < 0x8000_0000_0000_0000
    ensures ToInt64(n) == n || ToInt64(n) == n - 0x1_0000_0000_0000_0000
  {
  }

  /** Eight bytes stay below 2^64, so a positive int64 is the length that was written. */
  lemma HeaderBelow64Bits(header: seq<Byte>)
    requires |header| == HEADER_BYTES && ToInt64(FromLittleEndian(header)) > 0
    ensures ToInt64(FromLittleEndian(header)) == FromLittleEndian(header)
  {
    DecodedInRange(header);
    Pow256Of8();
  }

  /** The reads and checks of readRemoteSDKBEE. */
  method ReadParts<D>(stream: seq<Byte>, maxBytes: int, sha256: seq<Byte> -> D)
    returns (result: Result<Frame<D>, FrameError>)
    ensures result.Ok? <==> LengthFits(stream, maxBytes)
    ensures result.Ok? ==>
      var n := FromLittleEndian(stream[0..HEADER_BYTES]);
      && HEADER_BYTES + n <= |stream|
      && result.value == Frame(|stream|, sha256(stream), n, |stream| - HEADER_BYTES - n,
                               stream[HEADER_BYTES..HEADER_BYTES + n])
  {
    var counting := new CountingReader(stream);
    var header := counting.Read(HEADER_BYTES);
    if |header| < HEADER_BYTES { return Err(ShortHeader); }
    var connectorBytes := ToInt64(FromLittleEndian(header));
    if connectorBytes <= 0 { return Err(ConnectorNotPositive); }
    HeaderBelow64Bits(header);
    if connectorBytes > MAX_CONNECTOR_BYTES { return Err(ConnectorTooLarge); }
    if connectorBytes < ENCRYPTED_MIN_LENGTH { return Err(ConnectorTooSmall); }
    if maxBytes > 0 && HEADER_BYTES + connectorBytes > maxBytes { return Err(ConnectorOverLimit); }

    var connector := counting.Read(connectorBytes);
    if |connector| < connectorBytes { return Err(ShortConnector); }
    var sections := counting.Read(|stream|);
    var sectionBytes := |sections|;
    if sectionBytes <= 0 { return Err(NoSections); }
    if sectionBytes > MAX_SECTION_BYTES { return Err(SectionsTooLarge); }
    if maxBytes > 0 && counting.n > maxBytes { return Err(OverLimit); }
    assert counting.hashed == stream;
    result := Ok(Frame(counting.n, sha256(counting.hashed), connectorBytes, sectionBytes, connector));
  }

  /** readRemoteSDKBEE: accepts exactly the framed streams of permitted sizes, and reports their parts. */
  method ReadRemoteSDKBEE<D>(stream: seq<Byte>, maxBytes: int, sha256: seq<Byte> -> D)
    returns (result: Result<Frame<D>, FrameError>)
    ensures result.Ok? <==> Acceptable(stream, maxBytes)
    ensures result.Ok? ==>
      exists sections ::
        && Framed(stream, result.value.connector, sections)
        && result.value == Frame(|stream|, sha256(stream), |result.value.connector|, |sections|, result.value.connector)
  {
    result := ReadParts(stream, maxBytes, sha256);
    if result.Ok? {
      AcceptableIfFits(stream, maxBytes);
      FrameFromParts(stream, result.value.connectorBytes);
    } else {
      FitsIfAcceptable(stream, maxBytes);
    }
  }

  // ----- The connector -----------------------------------------------------------------

  const MAX_PLATFORMS: nat := 16
  const MAX_STRING_BYTES: nat := 512
  const MAX_DESCRIPTION_BYTES: nat := 8192
  const MAX_TAGS: nat := 64
  const MAX_TAG_BYTES: nat := 64
  const MAX_GRAPHICS_APIS: nat := 16
  const MAX_COMPONENTS: nat := 256

  /** One platform's section; `endByte` is its length in the section area. */
  datatype Section = Section(
    hash: string, assetMode: string, assetToLoad: string, encrypted: bool, password: string,
    platform: string, endByte: int, graphicsAPIs: seq<string>)

  datatype Component = Component(name: string, count: int)

  datatype Connector = Connector(
    uniqueVersion: string, name: string, description: string, tags: seq<string>, sections: seq<Section>,
    triangles: int, materials: int, bones: int, textureBytes: int, pipeline: string, components: seq<Component>)

  /** The errors, with those of one section and those before the sections taken together. */
  datatype ConnectorError =
    BadHead | BadEndByte | EndByteTooLarge | LengthOverflow | DeclaredTooLarge | BadSection | DuplicatePlatform |
    LengthMismatch

  /** utf8.ValidString, strings.TrimSpace and strings.ToLower, and the platforms and asset modes allowed. */
  datatype Rules = Rules(utf8: string -> bool, trim: string -> string, lower: string -> string,
                         platforms: set<string>, assetModes: set<string>)

  /** The lists of allowedPlatform and validateAssetMode. */
  function BasisRules(utf8: string -> bool, trim: string -> string, lower: string -> string): Rules {
    Rules(utf8, trim, lower,
          {"StandaloneWindows", "StandaloneWindows64", "StandaloneOSX", "Android", "iOS", "StandaloneLinux64"},
          {"Scene", "GameObject", "Gameobject"})
  }

  predicate IsBlank(s: string, rules: Rules) {
    rules.trim(s) == ""
  }

  /** validateString; a char is one byte. */
  predicate StringOk(value: string, maxBytes: nat, required: bool, rules: Rules) {
    && (required ==> !IsBlank(value, rules))
    && (value != "" ==> rules.utf8(value))
    && |value| <= maxBytes
  }

  function Canonical(s: string, rules: Rules): string {
    rules.lower(rules.trim(s))
  }

  /** The sum of the first `k` declared lengths: where section k starts. */
  function Start(sections: seq<Section>, k: nat): int
    requires k <= |sections|
  {
    if k == 0 then 0 else Start(sections, k - 1) + sections[k - 1].endByte
  }

  predicate SectionOk(s: Section, rules: Rules) {
    && 0 < s.endByte <= MAX_SECTION_BYTES
    && StringOk(s.hash, MAX_STRING_BYTES, true, rules)
    && StringOk(s.assetToLoad, MAX_STRING_BYTES, true, rules)
    && StringOk(s.platform, MAX_STRING_BYTES, true, rules)
    && rules.trim(s.platform) in rules.platforms
    && rules.trim(s.assetMode) in rules.assetModes
    && (s.encrypted ==> !IsBlank(s.password, rules))
    && |s.password| <= MAX_STRING_BYTES
    && |s.graphicsAPIs| <= MAX_GRAPHICS_APIS
    && (forall i | 0 <= i < |s.graphicsAPIs| :: StringOk(s.graphicsAPIs[i], MAX_STRING_BYTES, false, rules))
  }

  predicate TagsOk(tags: seq<string>, rules: Rules) {
    && |tags| <= MAX_TAGS
    && (forall i | 0 <= i < |tags| :: StringOk(tags[i], MAX_TAG_BYTES, false, rules))
    && (forall i, j | 0 <= i < j < |tags| && !IsBlank(tags[i], rules) && !IsBlank(tags[j], rules) ::
          rules.lower(rules.trim(tags[i])) != rules.lower(rules.trim(tags[j])))
  }

  predicate HeadOk(c: Connector, rules: Rules) {
    && StringOk(c.uniqueVersion, MAX_STRING_BYTES, true, rules)
    && StringOk(c.name, MAX_STRING_BYTES, true, rules)
    && StringOk(c.description, MAX_DESCRIPTION_BYTES, false, rules)
    && TagsOk(c.tags, rules)
    && 0 < |c.sections| <= MAX_PLATFORMS
    && c.triangles >= 0 && c.materials >= 0 && c.bones >= 0 && c.textureBytes >= 0
    && StringOk(c.pipeline, MAX_STRING_BYTES, false, rules)
    && |c.components| <= MAX_COMPONENTS
    && (forall i | 0 <= i < |c.components| ::
          StringOk(c.components[i].name, MAX_STRING_BYTES, false, rules) && c.components[i].count >= 0)
  }

  predicate DistinctPlatforms(sections: seq<Section>, rules: Rules) {
    forall i, j | 0 <= i < j < |sections| ::
      rules.lower(rules.trim(sections[i].platform)) != rules.lower(rules.trim(sections[j].platform))
  }

  predicate SectionsOk(sections: seq<Section>, rules: Rules) {
    && (forall i | 0 <= i < |sections| :: SectionOk(sections[i], rules))
    && DistinctPlatforms(sections, rules)
    && Start(sections, |sections|) <= MAX_SECTION_BYTES
  }

  /** What an accepted connector says of a section area of the given size. */
  predicate ConnectorOk(c: Connector, sectionBytes: int, rules: Rules) {
    HeadOk(c, rules) && SectionsOk(c.sections, rules) && Start(c.sections, |c.sections|) == sectionBytes
  }

  /** validateString, check by check. */
  method ValidateString(value: string, maxBytes: nat, required: bool, rules: Rules) returns (ok: bool)
    ensures ok <==> StringOk(value, maxBytes, required, rules)
  {
    if required && rules.trim(value) == "" { return false; }
    if value != "" && !rules.utf8(value) { return false; }
    if |value| > maxBytes { return false; }
    ok := true;
  }

  method ValidateTags(tags: seq<string>, rules: Rules) returns (ok: bool)
    ensures ok <==> TagsOk(tags, rules)
  {
    if |tags| > MAX_TAGS { return false; }
    var seen: set<string> := {};
    for i := 0 to |tags|
      invariant forall k | 0 <= k < i :: StringOk(tags[k], MAX_TAG_BYTES, false, rules)
      invariant forall k | 0 <= k < i && !IsBlank(tags[k], rules) :: Canonical(tags[k], rules) in seen
      invariant forall key | key in seen ::
        exists k :: 0 <= k < i && !IsBlank(tags[k], rules) && Canonical(tags[k], rules) == key
      invariant forall k, l | 0 <= k < l < i && !IsBlank(tags[k], rules) && !IsBlank(tags[l], rules) ::
        Canonical(tags[k], rules) != Canonical(tags[l], rules)
    {
      ok := ValidateString(tags[i], MAX_TAG_BYTES, false, rules);
      if !ok { return false; }
      if !IsBlank(tags[i], rules) {
        var key := Canonical(tags[i], rules);
        if key in seen { return false; }
        seen := seen + {key};
      }
    }
    ok := true;
  }

  /** The checks before the loop over the sections. */
  method ValidateHead(c: Connector, rules: Rules) returns (ok: bool)
    ensures ok <==> HeadOk(c, rules)
  {
    ok := ValidateString(c.uniqueVersion, MAX_STRING_BYTES, true, rules);
    if !ok { return false; }
    ok := ValidateString(c.name, MAX_STRING_BYTES, true, rules);
    if !ok { return false; }
    ok := ValidateString(c.description, MAX_DESCRIPTION_BYTES, false, rules);
    if !ok { return false; }
    var tags := ValidateTags(c.tags, rules);
    if !tags { return false; }
    if |c.sections| == 0 || |c.sections| > MAX_PLATFORMS { return false; }
    if c.triangles < 0 || c.materials < 0 || c.bones < 0 || c.textureBytes < 0 { return false; }
    ok := ValidateString(c.pipeline, MAX_STRING_BYTES, false, rules);
    if !ok { return false; }
    if |c.components| > MAX_COMPONENTS { return false; }
    for i := 0 to |c.components|
      invariant forall k | 0 <= k < i ::
        StringOk(c.components[k].name, MAX_STRING_BYTES, false, rules) && c.components[k].count >= 0
    {
      ok := ValidateString(c.components[i].name, MAX_STRING_BYTES, false, rules);
      if !ok || c.components[i].count < 0 { return false; }
    }
    ok := true;
  }

  /** The checks of one section that do not look at the other sections. */
  method ValidateSection(s: Section, rules: Rules) returns (ok: bool)
    requires 0 < s.endByte <= MAX_SECTION_BYTES
    ensures ok <==> SectionOk(s, rules)
  {
    ok := ValidateString(s.hash, MAX_STRING_BYTES, true, rules);
    if !ok { return false; }
    ok := ValidateString(s.assetToLoad, MAX_STRING_BYTES, true, rules);
    if !ok { return false; }
    ok := ValidateString(s.platform, MAX_STRING_BYTES, true, rules);
    if !ok { return false; }
    if rules.trim(s.platform) !in rules.platforms || rules.trim(s.assetMode) !in rules.assetModes { return false; }
    if (s.encrypted && IsBlank(s.password, rules)) || |s.password| > MAX_STRING_BYTES { return false; }
    if |s.graphicsAPIs| > MAX_GRAPHICS_APIS { return false; }
    for i := 0 to |s.graphicsAPIs|
      invariant forall k | 0 <= k < i :: StringOk(s.graphicsAPIs[k], MAX_STRING_BYTES, false, rules)
    {
      ok := ValidateString(s.graphicsAPIs[i], MAX_STRING_BYTES, false, rules);
      if !ok { return false; }
    }
    ok := true;
  }

  /** The loop's knowledge after `i` sections. */
  ghost predicate Checked(sections: seq<Section>, i: nat, declared: int, seen: set<string>, rules: Rules)
    requires i <= |sections|
  {
    && declared == Start(sections, i) && 0 <= declared <= MAX_SECTION_BYTES
    && (forall k | 0 <= k < i :: SectionOk(sections[k], rules) && Canonical(sections[k].platform, rules) in seen)
    && (forall key | key in seen :: exists k :: 0 <= k < i && Canonical(sections[k].platform, rules) == key)
    && DistinctPlatforms(sections[..i], rules)
  }

  /** One turn of the loop over the sections; the guard against int64 overflow never fires. */
  method CheckSection(sections: seq<Section>, i: nat, declared: int, seen: set<string>, rules: Rules)
    returns (result: Result<(int, set<string>), ConnectorError>)
    requires i < |sections| && Checked(sections, i, declared, seen, rules)
    ensures result.Ok? ==> Checked(sections, i + 1, result.value.0, result.value.1, rules)
    ensures result.Err? ==> !SectionsOk(sections, rules) && result.error != LengthOverflow
  {
    var s := sections[i];
    if s.endByte <= 0 { return Err(BadEndByte); }
    if s.endByte > MAX_SECTION_BYTES { return Err(EndByteTooLarge); }
    if declared > MAX_INT64 - s.endByte { return Err(LengthOverflow); }
    var total := declared + s.endByte;
    if total > MAX_SECTION_BYTES {
      TooLongAlready(sections, i, rules);
      return Err(DeclaredTooLarge);
    }
    var ok := ValidateSection(s, rules);
    if !ok { return Err(BadSection); }
    var key := Canonical(s.platform, rules);
    if key in seen { return Err(DuplicatePlatform); }
    assert sections[..i + 1] == sections[..i] + [s];
    result := Ok((total, seen + {key}));
  }

  /** Later sections only add to the declared length. */
  lemma TooLongAlready(sections: seq<Section>, i: nat, rules: Rules)
    requires i < |sections| && Start(sections, i + 1) > MAX_SECTION_BYTES
    ensures !SectionsOk(sections, rules)
  {
    if forall k | 0 <= k < |sections| :: SectionOk(sections[k], rules) {
      StartGrows(sections, i + 1, |sections|);
    }
  }

  /** validateConnector. */
  method ValidateConnector(c: Connector, sectionBytes: int, rules: Rules)
    returns (result: Result<(), ConnectorError>)
    ensures result.Ok? <==> ConnectorOk(c, sectionBytes, rules)
    ensures result != Err(LengthOverflow)
  {
    var head := ValidateHead(c, rules);
    if !head { return Err(BadHead); }
    var seen: set<string>, declared := {}, 0;
    for i := 0 to |c.sections|
      invariant Checked(c.sections, i, declared, seen, rules)
    {
      var next := CheckSection(c.sections, i, declared, seen, rules);
      if next.Err? { return Err(next.error); }
      declared, seen := next.value.0, next.value.1;
    }
    assert c.sections[..|c.sections|] == c.sections;
    if declared != sectionBytes { return Err(LengthMismatch); }
    result := Ok(());
  }

  lemma {:induction false} StartGrows(sections: seq<Section>, k: nat, l: nat)
    requires k <= l <= |sections|
    requires forall i | 0 <= i < |sections| :: sections[i].endByte > 0
    ensures Start(sections, l) >= Start(sections, k) + (l - k)
    decreases l
  {
    if k < l { StartGrows(sections, k, l - 1); }
  }

  // ----- What an accepted package is ---------------------------------------------------

  lemma FindSection(sections: seq<Section>, at: int) returns (k: nat)
    requires 0 <= at < Start(sections, |sections|)
    ensures k < |sections| && Start(sections, k) <= at < Start(sections, k + 1)
  {
    k := 0;
    while Start(sections, k + 1) <= at
      invariant k < |sections| && Start(sections, k) <= at
      decreases |sections| - k
    {
      k := k + 1;
    }
  }

  lemma OneSection(sections: seq<Section>, k: nat, l: nat, at: int)
    requires forall i | 0 <= i < |sections| :: sections[i].endByte > 0
    requires k < |sections| && Start(sections, k) <= at < Start(sections, k + 1)
    requires l < |sections| && Start(sections, l) <= at < Start(sections, l + 1)
    ensures k == l
  {
    if l < k { StartGrows(sections, l + 1, k); }
    if k < l { StartGrows(sections, k + 1, l); }
  }

  /** Every byte of the section area belongs to exactly one section. */
  lemma SectionsTile(c: Connector, sectionBytes: int, rules: Rules, at: int) returns (k: nat)
    requires ConnectorOk(c, sectionBytes, rules) && 0 <= at < sectionBytes
    ensures k < |c.sections| && Start(c.sections, k) <= at < Start(c.sections, k + 1)
    ensures forall l | 0 <= l < |c.sections| && Start(c.sections, l) <= at < Start(c.sections, l + 1) :: l == k
  {
    k := FindSection(c.sections, at);
    forall i | 0 <= i < |c.sections| ensures c.sections[i].endByte > 0 { assert SectionOk(c.sections[i], rules); }
    forall l | 0 <= l < |c.sections| && Start(c.sections, l) <= at < Start(c.sections, l + 1) ensures l == k {
      OneSection(c.sections, k, l, at);
    }
  }

  function PlatformKeys(sections: seq<Section>, rules: Rules): set<string> {
    set i | 0 <= i < |sections| :: Canonical(sections[i].platform, rules)
  }

  lemma {:induction false} DistinctKeysCount(sections: seq<Section>, rules: Rules)
    requires DistinctPlatforms(sections, rules)
    ensures |PlatformKeys(sections, rules)| == |sections|
  {
    if sections != [] {
      var init := sections[..|sections| - 1];
      DistinctKeysCount(init, rules);
      var last := Canonical(sections[|sections| - 1].platform, rules);
      assert forall i | 0 <= i < |init| :: init[i] == sections[i];
      assert PlatformKeys(sections, rules) == PlatformKeys(init, rules) + {last};
    }
  }

  lemma ImageCount(names: set<string>, lower: string -> string)
    ensures |set p | p in names :: lower(p)| <= |names|
    decreases |names|
  {
    if names != {} {
      var p :| p in names;
      ImageCount(names - {p}, lower);
      assert (set q | q in names :: lower(q)) == (set q | q in names - {p} :: lower(q)) + {lower(p)};
    }
  }

  /** Distinct sections need distinct platforms. */
  lemma NoMoreSectionsThanPlatforms(c: Connector, sectionBytes: int, rules: Rules)
    requires ConnectorOk(c, sectionBytes, rules)
    ensures |c.sections| <= |rules.platforms|
  {
    var keys := set p | p in rules.platforms :: rules.lower(p);
    ImageCount(rules.platforms, rules.lower);
    DistinctKeysCount(c.sections, rules);
    forall key | key in PlatformKeys(c.sections, rules) ensures key in keys {
      var i :| 0 <= i < |c.sections| && key == Canonical(c.sections[i].platform, rules);
      assert SectionOk(c.sections[i], rules);
    }
    SubsetCount(PlatformKeys(c.sections, rules), keys);
  }

  /** Six platforms, no two alike: far fewer sections than the limit of sixteen allows. */
  lemma AtMostSixSections(c: Connector, sectionBytes: int, utf8: string -> bool, trim: string -> string,
                          lower: string -> string)
    requires ConnectorOk(c, sectionBytes, BasisRules(utf8, trim, lower))
    ensures |c.sections| <= 6
  {
    NoMoreSectionsThanPlatforms(c, sectionBytes, BasisRules(utf8, trim, lower));
  }
}
