/**
  Server connection strings, host[:port][#password], and the slug of a server's name.
  Strings are sequences of runes; every delimiter is ASCII.
 */
module Endpoint {
  import opened Wrappers
  import opened Text

  const DEFAULT_PORT: nat := 4296
  const MAX_PORT: nat := 65535
  const MAX_HOST_RUNES: nat := 253

  datatype Endpoint = Endpoint(host: string, port: nat, password: Option<string>)

  datatype Error =
    AddressRequired | InvalidIPv6Host | InvalidHostSuffix | InvalidPort |
    HostRequired | PortRequired | HostTooLong | UrlSyntax

  predicate HasPrefix(s: string, c: char) {
    s != "" && s[0] == c
  }

  predicate HasSuffix(s: string, c: char) {
    s != "" && s[|s| - 1] == c
  }

  /** A host with a ':' in it goes into brackets, unless it already has one at either end. */
  function Shown(host: string): string {
    if ':' in host && !HasPrefix(host, '[') && !HasSuffix(host, ']') then "[" + host + "]" else host
  }

  /** Endpoint.ConnectionString. */
  function Print(e: Endpoint): string {
    var value := Shown(TrimSpace(e.host)) + ":" + Decimal(e.port);
    if e.password.Some? && TrimSpace(e.password.value) != "" then value + "#" + e.password.value else value
  }

  function ParsePort(raw: string): Result<nat, Error> {
    match ParseDecimal(TrimSpace(raw))
    case Some(port) => if 0 < port <= MAX_PORT then Ok(port) else Err(InvalidPort)
    case None => Err(InvalidPort)
  }

  function NormalizeHost(raw: string): string {
    var host := TrimSpace(raw);
    ToLower(if HasPrefix(host, '[') && HasSuffix(host, ']') && |host| > 1 then TrimSpace(host[1..|host| - 1]) else host)
  }

  predicate HasUrlSyntax(host: string) {
    '/' in host || '?' in host || '#' in host || '\\' in host
  }

  function ValidateShape(e: Endpoint): Result<Endpoint, Error> {
    var host := TrimSpace(e.host);
    if host == "" then Err(HostRequired)
    else if e.port == 0 then Err(PortRequired)
    else if |host| > MAX_HOST_RUNES then Err(HostTooLong)
    else if HasUrlSyntax(host) then Err(UrlSyntax)
    else Ok(e)
  }

  /** "[host]", perhaps with ":port" behind it. */
  function ParseBracketed(host: string): Result<(string, nat), Error>
    requires HasPrefix(host, '[')
  {
    match IndexOf(host, ']')
    case None => Err(InvalidIPv6Host)
    case Some(end) =>
      var inner := TrimSpace(host[1..end]);
      var rest := TrimSpace(host[end + 1..]);
      if HasPrefix(rest, ':') then
        match ParsePort(rest[1..])
        case Ok(port) => Ok((inner, port))
        case Err(e) => Err(e)
      else if rest != "" then Err(InvalidHostSuffix)
      else Ok((inner, DEFAULT_PORT))
  }

  /** What follows the last ':' is the port if it reads as one, and part of the host otherwise. */
  function ParsePlain(host: string): (string, nat) {
    match LastIndexOf(host, ':')
    case None => (host, DEFAULT_PORT)
    case Some(colon) =>
      if 0 < colon < |host| - 1 && ParsePort(host[colon + 1..]).Ok?
      then (TrimSpace(host[..colon]), ParsePort(host[colon + 1..]).value)
      else (host, DEFAULT_PORT)
  }

  /** Host and port of what stands before the '#'. */
  function ParseHostPort(left: string): Result<(string, nat), Error> {
    var host := TrimSpace(left);
    if HasPrefix(host, '[') then ParseBracketed(host) else Ok(ParsePlain(host))
  }

  function SplitPassword(value: string): (string, Option<string>) {
    match IndexOf(value, '#')
    case None => (value, None)
    case Some(hash) =>
      var password := value[hash + 1..];
      (value[..hash], if TrimSpace(password) != "" then Some(password) else None)
  }

  function Assemble(parts: Result<(string, nat), Error>, password: Option<string>): Result<Endpoint, Error> {
    match parts
    case Err(e) => Err(e)
    case Ok(hostPort) => ValidateShape(Endpoint(NormalizeHost(hostPort.0), hostPort.1, password))
  }

  /** ParseConnectionString. */
  function Parse(raw: string): Result<Endpoint, Error> {
    var value := TrimSpace(raw);
    if value == "" then Err(AddressRequired)
    else
      var split := SplitPassword(value);
      Assemble(ParseHostPort(split.0), split.1)
  }

  // ----- What parsing accepts ----------------------------------------------------------

  predicate Lowercase(s: string) {
    forall c | c in s :: !('A' <= c <= 'Z')
  }

  predicate NormalHost(host: string) {
    && host != "" && Trimmed(host) && Lowercase(host)
    && |host| <= MAX_HOST_RUNES
    && !HasUrlSyntax(host)
  }

  predicate NormalPassword(password: Option<string>) {
    password.Some? ==>
      && TrimSpace(password.value) != ""
      && !IsSpace(password.value[|password.value| - 1])
  }

  predicate Normal(e: Endpoint) {
    NormalHost(e.host) && 0 < e.port <= MAX_PORT && NormalPassword(e.password)
  }

  /** The hosts whose printed form can be read back. */
  predicate Printable(host: string)
    requires host != ""
  {
    host[0] != '[' && !(':' in host && ']' in host && host[|host| - 1] != ']')
  }

  lemma PasswordIsNormal(value: string)
    requires value != "" && Trimmed(value)
    ensures NormalPassword(SplitPassword(value).1)
  {
    match IndexOf(value, '#')
    case None =>
    case Some(hash) =>
      var password := value[hash + 1..];
      if TrimSpace(password) != "" { assert password[|password| - 1] == value[|value| - 1]; }
  }

  lemma PortInRange(left: string)
    requires ParseHostPort(left).Ok?
    ensures 0 < ParseHostPort(left).value.1 <= MAX_PORT
  {
  }

  lemma AssembledIsNormal(host: string, port: nat, password: Option<string>)
    requires 0 < port <= MAX_PORT && NormalPassword(password)
    ensures var r := Assemble(Ok((host, port)), password); r.Ok? ==> Normal(r.value)
  {
    NormalizedIsNormal(host);
  }

  /** Every accepted string parses to a normalised endpoint. */
  lemma ParsedIsNormal(raw: string)
    ensures Parse(raw).Ok? ==> Normal(Parse(raw).value)
  {
    var value := TrimSpace(raw);
    if Parse(raw).Ok? {
      PasswordIsNormal(value);
      var split := SplitPassword(value);
      PortInRange(split.0);
      var parts := ParseHostPort(split.0).value;
      AssembledIsNormal(parts.0, parts.1, split.1);
    }
  }

  lemma LowerKeepsTrimmed(s: string)
    requires Trimmed(s)
    ensures Trimmed(ToLower(s)) && Lowercase(ToLower(s))
  {
  }

  lemma NormalizedIsNormal(raw: string)
    ensures Trimmed(NormalizeHost(raw)) && Lowercase(NormalizeHost(raw))
  {
    var host := TrimSpace(raw);
    LowerKeepsTrimmed(if HasPrefix(host, '[') && HasSuffix(host, ']') && |host| > 1
                      then TrimSpace(host[1..|host| - 1]) else host);
  }

  // ----- Printing and parsing back -----------------------------------------------------

  lemma DecimalIsTrimmed(n: nat)
    ensures Trimmed(Decimal(n))
  {
    var s := Decimal(n);
    assert s[0] in s && s[|s| - 1] in s;
  }

  lemma PortRoundTrip(port: nat)
    requires 0 < port <= MAX_PORT
    ensures ParsePort(Decimal(port)) == Ok(port)
  {
    DecimalIsTrimmed(port);
    ParseInvertsDecimal(port);
  }

  lemma NormalHostIsFixed(host: string)
    requires NormalHost(host)
    ensures !(HasPrefix(host, '[') && HasSuffix(host, ']')) ==> NormalizeHost(host) == host
  {
    assert forall i | 0 <= i < |host| :: host[i] in host;
    assert forall i | 0 <= i < |host| :: ToLower(host)[i] == host[i];
    assert ToLower(host) == host;
  }

  lemma NoHashBeforePassword(host: string, port: nat)
    requires '#' !in host
    ensures '#' !in Shown(host) + ":" + Decimal(port)
  {
    DecimalIsDigits(port);
  }

  lemma SplitWithPassword(left: string, password: string)
    requires '#' !in left && TrimSpace(password) != ""
    ensures SplitPassword(left + "#" + password) == (left, Some(password))
  {
    var value := left + ['#'] + password;
    assert value == left + "#" + password;
    IndexAfter(left, '#', password);
    assert value[|left| + 1..] == password && value[..|left|] == left;
  }

  lemma ShownIsTrimmed(host: string, port: nat)
    requires host != "" && Trimmed(host)
    ensures Trimmed(Shown(host) + ":" + Decimal(port))
  {
    var s := Shown(host) + ":" + Decimal(port);
    assert s[|s| - 1] == Decimal(port)[|Decimal(port)| - 1];
  }

  lemma PrintedIsTrimmed(e: Endpoint)
    requires Normal(e)
    ensures Trimmed(Print(e)) && Print(e) != ""
  {
    ShownIsTrimmed(e.host, e.port);
    var left := Shown(e.host) + ":" + Decimal(e.port);
    if e.password.Some? {
      var password := e.password.value;
      assert Print(e) == left + "#" + password;
      assert Print(e)[|Print(e)| - 1] == password[|password| - 1];
    }
  }

  /** Printing appends the password after the one '#' that parsing looks for. */
  lemma PasswordRoundTrip(e: Endpoint)
    requires Normal(e)
    ensures SplitPassword(Print(e)) == (Shown(e.host) + ":" + Decimal(e.port), e.password)
  {
    var left := Shown(e.host) + ":" + Decimal(e.port);
    NoHashBeforePassword(e.host, e.port);
    if e.password.Some? { SplitWithPassword(left, e.password.value); }
  }

  /** A host that is shown as it is: the last ':' is the one before the port. */
  lemma PlainHostRoundTrip(host: string, port: nat)
    requires host != "" && Trimmed(host) && 0 < port <= MAX_PORT
    ensures ParsePlain(host + ":" + Decimal(port)) == (host, port)
  {
    var digits := Decimal(port);
    var left := host + [':'] + digits;
    DecimalIsDigits(port);
    LastIndexBefore(host, ':', digits);
    assert left[|host| + 1..] == digits && left[..|host|] == host;
    PortRoundTrip(port);
  }

  /** A host shown in brackets is read back iff it contains no ']' of its own. */
  lemma BracketedHostRoundTrip(host: string, port: nat)
    requires Trimmed(host) && 0 < port <= MAX_PORT
    ensures var r := ParseBracketed("[" + host + "]:" + Decimal(port));
      if ']' in host then r.Err? else r == Ok((host, port))
  {
    var left := "[" + host + "]:" + Decimal(port);
    if ']' in host {
      var i := FirstOf(host, ']');
      var front, after := "[" + host[..i], host[i + 1..] + "]:" + Decimal(port);
      assert left == front + [']'] + after;
      IndexAfter(front, ']', after);
      assert left[i + 2..] == after;
      assert after[|host| - i - 1] == ']';
      BrokenSuffix(after, |host| - i - 1);
    } else {
      var front, after := "[" + host, ":" + Decimal(port);
      assert left == front + [']'] + after;
      IndexAfter(front, ']', after);
      assert left[|host| + 2..] == after && left[1..|host| + 1] == host;
      assert after[1..] == Decimal(port);
      assert Trimmed(after);
      PortRoundTrip(port);
    }
  }

  /** What stands before the '#', or everything without one, is the left part. */
  lemma LeftPart(left: string, tail: string)
    requires '#' !in left && (tail == "" || tail[0] == '#')
    ensures SplitPassword(left + tail).0 == left
  {
    if tail != "" {
      assert left + tail == left + ['#'] + tail[1..];
      IndexAfter(left, '#', tail[1..]);
      assert (left + tail)[..|left|] == left;
    } else {
      assert left + tail == left;
    }
  }

  lemma PlainDefault(left: string)
    requires ':' !in left && !HasPrefix(TrimSpace(left), '[')
    ensures ParseHostPort(left) == Ok((TrimSpace(left), 4296))
  {
    var from, to := TrimSpaceIsSlice(left);
    assert ':' !in TrimSpace(left);
  }

  lemma BracketedDefault(inner: string)
    requires ']' !in inner
    ensures ParseHostPort("[" + inner + "]") == Ok((TrimSpace(inner), 4296))
  {
    var left := "[" + inner + "]";
    assert left == "[" + inner + [']'] + "";
    IndexAfter("[" + inner, ']', "");
    assert TrimSpace(left) == left && left[1..|inner| + 1] == inner && left[|inner| + 2..] == "";
  }

  /** The accepted endpoint has the host and port of the left part. */
  lemma ParsedParts(left: string, tail: string, host: string)
    requires left + tail != "" && Trimmed(left + tail) && '#' !in left && (tail == "" || tail[0] == '#')
    requires ParseHostPort(left) == Ok((host, 4296)) && Parse(left + tail).Ok?
    ensures Parse(left + tail).value.port == 4296 && Parse(left + tail).value.host == NormalizeHost(host)
  {
    LeftPart(left, tail);
    AssembledParts(host, SplitPassword(left + tail).1);
  }

  lemma AssembledParts(host: string, password: Option<string>)
    ensures var e := Assemble(Ok((host, 4296)), password);
      e.Ok? ==> e.value.port == 4296 && e.value.host == NormalizeHost(host)
  {
  }

  /** Without a ':' the port is 4296, and the host is all that stands before the '#', in lower case. */
  lemma DefaultPort(left: string, tail: string)
    requires left + tail != "" && Trimmed(left + tail) && '#' !in left && (tail == "" || tail[0] == '#')
    requires ':' !in left && !HasPrefix(TrimSpace(left), '[')
    requires Parse(left + tail).Ok?
    ensures Parse(left + tail).value.port == 4296 && Parse(left + tail).value.host == ToLower(TrimSpace(left))
  {
    PlainDefault(left);
    ParsedParts(left, tail, TrimSpace(left));
  }

  /** The same for a bracketed host with nothing behind it. */
  lemma DefaultPortInBrackets(inner: string, tail: string)
    requires Trimmed("[" + inner + "]" + tail) && '#' !in inner && ']' !in inner && (tail == "" || tail[0] == '#')
    requires Parse("[" + inner + "]" + tail).Ok?
    ensures Parse("[" + inner + "]" + tail).value.port == 4296
  {
    BracketedDefault(inner);
    ParsedParts("[" + inner + "]", tail, TrimSpace(inner));
  }

  /** A port behind the ':' is the number it spells, and the password is all that stands behind the '#'. */
  lemma ExplicitParts(host: string, port: nat, password: Option<string>)
    requires NormalHost(host) && ':' !in host && host[0] != '[' && 0 < port <= 65535
    requires password.Some? ==> TrimSpace(password.value) != "" && !IsSpace(password.value[|password.value| - 1])
    ensures Parse(host + ":" + Decimal(port) + (if password.Some? then "#" + password.value else "")) ==
      Ok(Endpoint(host, port, password))
  {
    var e := Endpoint(host, port, password);
    assert Print(e) == host + ":" + Decimal(port) + (if password.Some? then "#" + password.value else "");
    RoundTripIff(e);
  }

  lemma {:induction false} FirstOf(s: string, c: char) returns (i: nat)
    requires c in s
    ensures i < |s| && s[i] == c && c !in s[..i]
  {
    if s[0] == c { return 0; }
    i := FirstOf(s[1..], c);
    assert s[..i + 1] == [s[0]] + s[1..][..i];
    i := i + 1;
  }

  /** Text that still holds a ']' is neither empty nor a port. */
  lemma BrokenSuffix(after: string, at: nat)
    requires at < |after| && after[at] == ']'
    ensures TrimSpace(after) != ""
    ensures HasPrefix(TrimSpace(after), ':') ==> ParsePort(TrimSpace(after)[1..]).Err?
  {
    BracketSurvivesTrim(after, at);
    var rest := TrimSpace(after);
    if HasPrefix(rest, ':') {
      var k :| 0 <= k < |rest| && rest[k] == ']';
      assert rest[1..][k - 1] == ']';
      BracketSurvivesTrim(rest[1..], k - 1);
      if ParseDecimal(TrimSpace(rest[1..])).Some? { ParsedIsDigits(TrimSpace(rest[1..])); }
    }
  }

  lemma BracketSurvivesTrim(s: string, at: nat)
    requires at < |s| && s[at] == ']'
    ensures ']' in TrimSpace(s)
  {
    var from, to := TrimSpaceIsSlice(s);
    assert TrimSpace(s)[at - from] == ']';
  }

  /** A host that starts with '[' never comes back: what is read is shorter or an error. */
  lemma OpenBracketIsLost(host: string, port: nat)
    requires HasPrefix(host, '[')
    ensures var r := ParseBracketed(host + ":" + Decimal(port)); r.Ok? ==> |r.value.0| < |host|
  {
    var left := host + ":" + Decimal(port);
    DecimalIsDigits(port);
    forall i | |host| <= i < |left| ensures left[i] != ']' {
      if i > |host| {
        assert left[i] == Decimal(port)[i - |host| - 1];
        assert Decimal(port)[i - |host| - 1] in Decimal(port);
      }
    }
  }

  lemma HostPortOfTrimmed(left: string)
    requires Trimmed(left)
    ensures ParseHostPort(left) == if HasPrefix(left, '[') then ParseBracketed(left) else Ok(ParsePlain(left))
  {
  }

  lemma NormalizedIsNoLonger(host: string)
    ensures |NormalizeHost(host)| <= |host|
  {
  }

  lemma ShownWhenPrintable(host: string)
    requires host != "" && host[0] != '['
    ensures if ':' in host && host[|host| - 1] != ']' then Shown(host) == "[" + host + "]" else Shown(host) == host
    ensures Shown(host) == host ==> Printable(host)
    ensures Shown(host) != host ==> (Printable(host) <==> ']' !in host)
  {
    assert "[" + host + "]" != host;
  }

  /** What was printed for a host and a port either reads back as both, or as some other host. */
  predicate ReadsBack(host: string, port: nat, r: Result<(string, nat), Error>)
    requires host != ""
  {
    if Printable(host) then r == Ok((host, port)) else r.Ok? ==> NormalizeHost(r.value.0) != host
  }

  lemma OpenBracketReadsBack(host: string, port: nat, left: string)
    requires host != "" && Trimmed(host) && host[0] == '[' && left == host + ":" + Decimal(port)
    ensures ReadsBack(host, port, ParseHostPort(left))
  {
    ShownIsTrimmed(host, port);
    HostPortOfTrimmed(left);
    OpenBracketIsLost(host, port);
    var r := ParseBracketed(left);
    if r.Ok? { NormalizedIsNoLonger(r.value.0); }
  }

  lemma PlainHostReadsBack(host: string, port: nat, left: string)
    requires host != "" && Trimmed(host) && host[0] != '[' && Shown(host) == host && 0 < port <= MAX_PORT
    requires left == host + ":" + Decimal(port)
    ensures ReadsBack(host, port, ParseHostPort(left))
  {
    ShownIsTrimmed(host, port);
    HostPortOfTrimmed(left);
    PlainHostRoundTrip(host, port);
    ShownWhenPrintable(host);
  }

  lemma BracketedHostReadsBack(host: string, port: nat, left: string)
    requires host != "" && Trimmed(host) && host[0] != '[' && Shown(host) != host && 0 < port <= MAX_PORT
    requires left == "[" + host + "]:" + Decimal(port)
    ensures ReadsBack(host, port, ParseHostPort(left))
  {
    ShownIsTrimmed(host, port);
    assert left == Shown(host) + ":" + Decimal(port);
    HostPortOfTrimmed(left);
    BracketedHostRoundTrip(host, port);
    ShownWhenPrintable(host);
  }

  /** Host and port come back for exactly the printable hosts. */
  lemma HostPortRoundTrip(host: string, port: nat, left: string)
    requires host != "" && Trimmed(host) && 0 < port <= MAX_PORT && left == Shown(host) + ":" + Decimal(port)
    ensures ReadsBack(host, port, ParseHostPort(left))
  {
    if host[0] == '[' {
      OpenBracketReadsBack(host, port, left);
    } else if Shown(host) == host {
      PlainHostReadsBack(host, port, left);
    } else {
      assert left == "[" + host + "]:" + Decimal(port);
      BracketedHostReadsBack(host, port, left);
    }
  }

  lemma ParseOfPrint(e: Endpoint)
    requires Normal(e)
    ensures Parse(Print(e)) == Assemble(ParseHostPort(Shown(e.host) + ":" + Decimal(e.port)), e.password)
  {
    PrintedIsTrimmed(e);
    PasswordRoundTrip(e);
  }

  lemma AssembleNormal(e: Endpoint)
    requires Normal(e) && Printable(e.host)
    ensures Assemble(Ok((e.host, e.port)), e.password) == Ok(e)
  {
    NormalHostIsFixed(e.host);
  }

  lemma AssembledHost(parts: Result<(string, nat), Error>, password: Option<string>)
    ensures Assemble(parts, password).Ok? ==>
      parts.Ok? && Assemble(parts, password).value.host == NormalizeHost(parts.value.0)
  {
  }

  /** Parsing what was printed gives the endpoint back, for exactly the printable hosts. */
  lemma RoundTripIff(e: Endpoint)
    requires Normal(e)
    ensures Parse(Print(e)) == Ok(e) <==> Printable(e.host)
  {
    var left := Shown(e.host) + ":" + Decimal(e.port);
    var parts := ParseHostPort(left);
    ParseOfPrint(e);
    HostPortRoundTrip(e.host, e.port, left);
    AssembledHost(parts, e.password);
    if Printable(e.host) { AssembleNormal(e); }
  }

  /** Every accepted string settles after one round, unless its host cannot be printed. */
  lemma ParseSettles(raw: string)
    ensures Parse(raw).Ok? ==>
      var e := Parse(raw).value;
      e.host != "" && (Printable(e.host) <==> Parse(Print(e)) == Ok(e))
  {
    ParsedIsNormal(raw);
    if Parse(raw).Ok? { RoundTripIff(Parse(raw).value); }
  }

  /** A host whose last ':' introduces no port is accepted as it stands. */
  lemma AcceptedVerbatim(host: string)
    requires NormalHost(host) && host[0] != '[' && ParsePlain(host) == (host, DEFAULT_PORT)
    ensures Parse(host) == Ok(Endpoint(host, DEFAULT_PORT, None))
  {
    assert SplitPassword(host) == (host, None);
    NormalHostIsFixed(host);
    assert Assemble(Ok((host, DEFAULT_PORT)), None) == Ok(Endpoint(host, DEFAULT_PORT, None));
  }

  /** Such a host, if it is not printable, is accepted and then lost by its own printed form. */
  lemma AcceptedAndLost(host: string)
    requires NormalHost(host) && host[0] != '[' && ParsePlain(host) == (host, DEFAULT_PORT) && !Printable(host)
    ensures var e := Endpoint(host, DEFAULT_PORT, None); Parse(host) == Ok(e) && Parse(Print(e)) != Ok(e)
  {
    AcceptedVerbatim(host);
    RoundTripIff(Endpoint(host, DEFAULT_PORT, None));
  }

  lemma NoPortBehindColon()
    ensures ParsePlain("x:]y") == ("x:]y", DEFAULT_PORT)
  {
    assert "x:]y" == "x" + [':'] + "]y";
    LastIndexBefore("x", ':', "]y");
    assert "x:]y"[2..] == "]y" && Trimmed("]y");
    assert ParseDecimal("]y") == None;
  }

  /** There is one. */
  lemma AcceptedButNotPrintable() returns (e: Endpoint)
    ensures e.host == "x:]y" && Parse(e.host) == Ok(e) && Parse(Print(e)) != Ok(e)
  {
    var host := "x:]y";
    NoPortBehindColon();
    AcceptedAndLost(host);
    e := Endpoint(host, DEFAULT_PORT, None);
  }

  // ----- The code ----------------------------------------------------------------------

  /** The part of ParseConnectionString that reassigns host and port. */
  method ReadHostPort(left: string) returns (result: Result<(string, nat), Error>)
    ensures result == ParseHostPort(left)
  {
    var host, port := TrimSpace(left), DEFAULT_PORT;
    if HasPrefix(host, '[') {
      var endBracket := IndexOf(host, ']');
      if endBracket.None? { return Err(InvalidIPv6Host); }
      var withoutBrackets := TrimSpace(host[1..endBracket.value]);
      var rest := TrimSpace(host[endBracket.value + 1..]);
      host := withoutBrackets;
      if HasPrefix(rest, ':') {
        var parsed := ParsePort(rest[1..]);
        if parsed.Err? { return Err(parsed.error); }
        port := parsed.value;
      } else if rest != "" {
        return Err(InvalidHostSuffix);
      }
    } else {
      var colon := LastIndexOf(host, ':');
      if colon.Some? && 0 < colon.value < |host| - 1 {
        var parsed := ParsePort(host[colon.value + 1..]);
        if parsed.Ok? {
          host := TrimSpace(host[..colon.value]);
          port := parsed.value;
        }
      }
    }
    result := Ok((host, port));
  }

  method ParseConnectionString(raw: string) returns (result: Result<Endpoint, Error>)
    ensures result == Parse(raw)
    ensures result.Ok? ==> Normal(result.value)
  {
    ParsedIsNormal(raw);
    var value := TrimSpace(raw);
    if value == "" { return Err(AddressRequired); }
    var left, password := value, None;
    var hash := IndexOf(value, '#');
    if hash.Some? {
      var rawPassword := value[hash.value + 1..];
      left := value[..hash.value];
      if TrimSpace(rawPassword) != "" { password := Some(rawPassword); }
    }
    var hostPort := ReadHostPort(left);
    if hostPort.Err? { return Err(hostPort.error); }
    result := ValidateShape(Endpoint(NormalizeHost(hostPort.value.0), hostPort.value.1, password));
  }

  /** The letters and digits of a text, in order. */
  function WordRunes(s: string, word: char -> bool): string {
    if s == "" then ""
    else WordRunes(s[..|s| - 1], word) + (if word(s[|s| - 1]) then [s[|s| - 1]] else "")
  }

  /** Words joined by single hyphens. */
  predicate Hyphenated(s: string, word: char -> bool) {
    && (forall i | 0 <= i < |s| :: word(s[i]) || s[i] == '-')
    && (s != "" ==> s[0] != '-')
    && (forall i | 0 <= i < |s| - 1 :: !(s[i] == '-' && s[i + 1] == '-'))
  }

  /** What the builder holds after the runes of `s`. */
  function Builder(s: string, word: char -> bool): string {
    if s == "" then ""
    else
      var built := Builder(s[..|s| - 1], word);
      if word(s[|s| - 1]) then built + [s[|s| - 1]]
      else if built != "" && !HasSuffix(built, '-') then built + ['-']
      else built
  }

  lemma HyphenatedAppend(s: string, r: char, word: char -> bool)
    requires Hyphenated(s, word)
    requires if word(r) then r != '-' else r == '-' && s != "" && !HasSuffix(s, '-')
    ensures Hyphenated(s + [r], word)
  {
    var t := s + [r];
    forall i | 0 <= i < |t| ensures word(t[i]) || t[i] == '-' { if i < |s| { assert t[i] == s[i]; } }
    forall i | 0 <= i < |t| - 1 ensures !(t[i] == '-' && t[i + 1] == '-') { assert t[i] == s[i]; }
  }

  lemma WordRunesAppend(s: string, r: char, word: char -> bool)
    ensures WordRunes(s + [r], word) == WordRunes(s, word) + (if word(r) then [r] else "")
  {
    assert (s + [r])[..|s|] == s;
  }

  /** The builder keeps the letters and digits in order and joins the words by single hyphens. */
  lemma {:induction false} BuilderKeepsWords(s: string, word: char -> bool)
    requires !word('-')
    ensures Hyphenated(Builder(s, word), word)
    ensures WordRunes(Builder(s, word), word) == WordRunes(s, word)
  {
    if s != "" {
      BuilderKeepsWords(s[..|s| - 1], word);
      var built := Builder(s[..|s| - 1], word);
      var r := if word(s[|s| - 1]) then s[|s| - 1] else '-';
      if word(r) || (built != "" && !HasSuffix(built, '-')) {
        HyphenatedAppend(built, r, word);
        WordRunesAppend(built, r, word);
      }
    }
  }

  /** strings.Trim with the cutset "-": every hyphen at either end goes. */
  function TrimHyphens(s: string): string {
    if HasPrefix(s, '-') then TrimHyphens(s[1..])
    else if HasSuffix(s, '-') then TrimHyphens(s[..|s| - 1])
    else s
  }

  /** The builder leaves at most one hyphen to trim, at the end. */
  lemma TrimOfHyphenated(s: string, word: char -> bool)
    requires Hyphenated(s, word)
    ensures TrimHyphens(s) == if HasSuffix(s, '-') then s[..|s| - 1] else s
  {
  }

  /** Text that begins with a letter or digit has one. */
  lemma {:induction false} FirstWordRune(s: string, word: char -> bool)
    requires s != "" && word(s[0])
    ensures WordRunes(s, word) != ""
  {
    if |s| > 1 { FirstWordRune(s[..|s| - 1], word); }
  }

  predicate NoDoubleHyphen(s: string) {
    forall i | 0 <= i < |s| - 1 :: !(s[i] == '-' && s[i + 1] == '-')
  }

  /** A trimmed builder: the words of the name, and nothing but single hyphens between them. */
  lemma TrimmedBuilder(name: string, word: char -> bool)
    requires !word('-')
    ensures var slug := TrimHyphens(Builder(name, word));
      && Hyphenated(slug, word) && !HasPrefix(slug, '-') && !HasSuffix(slug, '-')
      && WordRunes(slug, word) == WordRunes(name, word)
      && (slug == "" <==> WordRunes(name, word) == "")
  {
    var built := Builder(name, word);
    BuilderKeepsWords(name, word);
    TrimOfHyphenated(built, word);
    var slug := TrimHyphens(built);
    if HasSuffix(built, '-') {
      assert built == slug + ['-'];
      WordRunesAppend(slug, '-', word);
    }
    if slug != "" { FirstWordRune(slug, word); }
  }

  /**
    Slug; `word` is unicode's letter-or-digit. The slug is never empty, has no hyphen at
    either end nor two in a row, and spells the letters and digits of the name; a name
    without any becomes "basis-server".
   */
  method Slug(value: string, word: char -> bool) returns (slug: string)
    requires !word('-')
    ensures slug != "" && !HasPrefix(slug, '-') && !HasSuffix(slug, '-') && NoDoubleHyphen(slug)
    ensures var words := WordRunes(ToLower(TrimSpace(value)), word);
      if words == "" then slug == "basis-server" else Hyphenated(slug, word) && WordRunes(slug, word) == words
  {
    var name := ToLower(TrimSpace(value));
    var builder, lastHyphen := "", false;
    var i := 0;
    while i < |name|
      invariant 0 <= i <= |name|
      invariant builder == Builder(name[..i], word)
      invariant lastHyphen == HasSuffix(builder, '-')
    {
      var r := name[i];
      assert name[..i + 1][..i] == name[..i];
      if word(r) {
        builder, lastHyphen := builder + [r], false;
      } else if !lastHyphen && |builder| > 0 {
        builder, lastHyphen := builder + ['-'], true;
      }
      i := i + 1;
    }
    assert name[..|name|] == name;
    TrimmedBuilder(name, word);
    slug := TrimHyphens(builder);
    if slug == "" { slug := "basis-server"; }
  }
}
