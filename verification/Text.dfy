/** The few string operations the parsers need, over ASCII white space and letters. */
module Text {
  import opened Wrappers

  predicate IsSpace(c: char) {
    c == ' ' || '\t' <= c <= '\r'
  }

  function TrimLeft(s: string): (t: string)
    ensures |t| <= |s|
    ensures t == "" || !IsSpace(t[0])
  {
    if s != "" && IsSpace(s[0]) then TrimLeft(s[1..]) else s
  }

  function TrimRight(s: string): (t: string)
    ensures |t| <= |s|
    ensures t == "" || !IsSpace(t[|t| - 1])
    ensures t != "" ==> t[0] == s[0]
  {
    if s != "" && IsSpace(s[|s| - 1]) then TrimRight(s[..|s| - 1]) else s
  }

  predicate Trimmed(s: string) {
    s == "" || (!IsSpace(s[0]) && !IsSpace(s[|s| - 1]))
  }

  function TrimSpace(s: string): (t: string)
    ensures |t| <= |s|
    ensures Trimmed(t)
    ensures Trimmed(s) ==> t == s
  {
    TrimRight(TrimLeft(s))
  }

  /** Trimming only drops white space at the ends. */
  lemma {:induction false} TrimLeftIsSuffix(s: string)
    ensures var t := TrimLeft(s);
      t == s[|s| - |t|..] && forall i | 0 <= i < |s| - |t| :: IsSpace(s[i])
  {
    if s != "" && IsSpace(s[0]) {
      TrimLeftIsSuffix(s[1..]);
      assert forall i | 0 < i < |s| - |TrimLeft(s)| :: s[i] == s[1..][i - 1];
    }
  }

  lemma {:induction false} TrimRightIsPrefix(s: string)
    ensures var t := TrimRight(s);
      t == s[..|t|] && forall i | |t| <= i < |s| :: IsSpace(s[i])
  {
    if s != "" && IsSpace(s[|s| - 1]) { TrimRightIsPrefix(s[..|s| - 1]); }
  }

  /** What trimming leaves is a slice with only white space around it. */
  lemma TrimSpaceIsSlice(s: string) returns (from: nat, to: nat)
    ensures from <= to <= |s| && TrimSpace(s) == s[from..to]
    ensures forall i | 0 <= i < from || to <= i < |s| :: IsSpace(s[i])
  {
    TrimLeftIsSuffix(s);
    var left := TrimLeft(s);
    TrimRightIsPrefix(left);
    from, to := |s| - |left|, |s| - |left| + |TrimRight(left)|;
    assert forall i | to <= i < |s| :: s[i] == left[i - from];
  }

  predicate Blank(s: string) {
    forall c | c in s :: IsSpace(c)
  }

  lemma {:induction false} TrimLeftOfBlank(blank: string, s: string)
    requires Blank(blank)
    ensures TrimLeft(blank + s) == TrimLeft(s)
  {
    if blank == "" {
      assert blank + s == s;
    } else {
      assert blank[0] in blank;
      assert (blank + s)[1..] == blank[1..] + s;
      TrimLeftOfBlank(blank[1..], s);
    }
  }

  lemma {:induction false} TrimRightOfBlank(s: string, blank: string)
    requires Blank(blank)
    ensures TrimRight(s + blank) == TrimRight(s)
  {
    if blank == "" {
      assert s + blank == s;
    } else {
      var n := |blank| - 1;
      assert blank[n] in blank;
      assert (s + blank)[..|s| + n] == s + blank[..n];
      TrimRightOfBlank(s, blank[..n]);
    }
  }

  /** Trimming takes off exactly the white space around a trimmed text. */
  lemma TrimOfPadded(before: string, s: string, after: string)
    requires Blank(before) && Trimmed(s) && Blank(after)
    ensures TrimSpace(before + s + after) == s
  {
    assert before + s + after == before + (s + after);
    TrimLeftOfBlank(before, s + after);
    if s == "" {
      assert s + after == after + "";
      TrimLeftOfBlank(after, "");
    } else {
      TrimRightOfBlank(s, after);
    }
  }

  function Lower(c: char): (lower: char)
    ensures 'A' <= c <= 'Z' ==> 'a' <= lower <= 'z' && lower - 'a' == c - 'A'
    ensures !('A' <= c <= 'Z') ==> lower == c
  {
    if 'A' <= c <= 'Z' then (c as int + 32) as char else c
  }

  function ToLower(s: string): (t: string)
    ensures |t| == |s|
  {
    seq(|s|, i requires 0 <= i < |s| => Lower(s[i]))
  }

  /** The first position of a byte, if there is one. */
  function IndexOf(s: string, c: char): (at: Option<nat>)
    ensures at.None? ==> c !in s
    ensures at.Some? ==> at.value < |s| && s[at.value] == c
  {
    if s == "" then None
    else if s[0] == c then Some(0)
    else
      match IndexOf(s[1..], c)
      case Some(i) => Some(i + 1)
      case None => None
  }

  /** The last position of a byte, if there is one. */
  function LastIndexOf(s: string, c: char): (at: Option<nat>)
    ensures at.None? ==> c !in s
    ensures at.Some? ==> at.value < |s| && s[at.value] == c
  {
    if s == "" then None
    else if s[|s| - 1] == c then Some(|s| - 1)
    else
      match LastIndexOf(s[..|s| - 1], c)
      case Some(i) => Some(i)
      case None => assert s == s[..|s| - 1] + [s[|s| - 1]]; None
  }

  /** The first occurrence of a byte that the front part does not contain. */
  lemma {:induction false} IndexAfter(front: string, c: char, back: string)
    requires c !in front
    ensures IndexOf(front + [c] + back, c) == Some(|front|)
  {
    if front != "" {
      assert (front + [c] + back)[1..] == front[1..] + [c] + back;
      IndexAfter(front[1..], c, back);
    }
  }

  /** Nothing before the first position is the byte. */
  lemma {:induction false} IndexIsFirst(s: string, c: char)
    ensures IndexOf(s, c).Some? ==> c !in s[..IndexOf(s, c).value]
  {
    if s != "" && s[0] != c {
      IndexIsFirst(s[1..], c);
      if IndexOf(s[1..], c).Some? {
        var i := IndexOf(s[1..], c).value;
        assert s[..i + 1] == [s[0]] + s[1..][..i];
      }
    }
  }

  /** The last occurrence of a byte that the back part does not contain. */
  lemma {:induction false} LastIndexBefore(front: string, c: char, back: string)
    requires c !in back
    ensures LastIndexOf(front + [c] + back, c) == Some(|front|)
    decreases |back|
  {
    var s := front + [c] + back;
    if back != "" {
      assert s[..|s| - 1] == front + [c] + back[..|back| - 1];
      LastIndexBefore(front, c, back[..|back| - 1]);
    }
  }

  predicate IsDigit(c: char) {
    '0' <= c <= '9'
  }

  /** fmt's %d for a non-negative number. */
  function Decimal(n: nat): (s: string)
    ensures s != "" && IsDigit(s[0]) && IsDigit(s[|s| - 1])
  {
    var last := [(n % 10 + '0' as int) as char];
    if n < 10 then last else Decimal(n / 10) + last
  }

  /** The value of a non-empty run of decimal digits, however long. */
  function ParseDecimal(s: string): Option<nat> {
    if s == "" || !IsDigit(s[|s| - 1]) then None
    else
      var digit := s[|s| - 1] as int - '0' as int;
      if |s| == 1 then Some(digit)
      else
        match ParseDecimal(s[..|s| - 1])
        case Some(front) => Some(10 * front + digit)
        case None => None
  }

  /** The digits stand in order, the units last. */
  lemma DecimalPlaces(n: nat, digit: nat)
    requires n > 0 && digit < 10
    ensures Decimal(10 * n + digit) == Decimal(n) + Decimal(digit) && Decimal(digit) == [(digit + '0' as int) as char]
  {
  }

  lemma {:induction false} ParseInvertsDecimal(n: nat)
    ensures ParseDecimal(Decimal(n)) == Some(n)
  {
    if n >= 10 {
      ParseInvertsDecimal(n / 10);
      assert Decimal(n)[..|Decimal(n)| - 1] == Decimal(n / 10);
    }
  }

  lemma {:induction false} DecimalIsDigits(n: nat)
    ensures forall c | c in Decimal(n) :: IsDigit(c)
  {
    if n >= 10 { DecimalIsDigits(n / 10); }
  }

  lemma {:induction false} ParsedIsDigits(s: string)
    requires ParseDecimal(s).Some?
    ensures s != "" && forall c | c in s :: IsDigit(c)
  {
    if |s| > 1 {
      ParsedIsDigits(s[..|s| - 1]);
      assert s == s[..|s| - 1] + [s[|s| - 1]];
    }
  }
}
