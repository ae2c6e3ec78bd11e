/**
 Exactly which texts are accepted as hosts, told without the code that decides it:
 dotted quads, DNS names character by character, and IPv6 addresses with or
 without a scope and brackets.
 */
module HostSpelling {
  import opened Common
  import opened Text
  import opened HostNames

  // ---- DNS names ----

  predicate LetterOrDigit(c: char) {
    '0' <= c <= '9' || 'a' <= c <= 'z'
  }

  predicate EndsWell(s: string)
    requires s != ""
  {
    && (forall i :: 0 <= i < |s| ==> LetterOrDigit(s[i]) || s[i] == '-' || s[i] == '.')
    && LetterOrDigit(s[0]) && LetterOrDigit(s[|s| - 1])
  }

  predicate DotsWell(s: string) {
    && (forall i :: 0 <= i < |s| - 1 && s[i] == '.' ==> LetterOrDigit(s[i + 1]))
    && (forall i :: 0 < i < |s| && s[i] == '.' ==> LetterOrDigit(s[i - 1]))
  }

  // A dot among the 64 characters from position i on.
  predicate DotWithin(s: string, i: nat) {
    exists k :: i <= k < |s| && k < i + 64 && s[k] == '.'
  }

  predicate DotsOften(s: string) {
    forall i: nat :: i + 64 <= |s| ==> DotWithin(s, i)
  }

  // A lower-case name of at most 253 characters: letters, digits, hyphens and dots; a
  // letter or digit at both ends and on both sides of each dot; a dot among any 64
  // characters in a row.
  ghost predicate IsHostName(s: string) {
    s != "" && |s| <= 253 && EndsWell(s) && DotsWell(s) && DotsOften(s)
  }

  predicate AllLabels(s: string) {
    forall p :: p in Split(s, '.') ==> IsLabel(p)
  }

  lemma ConcatMembers(head: string, rest: seq<string>)
    ensures (forall p :: p in [head] + rest ==> IsLabel(p)) <==> IsLabel(head) && forall p :: p in rest ==> IsLabel(p)
  {
    var all := [head] + rest;
    assert all[0] == head && all[1..] == rest;
    if forall p :: p in all ==> IsLabel(p) {
      assert head in all;
    }
  }

  lemma SplitFirst(s: string, cut: nat)
    requires cut == IndexOf(s, '.') < |s|
    ensures AllLabels(s) <==> IsLabel(s[..cut]) && AllLabels(s[cut + 1..])
  {
    var head, rest := s[..cut], Split(s[cut + 1..], '.');
    assert Split(s, '.') == [head] + rest;
    ConcatMembers(head, rest);
  }

  lemma LongNeedsDot(s: string)
    requires DotsOften(s) && |s| >= 64
    ensures exists k :: 0 <= k < 64 && s[k] == '.'
  {
    assert DotWithin(s, 0);
  }

  lemma OneLabel(s: string)
    requires '.' !in s
    ensures IsLabel(s) <==> s != "" && EndsWell(s) && DotsWell(s) && DotsOften(s)
  {
    if s != "" && DotsOften(s) && |s| >= 64 {
      LongNeedsDot(s);
    }
  }

  lemma FirstLabel(s: string, cut: nat)
    requires cut < |s| && s[cut] == '.' && '.' !in s[..cut]
    requires EndsWell(s) && DotsWell(s) && DotsOften(s)
    ensures IsLabel(s[..cut])
  {
    assert forall k :: 0 <= k < cut ==> s[..cut][k] == s[k] && s[k] != '.';
    if cut >= 64 {
      LongNeedsDot(s);
    }
    assert cut > 0 && LetterOrDigit(s[cut - 1]);
  }

  lemma LaterWindows(s: string, cut: nat)
    requires cut < |s| && DotsOften(s)
    ensures DotsOften(s[cut + 1..])
  {
    var rest := s[cut + 1..];
    forall i: nat | i + 64 <= |rest|
      ensures DotWithin(rest, i)
    {
      assert DotWithin(s, cut + 1 + i);
      var k :| cut + 1 + i <= k < |s| && k < cut + 1 + i + 64 && s[k] == '.';
      assert rest[k - cut - 1] == '.';
    }
  }

  lemma LaterLabels(s: string, cut: nat)
    requires cut < |s| && s[cut] == '.'
    requires EndsWell(s) && DotsWell(s)
    ensures var rest := s[cut + 1..]; rest != "" && EndsWell(rest) && DotsWell(rest)
  {
    var rest := s[cut + 1..];
    assert s[|s| - 1] != '.';
    assert forall i :: 0 <= i < |rest| ==> rest[i] == s[cut + 1 + i];
  }

  lemma JoinedDots(s: string, cut: nat)
    requires cut == IndexOf(s, '.') < |s| && IsLabel(s[..cut])
    requires var rest := s[cut + 1..]; rest != "" && EndsWell(rest) && DotsWell(rest)
    ensures EndsWell(s) && DotsWell(s)
  {
    var rest := s[cut + 1..];
    assert forall i :: 0 <= i < cut ==> s[..cut][i] == s[i];
    assert forall i :: 0 <= i < |rest| ==> rest[i] == s[cut + 1 + i];
    assert forall i :: cut < i < |s| ==> s[i] == rest[i - cut - 1];
    assert s[cut - 1] == s[..cut][cut - 1] && s[cut + 1] == rest[0];
    forall i | 0 <= i < |s| - 1 && s[i] == '.'
      ensures LetterOrDigit(s[i + 1])
    {
      if i > cut {
        assert rest[i - cut - 1] == '.' && s[i + 1] == rest[i - cut];
      }
    }
    forall i | 0 < i < |s| && s[i] == '.'
      ensures LetterOrDigit(s[i - 1])
    {
      if i > cut {
        assert rest[i - cut - 1] == '.';
        assert i > cut + 1;
        assert s[i - 1] == rest[i - cut - 2];
      }
    }
  }

  lemma JoinedWindows(s: string, cut: nat)
    requires cut < |s| && s[cut] == '.' && cut <= 63 && DotsOften(s[cut + 1..])
    ensures DotsOften(s)
  {
    var rest := s[cut + 1..];
    forall i: nat | i + 64 <= |s|
      ensures DotWithin(s, i)
    {
      if i > cut {
        assert DotWithin(rest, i - cut - 1);
        var k :| i - cut - 1 <= k < |rest| && k < i - cut - 1 + 64 && rest[k] == '.';
        assert s[k + cut + 1] == '.';
      }
    }
  }

  // The labels between the dots are well formed exactly when the name is, character
  // by character.
  lemma {:induction false} LabelsExactly(s: string)
    ensures AllLabels(s) <==> s != "" && EndsWell(s) && DotsWell(s) && DotsOften(s)
    decreases |s|
  {
    var cut := IndexOf(s, '.');
    if cut == |s| {
      OneLabel(s);
      assert Split(s, '.') == [s];
      assert s in Split(s, '.');
    } else {
      SplitFirst(s, cut);
      LabelsExactly(s[cut + 1..]);
      if s != "" && EndsWell(s) && DotsWell(s) && DotsOften(s) {
        FirstLabel(s, cut);
        LaterLabels(s, cut);
        LaterWindows(s, cut);
      }
      if AllLabels(s) {
        JoinedDots(s, cut);
        JoinedWindows(s, cut);
      }
    }
  }

  lemma LowerIndex(s: string)
    ensures IndexOf(Lower(s), '.') == IndexOf(s, '.')
  {
    IndexOfUnique(Lower(s), '.', IndexOf(s, '.'));
  }

  lemma {:induction false} SplitLower(s: string)
    ensures |Split(Lower(s), '.')| == |Split(s, '.')|
    ensures forall i :: 0 <= i < |Split(s, '.')| ==> |Split(Lower(s), '.')[i]| == |Split(s, '.')[i]|
    decreases |s|
  {
    LowerIndex(s);
    var cut := IndexOf(s, '.');
    if cut < |s| {
      assert Lower(s)[cut + 1..] == Lower(s[cut + 1..]);
      SplitLower(s[cut + 1..]);
    }
  }

  // A name is accepted exactly when its lower-case form is a host name.
  lemma NameAcceptedExactly(s: string)
    ensures NormalizeName(s).Ok? <==> IsHostName(Lower(s))
  {
    var lower := Split(Lower(s), '.');
    LabelsExactly(Lower(s));
    SplitLower(s);
    if AllLabels(Lower(s)) {
      assert forall i :: 0 <= i < |lower| ==> lower[i] in lower;
    }
    assert "" in lower ==> !IsLabel("");
  }

  // ---- dotted quads ----

  // The parts with a dot between each two.
  function Dotted(parts: seq<string>): string
    requires |parts| >= 1
  {
    if |parts| == 1 then parts[0] else parts[0] + "." + Dotted(parts[1..])
  }

  lemma SplitJoined(head: string, rest: string)
    requires '.' !in head
    ensures Split(head + "." + rest, '.') == [head] + Split(rest, '.')
  {
    var s := head + "." + rest;
    IndexOfUnique(s, '.', |head|);
    assert s[..|head|] == head && s[|head| + 1..] == rest;
  }

  lemma {:induction false} SplitDotted(parts: seq<string>)
    requires |parts| >= 1 && forall p :: p in parts ==> '.' !in p
    ensures Split(Dotted(parts), '.') == parts
    decreases |parts|
  {
    var head := parts[0];
    assert head in parts;
    if |parts| == 1 {
      IndexOfUnique(head, '.', |head|);
      assert parts == [head];
    } else {
      var rest := Dotted(parts[1..]);
      SplitDotted(parts[1..]);
      SplitJoined(head, rest);
    }
  }

  lemma {:induction false} DottedSplit(s: string)
    ensures Dotted(Split(s, '.')) == s
    decreases |s|
  {
    var cut := IndexOf(s, '.');
    if cut < |s| {
      var parts := Split(s, '.');
      DottedSplit(s[cut + 1..]);
      assert parts[1..] == Split(s[cut + 1..], '.');
      assert s == s[..cut] + "." + s[cut + 1..];
    }
  }

  ghost predicate IsByteText(p: string) {
    exists n: nat :: n <= 255 && p == Digits(n)
  }

  ghost predicate IsDottedQuad(s: string) {
    exists parts: seq<string> ::
      |parts| == 4 && (forall p :: p in parts ==> IsByteText(p)) && s == Dotted(parts)
  }

  lemma {:induction false} DecimalPositive(p: string)
    requires p != "" && AllDigits(p) && p[0] != '0'
    ensures Decimal(p) >= 1
    decreases |p|
  {
    if |p| == 1 {
      assert p[..0] == "";
    } else {
      DecimalPositive(p[..|p| - 1]);
    }
  }

  // Digits without leading zeros are the digits of the number they denote.
  lemma {:induction false} DigitsOfDecimal(p: string)
    requires p != "" && AllDigits(p) && (|p| > 1 ==> p[0] != '0')
    ensures Digits(Decimal(p)) == p
    decreases |p|
  {
    var front, last := p[..|p| - 1], p[|p| - 1];
    if |p| == 1 {
      assert front == "" && p == [last];
    } else {
      DigitsOfDecimal(front);
      DecimalPositive(front);
      assert p == front + [last];
    }
  }

  lemma OctetExactly(p: string)
    ensures IsOctet(p) <==> IsByteText(p)
  {
    if IsOctet(p) {
      DigitsOfDecimal(p);
    }
    forall n: nat | n <= 255 && p == Digits(n)
      ensures IsOctet(p)
    {
      DecimalOfDigits(n);
      assert Power10(2) == 100 && Power10(3) == 1000;
      FewDigits(n, Power10(3), 3);
    }
  }

  lemma NoDotInDigits(n: nat)
    ensures '.' !in Digits(n)
  {
  }

  lemma QuadSplit(s: string)
    requires IsDottedQuad(s)
    ensures |Split(s, '.')| == 4 && forall p :: p in Split(s, '.') ==> IsOctet(p)
  {
    var parts: seq<string> :|
      |parts| == 4 && (forall p :: p in parts ==> IsByteText(p)) && s == Dotted(parts);
    forall p | p in parts
      ensures '.' !in p && IsOctet(p)
    {
      OctetExactly(p);
    }
    SplitDotted(parts);
  }

  // IPv4 text is accepted exactly when it is four numbers up to 255 without leading
  // zeros, and is then its own canonical form.
  lemma IPv4Exactly(s: string)
    ensures CanonicalIPv4(s).Some? <==> IsDottedQuad(s)
    ensures CanonicalIPv4(s).Some? ==> CanonicalIPv4(s) == Some(s)
  {
    DottedSplit(s);
    if CanonicalIPv4(s).Some? {
      forall p | p in Split(s, '.')
        ensures IsByteText(p)
      {
        OctetExactly(p);
      }
    }
    if IsDottedQuad(s) {
      QuadSplit(s);
    }
  }

  // ---- hosts ----

  predicate IsAcceptedCharacter(c: char) {
    '!' <= c <= '~' && c != '@' && c != '/' && c != '?' && c != '#' && c != '\\'
  }

  predicate DigitsAndDots(s: string) {
    '.' in s && forall i :: 0 <= i < |s| ==> '0' <= s[i] <= '9' || s[i] == '.'
  }

  lemma {:induction false} DottedCharacters(parts: seq<string>)
    requires |parts| >= 1 && forall p :: p in parts ==> p != "" && AllDigits(p)
    ensures var s := Dotted(parts); s != "" && IsDigit(s[0]) && IsDigit(s[|s| - 1])
    ensures var s := Dotted(parts); forall i :: 0 <= i < |s| ==> '0' <= s[i] <= '9' || s[i] == '.'
    decreases |parts|
  {
    assert parts[0] in parts;
    if |parts| > 1 {
      assert forall p :: p in parts[1..] ==> p in parts;
      DottedCharacters(parts[1..]);
    }
  }

  lemma DigitsAndDotsAreSafe(s: string)
    requires s != "" && IsDigit(s[0]) && IsDigit(s[|s| - 1])
    requires forall i :: 0 <= i < |s| ==> '0' <= s[i] <= '9' || s[i] == '.'
    ensures Visible(s) && IsBare(s) && ':' !in s && !Bracketed(s)
  {
  }

  lemma QuadCharacters(s: string)
    requires IsDottedQuad(s)
    ensures s != "" && Visible(s) && IsBare(s) && ':' !in s && DigitsAndDots(s) && !Bracketed(s)
  {
    var parts := Split(s, '.');
    QuadSplit(s);
    DottedSplit(s);
    DottedCharacters(parts);
    DigitsAndDotsAreSafe(s);
    assert IndexOf(s, '.') < |s|;
  }

  lemma NameCharacters(s: string)
    requires IsHostName(Lower(s))
    ensures s != "" && Visible(s) && IsBare(s) && ':' !in s && !Bracketed(s)
  {
    assert forall i :: 0 <= i < |s| ==> Lower(s)[i] == LowerChar(s[i]);
  }

  // The part before a scope is an IPv6 address; a scope is not empty and has no per
  // cent sign. Address and scope are put in lower case.
  ghost predicate IsAddress(ip6: AddressParser, s: string, h: string) {
    var cut := IndexOf(s, '%');
    && ip6(s[..cut]).Some?
    && (cut < |s| ==> cut + 1 < |s| && '%' !in s[cut + 1..])
    && h == Lower(ip6(s[..cut]).value + s[cut..])
  }

  // s names a host whose canonical text is h: without a colon it is a dotted quad, or
  // a host name in any letter case that does not consist of digits and dots; with one
  // it is an IPv6 address without any of the excluded characters.
  ghost predicate NamesHost(ip6: AddressParser, s: string, h: string) {
    if ':' in s then
      (forall i :: 0 <= i < |s| ==> IsAcceptedCharacter(s[i])) && IsAddress(ip6, s, h)
    else
      || (IsDottedQuad(s) && h == s)
      || (IsHostName(Lower(s)) && !DigitsAndDots(s) && h == Lower(s))
  }

  lemma AcceptedCharacters(s: string)
    ensures (forall i :: 0 <= i < |s| ==> IsAcceptedCharacter(s[i])) <==> Visible(s) && IsBare(s)
  {
  }

  lemma WithoutScope(address: Option<string>, s: string)
    ensures address.Some? ==> address.value + s[|s|..] == address.value
  {
  }

  lemma ScopeText(address: string, s: string, cut: nat)
    requires cut < |s| && s[cut] == '%'
    ensures address + "%" + s[cut + 1..] == address + s[cut..]
  {
    assert s[cut..] == ['%'] + s[cut + 1..];
  }

  lemma ColonResult(ip6: AddressParser, s: string, h: string)
    requires ':' in s
    ensures CanonicalAddress(ip6, s) == Some(h) <==> IsAddress(ip6, s, h)
  {
    var cut := IndexOf(s, '%');
    if cut == |s| {
      assert s[..cut] == s;
      WithoutScope(ip6(s), s);
    } else if ip6(s[..cut]).Some? {
      ScopeText(ip6(s[..cut]).value, s, cut);
    }
  }

  lemma QuadResult(ip6: AddressParser, s: string, h: string)
    requires ':' !in s && DigitsAndDots(s)
    ensures CanonicalAddress(ip6, s) == Some(h) <==> IsDottedQuad(s) && h == s
  {
    IPv4Exactly(s);
    LowerFixed(s);
  }

  lemma NameResult(s: string, h: string)
    ensures NormalizeName(s) == Ok(h) <==> IsHostName(Lower(s)) && h == Lower(s)
  {
    NameAcceptedExactly(s);
    if NormalizeName(s).Ok? {
      NameIsCanonical(s);
    }
  }

  lemma CandidateExactly(ip6: AddressParser, s: string, h: string)
    ensures NamesHost(ip6, s, h) <==> Visible(s) && NormalizeCandidate(ip6, s) == Ok(h)
  {
    if ':' in s {
      AcceptedCharacters(s);
      ColonResult(ip6, s, h);
    } else if DigitsAndDots(s) {
      QuadResult(ip6, s, h);
      if IsDottedQuad(s) {
        QuadCharacters(s);
      }
    } else {
      NameResult(s, h);
      if IsHostName(Lower(s)) {
        NameCharacters(s);
      }
      if IsDottedQuad(s) {
        QuadCharacters(s);
      }
    }
  }

  lemma InnerVisible(value: string)
    requires |value| >= 2 && value[0] == '[' && value[|value| - 1] == ']'
    ensures Visible(value) <==> Visible(value[1..|value| - 1])
  {
    var inner := value[1..|value| - 1];
    assert forall i :: 0 < i < |value| - 1 ==> value[i] == inner[i - 1];
    assert forall i :: 0 <= i < |inner| ==> inner[i] == value[i + 1];
  }

  // Text is accepted exactly when it names a host, or is that in square brackets. An
  // opening bracket in front or a closing one at the end alone is refused.
  lemma HostAcceptedExactly(ip6: AddressParser, value: string, h: string)
    ensures NormalizeHostname(ip6, value) == Ok(h) <==>
            && value != ""
            && if value[0] == '[' || value[|value| - 1] == ']' then
                 value[0] == '[' && value[|value| - 1] == ']' && |value| >= 2
                 && NamesHost(ip6, value[1..|value| - 1], h)
               else
                 NamesHost(ip6, value, h)
  {
    if value != "" && value[0] == '[' && value[|value| - 1] == ']' {
      var inner := value[1..|value| - 1];
      CandidateExactly(ip6, inner, h);
      InnerVisible(value);
    } else {
      CandidateExactly(ip6, value, h);
    }
  }
}
