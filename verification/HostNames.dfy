/** Canonical host names: validation and normalisation of one bare DNS name or IP address. */
module HostNames {
  import opened Common
  import opened Text

  datatype HostError =
    | UnsafeText
    | MalformedBrackets
    | EmptyHost
    | NotABareHost
    | MalformedAddress
    | NotConvertible
    | NameTooLong
    | EmptyLabel
    | BadLabel

  // Canonicalises the part of an IPv6 address that precedes its scope: None when
  // the text is not an address. Its algorithm is outside the model.
  type AddressParser = string -> Option<string>

  predicate IsAddressText(s: string) {
    forall i :: 0 <= i < |s| ==> IsDigit(s[i]) || 'a' <= s[i] <= 'f' || s[i] == ':' || s[i] == '.'
  }

  // Text the library accepts uses only the characters of an address; what it
  // prints is lower-case text with a colon, and is printed unchanged again.
  ghost predicate PrintsCanonically(ip6: AddressParser, text: string) {
    ip6(text).Some? ==>
      var address := ip6(text).value;
      && IsAddressText(Lower(text))
      && IsAddressText(address)
      && ':' in address
      && ip6(address) == Some(address)
  }

  // What is assumed of the address library.
  ghost predicate CanonicalParser(ip6: AddressParser) {
    forall text :: PrintsCanonically(ip6, text)
  }

  predicate IsOctet(p: string) {
    && 1 <= |p| <= 3
    && AllDigits(p)
    && (|p| > 1 ==> p[0] != '0')
    && Decimal(p) <= 255
  }

  // Dotted-decimal text without leading zeros prints as itself.
  function CanonicalIPv4(s: string): Option<string> {
    var parts := Split(s, '.');
    if |parts| == 4 && forall p :: p in parts ==> IsOctet(p) then Some(s) else None
  }

  function CanonicalIPv6(ip6: AddressParser, s: string): Option<string> {
    var cut := IndexOf(s, '%');
    if cut == |s| then
      ip6(s)
    else
      var scope := s[cut + 1..];
      if scope == "" || '%' in scope then
        None
      else
        match ip6(s[..cut])
        case None => None
        case Some(address) => Some(address + "%" + scope)
  }

  function CanonicalAddress(ip6: AddressParser, s: string): Option<string> {
    match if ':' in s then CanonicalIPv6(ip6, s) else CanonicalIPv4(s)
    case None => None
    case Some(compressed) => Some(Lower(compressed))
  }

  predicate LooksLikeAddress(s: string) {
    || ':' in s
    || ('.' in s && forall i :: 0 <= i < |s| ==> IsDigit(s[i]) || s[i] == '.')
  }

  // No scheme, credentials, path, query or fragment syntax. A scheme separator
  // contains a slash, so looking for the five characters finds it too.
  predicate IsBare(s: string) {
    '@' !in s && '/' !in s && '?' !in s && '#' !in s && '\\' !in s
  }

  const MAX_LABEL: nat := 63

  const MAX_NAME: nat := 253

  predicate IsLabel(p: string) {
    && 1 <= |p| <= MAX_LABEL
    && (forall i :: 0 <= i < |p| ==> IsAlphanumeric(p[i]) || p[i] == '-')
    && IsAlphanumeric(p[0]) && IsAlphanumeric(p[|p| - 1])
  }

  // The ASCII path of the IDNA codec: the text itself, unless a label is too
  // long or a label other than the last one is empty.
  predicate Convertible(labels: seq<string>)
    requires |labels| >= 1
  {
    && (forall i :: 0 <= i < |labels| ==> |labels[i]| <= MAX_LABEL)
    && (forall i :: 0 <= i < |labels| - 1 ==> |labels[i]| > 0)
  }

  function NormalizeName(s: string): Result<string, HostError> {
    if !Convertible(Split(s, '.')) then
      Err(NotConvertible)
    else
      var name := Lower(s);
      var labels := Split(name, '.');
      if |name| > MAX_NAME then
        Err(NameTooLong)
      else if "" in labels then
        Err(EmptyLabel)
      else if exists p :: p in labels && !IsLabel(p) then
        Err(BadLabel)
      else
        Ok(name)
  }

  predicate Bracketed(s: string) {
    |s| >= 1 && (s[0] == '[' || s[|s| - 1] == ']')
  }

  function NormalizeCandidate(ip6: AddressParser, candidate: string): Result<string, HostError> {
    if candidate == "" then
      Err(EmptyHost)
    else if !IsBare(candidate) then
      Err(NotABareHost)
    else if LooksLikeAddress(candidate) then
      match CanonicalAddress(ip6, candidate)
      case Some(address) => Ok(address)
      case None => Err(MalformedAddress)
    else
      NormalizeName(candidate)
  }

  function NormalizeHostname(ip6: AddressParser, value: string): Result<string, HostError> {
    if value == "" || !Visible(value) then
      Err(UnsafeText)
    else if Bracketed(value) then
      if value[0] == '[' && value[|value| - 1] == ']' then
        NormalizeCandidate(ip6, value[1..|value| - 1])
      else
        Err(MalformedBrackets)
    else
      NormalizeCandidate(ip6, value)
  }

  // A canonical host as it stands in a URL.
  function UrlHost(host: string): string {
    if ':' in host then "[" + host + "]" else host
  }

  // A bracketed text whose inner text itself ends in a closing bracket. It can
  // only be accepted as an address whose scope ends in that bracket.
  predicate ClosesTwice(value: string) {
    |value| >= 2 && value[|value| - 1] == ']' && value[|value| - 2] == ']'
  }

  // ---- DNS names ----

  lemma NameSyntax(name: string)
    requires forall p :: p in Split(name, '.') ==> IsLabel(p)
    ensures forall i :: 0 <= i < |name| ==> IsAlphanumeric(name[i]) || name[i] == '-' || name[i] == '.'
  {
    forall i | 0 <= i < |name|
      ensures IsAlphanumeric(name[i]) || name[i] == '-' || name[i] == '.'
    {
      if name[i] != '.' {
        SplitCovers(name, '.', i);
        var p: string :| p in Split(name, '.') && name[i] in p;
      }
    }
  }

  // An accepted name obeys the size and alphabet bounds of section 2.3.4 of
  // RFC 1035, differs from the input only in letter case, and is a fixed point.
  lemma NameIsCanonical(s: string)
    requires NormalizeName(s).Ok?
    ensures NormalizeName(s).value == Lower(s)
    ensures |s| <= MAX_NAME && forall p :: p in Split(Lower(s), '.') ==> IsLabel(p)
    ensures NormalizeName(Lower(s)) == NormalizeName(s)
  {
    var labels := Split(Lower(s), '.');
    assert forall i :: 0 <= i < |labels| ==> labels[i] in labels;
    LowerIdempotent(s);
  }

  lemma {:induction false} NormalizeNameResult(s: string, h: string)
    requires s != "" && !LooksLikeAddress(s) && NormalizeName(s) == Ok(h)
    ensures Visible(h) && !Bracketed(h) && h != "" && IsBare(h) && !LooksLikeAddress(h)
    ensures NormalizeName(h) == Ok(h)
  {
    NameIsCanonical(s);
    NameSyntax(h);
    assert forall i :: 0 <= i < |s| ==> h[i] == LowerChar(s[i]);
  }

  // ---- addresses ----

  lemma AddressTextIsLower(s: string)
    requires IsAddressText(s)
    ensures Lower(s) == s && '%' !in s && ']' !in s && '[' !in s && Visible(s) && IsBare(s)
  {
    LowerFixed(s);
  }

  // Canonical IPv4 text is the accepted text itself.
  lemma IPv4Result(ip6: AddressParser, s: string, h: string)
    requires ':' !in s && LooksLikeAddress(s) && CanonicalAddress(ip6, s) == Some(h)
    ensures h == s && s != "" && Visible(s) && !Bracketed(s) && IsBare(s)
  {
    LowerFixed(s);
  }

  lemma PlainIPv6Result(ip6: AddressParser, s: string, h: string)
    requires CanonicalParser(ip6)
    requires ':' in s && '%' !in s && CanonicalAddress(ip6, s) == Some(h)
    ensures h != "" && ':' in h && Visible(h) && IsBare(h) && h[0] != '[' && h[|h| - 1] != ']'
    ensures CanonicalAddress(ip6, h) == Some(h) && s[|s| - 1] != ']'
  {
    IndexOfUnique(s, '%', |s|);
    assert PrintsCanonically(ip6, s);
    AddressTextIsLower(ip6(s).value);
    AddressTextIsLower(Lower(s));
    IndexOfUnique(h, '%', |h|);
    assert Lower(s)[|s| - 1] != ']';
  }

  lemma ScopedAddress(ip6: AddressParser, address: string, scope: string)
    requires ip6(address) == Some(address) && IsAddressText(address) && ':' in address
    requires scope != "" && '%' !in scope && Lower(scope) == scope
    ensures CanonicalAddress(ip6, address + "%" + scope) == Some(address + "%" + scope)
  {
    AddressTextIsLower(address);
    var h := address + "%" + scope;
    IndexOfUnique(h, '%', |address|);
    assert h[..|address|] == address && h[|address| + 1..] == scope;
    LowerFixed(h);
    var colon :| 0 <= colon < |address| && address[colon] == ':';
    assert h[colon] == ':';
  }

  lemma LowerOfScoped(address: string, scope: string)
    requires IsAddressText(address)
    ensures Lower(address + "%" + scope) == address + "%" + Lower(scope)
  {
    AddressTextIsLower(address);
    assert forall i :: 0 <= i < |address| ==> LowerChar(address[i]) == Lower(address)[i];
  }

  lemma LowerSyntax(s: string)
    requires Visible(s) && IsBare(s)
    ensures Visible(Lower(s)) && IsBare(Lower(s))
  {
  }

  lemma ConcatSyntax(a: string, b: string)
    requires Visible(a) && IsBare(a) && Visible(b) && IsBare(b)
    ensures Visible(a + b) && IsBare(a + b)
    ensures ':' in a ==> ':' in a + b
  {
  }

  lemma ScopedSyntax(address: string, scope: string)
    requires IsAddressText(address) && ':' in address
    requires scope != "" && Visible(scope) && IsBare(scope)
    ensures var h := address + "%" + Lower(scope);
            && ':' in h && Visible(h) && IsBare(h) && h[0] != '['
            && (h[|h| - 1] == ']' <==> scope[|scope| - 1] == ']')
  {
    AddressTextIsLower(address);
    var tail := Lower(scope);
    LowerSyntax(scope);
    ConcatSyntax(address, "%");
    ConcatSyntax(address + "%", tail);
    var h := address + "%" + tail;
    assert h[0] == address[0] && h[|h| - 1] == tail[|tail| - 1];
  }

  lemma ScopedIPv6Result(ip6: AddressParser, s: string, h: string)
    requires CanonicalParser(ip6)
    requires Visible(s) && IsBare(s) && ':' in s && '%' in s && CanonicalAddress(ip6, s) == Some(h)
    ensures h != "" && ':' in h && Visible(h) && IsBare(h) && h[0] != '['
    ensures CanonicalAddress(ip6, h) == Some(h)
    ensures h[|h| - 1] == ']' <==> s[|s| - 1] == ']'
  {
    var cut := IndexOf(s, '%');
    var scope := s[cut + 1..];
    assert PrintsCanonically(ip6, s[..cut]);
    var address := ip6(s[..cut]).value;
    AddressTextIsLower(address);
    LowerOfScoped(address, scope);
    LowerIdempotent(scope);
    assert '%' !in Lower(scope);
    assert forall i :: 0 <= i < |scope| ==> scope[i] == s[cut + 1 + i];
    ScopedAddress(ip6, address, Lower(scope));
    ScopedSyntax(address, scope);
  }

  lemma CandidateResult(ip6: AddressParser, s: string, h: string)
    requires CanonicalParser(ip6)
    requires Visible(s) && NormalizeCandidate(ip6, s) == Ok(h)
    ensures h != "" && Visible(h) && h[0] != '['
    ensures NormalizeCandidate(ip6, h) == Ok(h)
    ensures h[|h| - 1] == ']' <==> s[|s| - 1] == ']'
  {
    if !LooksLikeAddress(s) {
      NormalizeNameResult(s, h);
      assert h == Lower(s) by { NameIsCanonical(s); }
    } else if ':' in s {
      if '%' in s {
        ScopedIPv6Result(ip6, s, h);
      } else {
        PlainIPv6Result(ip6, s, h);
      }
    } else {
      IPv4Result(ip6, s, h);
    }
  }

  // Normalising a canonical host changes nothing - except that the code strips
  // brackets from a text such as "[fe80::1%]]" and then rejects its own result.
  // The exception is decided by the last two characters of the input.
  lemma NormalizeHostnameIdempotent(ip6: AddressParser, value: string)
    requires CanonicalParser(ip6)
    requires NormalizeHostname(ip6, value).Ok?
    ensures var h := NormalizeHostname(ip6, value).value;
            NormalizeHostname(ip6, h) == Ok(h) <==> !(value[0] == '[' && ClosesTwice(value))
    ensures var h := NormalizeHostname(ip6, value).value;
            NormalizeHostname(ip6, h).Err? ==> NormalizeHostname(ip6, h) == Err(MalformedBrackets)
  {
    var h := NormalizeHostname(ip6, value).value;
    var candidate := if Bracketed(value) then value[1..|value| - 1] else value;
    assert Visible(candidate);
    CandidateResult(ip6, candidate, h);
  }

  lemma ConcatVisible(a: string, b: string)
    requires Visible(a) && Visible(b)
    ensures Visible(a + b)
  {
  }

  lemma RejectedWhenUnwrapped(ip6: AddressParser, h: string)
    requires ':' in h && Visible(h) && IsBare(h) && h[0] != '[' && h[|h| - 1] == ']'
    requires CanonicalAddress(ip6, h) == Some(h)
    ensures NormalizeHostname(ip6, "[" + h + "]") == Ok(h) && NormalizeHostname(ip6, h) == Err(MalformedBrackets)
  {
    var value := "[" + h + "]";
    assert value[1..|value| - 1] == h;
    ConcatVisible("[", h);
    ConcatVisible("[" + h, "]");
  }

  // The exception is real: every canonical IPv6 address with a scope that ends
  // in a closing bracket yields one. For the address fe80::1 and the scope "]",
  // "[fe80::1%]]" is accepted as "fe80::1%]", which is then rejected.
  lemma NormalizeHostnameNotIdempotent(ip6: AddressParser, address: string, scope: string)
    requires CanonicalParser(ip6) && ip6(address) == Some(address)
    requires Visible(scope) && IsBare(scope) && '%' !in scope && Lower(scope) == scope
    requires scope != "" && scope[|scope| - 1] == ']'
    ensures var h := address + "%" + scope;
            NormalizeHostname(ip6, "[" + h + "]") == Ok(h) && NormalizeHostname(ip6, h) == Err(MalformedBrackets)
  {
    var h := address + "%" + scope;
    assert IsAddressText(address) && ':' in address by {
      assert PrintsCanonically(ip6, address);
    }
    assert CanonicalAddress(ip6, h) == Some(h) by {
      ScopedAddress(ip6, address, scope);
    }
    ScopedSyntax(address, scope);
    RejectedWhenUnwrapped(ip6, h);
  }
}
