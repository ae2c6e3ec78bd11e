/**
 Web origins: a parser from text to (scheme, host, port), the serialization that
 prints one back, and the list of origins an endpoint allows.
 */
module Origins {
  import opened Common
  import opened Text
  import opened HostNames

  datatype OriginError =
    | UnsafeOrigin
    | NullOrWildcard
    | InvalidAuthority
    | BadScheme
    | NoHostOrCredentials
    | NotABareOrigin
    | BadHost(error: HostError)
    | BadPort

  // The port is the one connections use, whether or not the text names it.
  datatype Origin = Origin(scheme: string, host: string, port: nat)

  // ---- splitting the text of a URL ----

  // The text before and after the first occurrence of c; all and nothing if there is none.
  function UpTo(s: string, c: char): string {
    s[..IndexOf(s, c)]
  }

  function After(s: string, c: char): string {
    var i := IndexOf(s, c);
    if i == |s| then "" else s[i + 1..]
  }

  function AfterLast(s: string, c: char): string {
    var i := IndexOf(s, c);
    if i == |s| then s else AfterLast(s[i + 1..], c)
  }

  predicate IsLetter(c: char) {
    'a' <= LowerChar(c) <= 'z'
  }

  predicate IsHexDigit(c: char) {
    IsDigit(c) || 'a' <= LowerChar(c) <= 'f'
  }

  predicate IsSchemeText(s: string) {
    && s != "" && IsLetter(s[0])
    && forall i :: 0 <= i < |s| ==> IsLetter(s[i]) || IsDigit(s[i]) || s[i] == '+' || s[i] == '-' || s[i] == '.'
  }

  // Where the authority ends: at the first slash, question mark or hash.
  function AuthorityEnd(s: string): (n: nat)
    ensures n <= |s|
  {
    Min(IndexOf(s, '/'), Min(IndexOf(s, '?'), IndexOf(s, '#')))
  }

  datatype UrlParts = UrlParts(scheme: string, netloc: string, path: string, query: string, fragment: string)

  function SplitUrl(s: string): UrlParts {
    var schemed := ':' in s && IsSchemeText(UpTo(s, ':'));
    var scheme := if schemed then Lower(UpTo(s, ':')) else "";
    var rest := if schemed then After(s, ':') else s;
    var authority := |rest| >= 2 && rest[0] == '/' && rest[1] == '/';
    var end := if authority then 2 + AuthorityEnd(rest[2..]) else 0;
    var netloc := if authority then rest[2..end] else "";
    var beforeFragment := UpTo(rest[end..], '#');
    UrlParts(scheme, netloc, UpTo(beforeFragment, '?'), After(beforeFragment, '?'), After(rest[end..], '#'))
  }

  function HostInfo(netloc: string): string {
    AfterLast(netloc, '@')
  }

  function HostText(info: string): string {
    if '[' in info then UpTo(After(info, '['), ']') else UpTo(info, ':')
  }

  function PortText(info: string): string {
    if '[' in info then After(After(After(info, '['), ']'), ':') else After(info, ':')
  }

  predicate IsFutureAddress(s: string) {
    var dot := IndexOf(s, '.');
    && 2 <= dot < |s| - 1
    && s[0] == 'v' && forall i :: 1 <= i < dot ==> IsHexDigit(s[i])
  }

  // A v, hexadecimal digits, a dot, and something after it.
  lemma FutureAddressExactly(s: string)
    ensures IsFutureAddress(s) <==>
            exists dot: nat ::
              && 2 <= dot < |s| - 1 && s[0] == 'v' && s[dot] == '.'
              && forall i :: 1 <= i < dot ==> s[i] in "0123456789abcdefABCDEF"
  {
    if IsFutureAddress(s) {
      var dot := IndexOf(s, '.');
      assert forall i :: 1 <= i < dot ==> s[i] in "0123456789abcdefABCDEF";
    }
    forall dot: nat | 2 <= dot < |s| - 1 && s[0] == 'v' && s[dot] == '.'
                      && forall i :: 1 <= i < dot ==> s[i] in "0123456789abcdefABCDEF"
      ensures IsFutureAddress(s)
    {
      assert forall i :: 1 <= i < dot ==> s[i] != '.';
      IndexOfUnique(s, '.', dot);
    }
  }

  predicate BracketedHost(ip6: AddressParser, host: string) {
    if host != "" && host[0] == 'v' then IsFutureAddress(host) else CanonicalIPv6(ip6, host).Some?
  }

  // The URL library's check of an authority that contains square brackets.
  predicate BracketsMatch(ip6: AddressParser, netloc: string) {
    && ('[' in netloc <==> ']' in netloc)
    && ('[' in netloc ==>
          var info := HostInfo(netloc);
          && BracketedHost(ip6, HostText(info))
          && ('[' in info ==>
                && info[0] == '['
                && var tail := After(After(info, '['), ']'); tail == "" || tail[0] == ':'))
  }

  const MAX_PORT: nat := 65535

  // The library converts no number of more digits, leading zeros included.
  const MAX_DIGITS: nat := 4300

  predicate PortReadable(port: string) {
    AllDigits(port) && |port| <= MAX_DIGITS && Decimal(port) <= MAX_PORT
  }

  // The host in lower case, except for the scope of an address.
  function LoweredHost(host: string): string {
    var cut := IndexOf(host, '%');
    Lower(host[..cut]) + host[cut..]
  }

  function DefaultPort(scheme: string): nat {
    if scheme == "http" then 80 else 443
  }

  // Host and port of an authority, as texts, to the origin they name.
  function BuildOrigin(ip6: AddressParser, scheme: string, host: string, port: string): Result<Origin, OriginError>
    requires PortReadable(port)
  {
    match NormalizeHostname(ip6, LoweredHost(host))
    case Err(e) => Err(BadHost(e))
    case Ok(h) =>
      if port == "" then Ok(Origin(scheme, h, DefaultPort(scheme)))
      else if Decimal(port) == 0 then Err(BadPort)
      else Ok(Origin(scheme, h, Decimal(port)))
  }

  // The checks in the order in which the program makes them.
  function FromUrl(ip6: AddressParser, url: UrlParts): Result<Origin, OriginError> {
    var info := HostInfo(url.netloc);
    if !BracketsMatch(ip6, url.netloc) || !PortReadable(PortText(info)) then Err(InvalidAuthority)
    else if url.scheme != "http" && url.scheme != "https" then Err(BadScheme)
    else if HostText(info) == "" || '@' in url.netloc then Err(NoHostOrCredentials)
    else if url.path != "" || url.query != "" || url.fragment != "" then Err(NotABareOrigin)
    else BuildOrigin(ip6, url.scheme, HostText(info), PortText(info))
  }

  function ParseOrigin(ip6: AddressParser, value: string): Result<Origin, OriginError> {
    if value == "" || !Visible(value) then Err(UnsafeOrigin)
    else if Lower(value) == "null" || '*' in value then Err(NullOrWildcard)
    else FromUrl(ip6, SplitUrl(value))
  }

  function PortSuffix(o: Origin): string {
    if o.port == DefaultPort(o.scheme) then "" else ":" + Digits(o.port)
  }

  // The ASCII serialization of section 6.2 of RFC 6454.
  function Serialize(o: Origin): string {
    o.scheme + "://" + UrlHost(o.host) + PortSuffix(o)
  }

  function NormalizeOrigin(ip6: AddressParser, value: string): Result<string, OriginError> {
    match ParseOrigin(ip6, value)
    case Err(e) => Err(e)
    case Ok(o) => Ok(Serialize(o))
  }

  // ---- parser and printer ----

  ghost predicate ValidHost(ip6: AddressParser, host: string) {
    NormalizeHostname(ip6, host) == Ok(host) && ']' !in host && '*' !in host
  }

  ghost predicate ValidOrigin(ip6: AddressParser, o: Origin) {
    && (o.scheme == "http" || o.scheme == "https")
    && ValidHost(ip6, o.host)
    && 1 <= o.port <= MAX_PORT
  }

  lemma InAppend(c: char, a: string, b: string)
    ensures c in a + b <==> c in a || c in b
  {
    if c in a {
      var i :| 0 <= i < |a| && a[i] == c;
      assert (a + b)[i] == c;
    } else if c in b {
      var i :| 0 <= i < |b| && b[i] == c;
      assert (a + b)[|a| + i] == c;
    }
  }

  // Cutting a text at a separator its first part does not contain.
  lemma CutAppend(a: string, c: char, b: string)
    requires c !in a
    ensures IndexOf(a + [c] + b, c) == |a| && UpTo(a + [c] + b, c) == a && After(a + [c] + b, c) == b
  {
    IndexOfUnique(a + [c] + b, c, |a|);
  }

  lemma NoCut(s: string, c: char)
    requires c !in s
    ensures IndexOf(s, c) == |s| && UpTo(s, c) == s && After(s, c) == "" && AfterLast(s, c) == s
  {
    IndexOfUnique(s, c, |s|);
  }

  lemma AddressMarks(ip6: AddressParser, s: string, h: string, c: char)
    requires CanonicalParser(ip6) && (c == ']' || c == '*')
    requires c !in s && ':' in s && CanonicalAddress(ip6, s) == Some(h)
    ensures c !in h
  {
    var cut := IndexOf(s, '%');
    assert PrintsCanonically(ip6, s[..cut]);
    assert s[..cut] == s || cut < |s|;
    var address := ip6(s[..cut]).value;
    AddressTextIsLower(address);
    assert c !in address;
    if cut < |s| {
      var scope := s[cut + 1..];
      LowerOfScoped(address, scope);
      assert c !in Lower(scope);
      InAppend(c, address + "%", Lower(scope));
      InAppend(c, address, "%");
    }
  }

  // Normalisation brings in neither a closing bracket nor an asterisk.
  lemma NoNewMarks(ip6: AddressParser, s: string, h: string, c: char)
    requires CanonicalParser(ip6) && (c == ']' || c == '*')
    requires c !in s && NormalizeCandidate(ip6, s) == Ok(h)
    ensures c !in h
  {
    if !LooksLikeAddress(s) {
      NameIsCanonical(s);
      NameSyntax(h);
    } else if ':' !in s {
      LowerFixed(s);
    } else {
      AddressMarks(ip6, s, h, c);
    }
  }

  lemma HostIsValid(ip6: AddressParser, text: string, h: string)
    requires CanonicalParser(ip6) && NormalizeHostname(ip6, text) == Ok(h)
    requires ']' !in text && '*' !in text
    ensures ValidHost(ip6, h)
  {
    NormalizeHostnameIdempotent(ip6, text);
    NoNewMarks(ip6, text, h, ']');
    NoNewMarks(ip6, text, h, '*');
  }

  lemma HostCharacters(ip6: AddressParser, h: string)
    requires ValidHost(ip6, h)
    ensures h != "" && Visible(h) && IsBare(h) && '*' !in h && NormalizeCandidate(ip6, h) == Ok(h)
  {
    assert !Bracketed(h);
  }

  lemma LoweredLower(h: string)
    requires Lower(h) == h
    ensures LoweredHost(h) == h
  {
    var cut := IndexOf(h, '%');
    assert forall i :: 0 <= i < |h| ==> LowerChar(h[i]) == Lower(h)[i];
    LowerFixed(h[..cut]);
  }

  lemma AddressSyntax(ip6: AddressParser, h: string)
    requires CanonicalParser(ip6) && ':' in h && CanonicalAddress(ip6, h) == Some(h)
    ensures BracketedHost(ip6, h) && Lower(h) == h
  {
    var cut := IndexOf(h, '%');
    assert PrintsCanonically(ip6, h[..cut]);
    assert h[..cut] == h || cut < |h|;
    var address := ip6(h[..cut]).value;
    AddressTextIsLower(address);
    LowerIdempotent(CanonicalIPv6(ip6, h).value);
    assert h[0] == address[0] by {
      if cut < |h| {
        LowerOfScoped(address, h[cut + 1..]);
      }
    }
  }

  lemma PlainHostSyntax(ip6: AddressParser, h: string)
    requires ':' !in h && h != "" && NormalizeCandidate(ip6, h) == Ok(h)
    ensures '[' !in h && Lower(h) == h
  {
    if LooksLikeAddress(h) {
      LowerFixed(h);
    } else {
      NameIsCanonical(h);
      NameSyntax(h);
    }
  }

  // What the text of a valid host looks like, so that it can be read back.
  lemma ValidHostSyntax(ip6: AddressParser, h: string)
    requires CanonicalParser(ip6) && ValidHost(ip6, h)
    ensures h != "" && '@' !in h && ']' !in h && LoweredHost(h) == h
    ensures if ':' in h then BracketedHost(ip6, h) else '[' !in h
  {
    HostCharacters(ip6, h);
    if ':' in h {
      AddressSyntax(ip6, h);
    } else {
      PlainHostSyntax(ip6, h);
    }
    LoweredLower(h);
  }

  lemma LoweredMarks(text: string)
    requires ']' !in text && '*' !in text
    ensures ']' !in LoweredHost(text) && '*' !in LoweredHost(text)
  {
    var cut := IndexOf(text, '%');
    InAppend(']', Lower(text[..cut]), text[cut..]);
    InAppend('*', Lower(text[..cut]), text[cut..]);
  }

  lemma BuiltIsValid(ip6: AddressParser, scheme: string, text: string, port: string)
    requires CanonicalParser(ip6) && (scheme == "http" || scheme == "https") && PortReadable(port)
    requires ']' !in text && '*' !in text && BuildOrigin(ip6, scheme, text, port).Ok?
    ensures ValidOrigin(ip6, BuildOrigin(ip6, scheme, text, port).value)
  {
    LoweredMarks(text);
    HostIsValid(ip6, LoweredHost(text), BuildOrigin(ip6, scheme, text, port).value.host);
  }

  lemma SplitMarks(value: string)
    requires '*' !in value
    ensures '*' !in SplitUrl(value).netloc
  {
  }

  lemma HostTextMarks(netloc: string)
    requires '*' !in netloc && ('[' !in netloc ==> ']' !in netloc)
    ensures ']' !in HostText(netloc) && '*' !in HostText(netloc)
  {
  }

  lemma FromUrlIsValid(ip6: AddressParser, url: UrlParts)
    requires CanonicalParser(ip6) && FromUrl(ip6, url).Ok? && '*' !in url.netloc
    ensures ValidOrigin(ip6, FromUrl(ip6, url).value)
  {
    NoCut(url.netloc, '@');
    HostTextMarks(url.netloc);
    BuiltIsValid(ip6, url.scheme, HostText(url.netloc), PortText(url.netloc));
  }

  // Everything the parser accepts is a valid origin.
  lemma ParsedIsValid(ip6: AddressParser, value: string)
    requires CanonicalParser(ip6) && ParseOrigin(ip6, value).Ok?
    ensures ValidOrigin(ip6, ParseOrigin(ip6, value).value)
    ensures var o := ParseOrigin(ip6, value).value;
            && (o.scheme == "http" || o.scheme == "https") && 1 <= o.port <= 65535
            && NormalizeHostname(ip6, o.host) == Ok(o.host)
  {
    SplitMarks(value);
    FromUrlIsValid(ip6, SplitUrl(value));
  }
}
