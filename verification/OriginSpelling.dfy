/**
 The texts that name an origin. Every accepted text has a spelling: its scheme,
 host, port and tail; every acceptable spelling is understood; and the
 serialization is one of them.
 */
module OriginSpelling {
  import opened Common
  import opened Text
  import opened HostNames
  import opened Origins

  // suffix is the port with its colon, or nothing; tail is what follows the authority.
  datatype Spelling = Spelling(scheme: string, bracketed: bool, host: string, suffix: string, tail: string)

  function SpelledHost(bracketed: bool, host: string): string {
    if bracketed then "[" + host + "]" else host
  }

  function Spell(sp: Spelling): string {
    sp.scheme + "://" + SpelledHost(sp.bracketed, sp.host) + sp.suffix + sp.tail
  }

  const EMPTY_TAILS: set<string> := {"", "?", "#", "?#"}

  predicate IsSuffix(suffix: string) {
    suffix == ""
    || (suffix[0] == ':' && AllDigits(suffix[1..]) && |suffix[1..]| <= 4300 && Decimal(suffix[1..]) <= 65535)
  }

  function SuffixPort(suffix: string): (port: string)
    requires IsSuffix(suffix)
    ensures PortReadable(port)
  {
    if suffix == "" then "" else suffix[1..]
  }

  // The port a port text stands for.
  function NamedPort(scheme: string, port: string): nat
    requires AllDigits(port)
  {
    if port == "" then DefaultPort(scheme) else Decimal(port)
  }

  predicate IsHostText(ip6: AddressParser, bracketed: bool, host: string) {
    && host != "" && ']' !in host && '*' !in host
    && if bracketed then BracketedHost(ip6, host) else ':' !in host && '[' !in host
  }

  // Any letter case in the scheme and the host; an address in brackets, anything else
  // without; the port named in range, with or without leading zeros, empty or
  // missing; an empty query, an empty fragment, both or neither.
  predicate Acceptable(ip6: AddressParser, sp: Spelling) {
    && (Lower(sp.scheme) == "http" || Lower(sp.scheme) == "https")
    && IsHostText(ip6, sp.bracketed, sp.host)
    && NormalizeHostname(ip6, LoweredHost(sp.host)).Ok?
    && IsSuffix(sp.suffix) && NamedPort(Lower(sp.scheme), SuffixPort(sp.suffix)) >= 1
    && sp.tail in EMPTY_TAILS
  }

  function Meaning(ip6: AddressParser, sp: Spelling): Origin
    requires Acceptable(ip6, sp)
  {
    var scheme := Lower(sp.scheme);
    Origin(scheme, NormalizeHostname(ip6, LoweredHost(sp.host)).value, NamedPort(scheme, SuffixPort(sp.suffix)))
  }

  // ---- reading a spelling ----

  lemma SuffixMarks(suffix: string, c: char)
    requires IsSuffix(suffix) && !IsDigit(c) && c != ':'
    ensures c !in suffix
  {
    assert forall i :: 0 < i < |suffix| ==> suffix[i] == suffix[1..][i - 1];
  }

  lemma SuffixAfterColon(suffix: string)
    requires IsSuffix(suffix)
    ensures After(suffix, ':') == SuffixPort(suffix)
  {
    IndexOfUnique(suffix, ':', 0);
  }

  lemma BracketedAuthority(h: string, suffix: string)
    requires ']' !in h && IsSuffix(suffix)
    ensures var netloc := "[" + h + "]" + suffix;
            && '[' in netloc && ']' in netloc && netloc[0] == '['
            && After(After(netloc, '['), ']') == suffix
            && HostText(netloc) == h && PortText(netloc) == SuffixPort(suffix)
  {
    var netloc := "[" + h + "]" + suffix;
    assert netloc == "" + ['['] + (h + "]" + suffix);
    assert netloc[0] == '[' && netloc[|h| + 1] == ']';
    CutAppend("", '[', h + "]" + suffix);
    CutAppend(h, ']', suffix);
    SuffixAfterColon(suffix);
  }

  lemma PlainAuthority(h: string, suffix: string)
    requires ':' !in h && '[' !in h + suffix && IsSuffix(suffix)
    ensures HostText(h + suffix) == h && PortText(h + suffix) == SuffixPort(suffix)
  {
    if suffix == "" {
      assert h + suffix == h;
      NoCut(h, ':');
    } else {
      assert h + suffix == h + [':'] + suffix[1..];
      CutAppend(h, ':', suffix[1..]);
    }
  }

  lemma ReadAuthority(bracketed: bool, h: string, suffix: string)
    requires '@' !in h && ']' !in h && (!bracketed ==> ':' !in h && '[' !in h) && IsSuffix(suffix)
    ensures var netloc := SpelledHost(bracketed, h) + suffix;
            && '@' !in netloc && ('[' in netloc <==> bracketed) && (']' in netloc <==> bracketed)
            && (bracketed ==> netloc[0] == '[' && After(After(netloc, '['), ']') == suffix)
            && HostText(netloc) == h && PortText(netloc) == SuffixPort(suffix)
  {
    SuffixMarks(suffix, '@');
    SuffixMarks(suffix, '[');
    SuffixMarks(suffix, ']');
    InAppend('@', SpelledHost(bracketed, h), suffix);
    InAppend('[', SpelledHost(bracketed, h), suffix);
    InAppend(']', SpelledHost(bracketed, h), suffix);
    if bracketed {
      assert '@' !in "[" + h + "]";
      BracketedAuthority(h, suffix);
    } else {
      PlainAuthority(h, suffix);
    }
  }

  // The URL library's checks pass on the authority of an acceptable spelling.
  lemma AuthorityMatches(ip6: AddressParser, bracketed: bool, h: string, suffix: string)
    requires IsHostText(ip6, bracketed, h) && '@' !in h && IsSuffix(suffix)
    ensures var netloc := SpelledHost(bracketed, h) + suffix;
            && '@' !in netloc && HostInfo(netloc) == netloc && BracketsMatch(ip6, netloc)
            && HostText(netloc) == h && PortText(netloc) == SuffixPort(suffix)
  {
    ReadAuthority(bracketed, h, suffix);
    NoCut(SpelledHost(bracketed, h) + suffix, '@');
  }

  // A tail starts where the authority ends.
  predicate IsTail(tail: string) {
    tail == "" || tail[0] == '/' || tail[0] == '?' || tail[0] == '#'
  }

  lemma EndsAtTail(netloc: string, tail: string)
    requires '/' !in netloc && '?' !in netloc && '#' !in netloc && IsTail(tail)
    ensures AuthorityEnd(netloc + tail) == |netloc|
  {
    var s := netloc + tail;
    assert forall i :: 0 <= i < |netloc| ==> s[i] == netloc[i] && netloc[i] in netloc;
    assert tail != "" ==> s[|netloc|] == tail[0];
    if tail == "" {
      assert s == netloc;
      NoCut(netloc, '/');
      NoCut(netloc, '?');
      NoCut(netloc, '#');
    } else {
      IndexOfUnique(s, tail[0], |netloc|);
    }
  }

  lemma AuthorityPrinted(netloc: string, tail: string)
    requires '/' !in netloc && '?' !in netloc && '#' !in netloc && IsTail(tail)
    ensures var rest := ['/', '/'] + (netloc + tail);
            && AuthorityEnd(rest[2..]) == |netloc| && rest[2..2 + |netloc|] == netloc && rest[2 + |netloc|..] == tail
  {
    var rest := ['/', '/'] + (netloc + tail);
    assert rest[2..] == netloc + tail;
    EndsAtTail(netloc, tail);
  }

  lemma SplitSchemed(scheme: string, netloc: string, tail: string)
    requires IsSchemeText(scheme)
    requires '/' !in netloc && '?' !in netloc && '#' !in netloc && IsTail(tail)
    ensures SplitUrl(scheme + [':'] + (['/', '/'] + (netloc + tail))) ==
            UrlParts(Lower(scheme), netloc, UpTo(UpTo(tail, '#'), '?'), After(UpTo(tail, '#'), '?'), After(tail, '#'))
  {
    var rest := ['/', '/'] + (netloc + tail);
    var s := scheme + [':'] + rest;
    assert s[|scheme|] == ':';
    CutAppend(scheme, ':', rest);
    AuthorityPrinted(netloc, tail);
  }

  lemma SchemeLetters(scheme: string)
    requires Lower(scheme) == "http" || Lower(scheme) == "https"
    ensures IsSchemeText(scheme) && Visible(scheme) && '*' !in scheme && |scheme| >= 4
  {
    assert forall i :: 0 <= i < |scheme| ==> LowerChar(scheme[i]) == Lower(scheme)[i];
    assert forall i :: 0 <= i < |Lower(scheme)| ==> 'a' <= Lower(scheme)[i] <= 'z';
  }

  lemma CutParts(s: string, c: char)
    ensures s == UpTo(s, c) + (if c in s then [c] + After(s, c) else "")
  {
  }

  lemma EmptyTail(tail: string)
    requires UpTo(UpTo(tail, '#'), '?') == "" && After(UpTo(tail, '#'), '?') == "" && After(tail, '#') == ""
    ensures tail in EMPTY_TAILS
  {
    var query := UpTo(tail, '#');
    CutParts(query, '?');
    CutParts(tail, '#');
    if query == "" {
      assert tail == "" || tail == "#";
    } else {
      assert query == "?";
      assert tail == "?" || tail == "?#";
    }
  }

  lemma TailParts(tail: string)
    requires IsTail(tail)
    ensures tail in EMPTY_TAILS <==>
            UpTo(UpTo(tail, '#'), '?') == "" && After(UpTo(tail, '#'), '?') == "" && After(tail, '#') == ""
  {
    if UpTo(UpTo(tail, '#'), '?') == "" && After(UpTo(tail, '#'), '?') == "" && After(tail, '#') == "" {
      EmptyTail(tail);
    }
  }

  // The characters of a host text are those of the host it is lowered to.
  lemma LoweredCharacters(host: string)
    ensures Visible(LoweredHost(host)) ==> Visible(host)
    ensures IsBare(LoweredHost(host)) ==> IsBare(host)
    ensures host != "" ==> LoweredHost(host) != "" && (LoweredHost(host)[0] == '[' <==> host[0] == '[')
  {
    var cut := IndexOf(host, '%');
    var low := LoweredHost(host);
    assert forall i :: 0 <= i < |host| ==> low[i] == (if i < cut then LowerChar(host[i]) else host[i]);
    assert forall c: char :: c in host && !('A' <= c <= 'Z') ==> c in low;
  }

  lemma HostTextCharacters(ip6: AddressParser, host: string)
    requires host != "" && ']' !in host && '*' !in host && NormalizeHostname(ip6, LoweredHost(host)).Ok?
    ensures Visible(host) && IsBare(host)
  {
    LoweredCharacters(host);
    LoweredMarks(host);
    assert !Bracketed(LoweredHost(host));
  }

  lemma SpelledCharacters(scheme: string, bracketed: bool, h: string, suffix: string)
    requires Visible(scheme) && '*' !in scheme && Visible(h) && IsBare(h) && '*' !in h
    requires forall i :: 0 <= i < |suffix| ==> suffix[i] == ':' || IsDigit(suffix[i])
    ensures var netloc := SpelledHost(bracketed, h) + suffix;
            && '/' !in netloc && '?' !in netloc && '#' !in netloc
            && Visible(scheme + "://" + SpelledHost(bracketed, h) + suffix)
            && '*' !in scheme + "://" + SpelledHost(bracketed, h) + suffix
  {
  }

  lemma TailCharacters(tail: string)
    requires tail in EMPTY_TAILS
    ensures Visible(tail) && '*' !in tail && IsTail(tail)
  {
  }

  lemma VisibleAppend(a: string, b: string)
    requires Visible(a) && Visible(b) && '*' !in a && '*' !in b
    ensures Visible(a + b) && '*' !in a + b
  {
  }

  lemma SuffixCharacters(suffix: string)
    requires IsSuffix(suffix)
    ensures forall i :: 0 <= i < |suffix| ==> suffix[i] == ':' || IsDigit(suffix[i])
  {
    assert forall i :: 0 < i < |suffix| ==> suffix[i] == suffix[1..][i - 1];
  }

  lemma NotNull(text: string)
    requires |text| > 4
    ensures text != "" && Lower(text) != "null"
  {
  }

  lemma Regroup(scheme: string, host: string, suffix: string, tail: string)
    ensures scheme + "://" + host + suffix + tail == scheme + [':'] + (['/', '/'] + (host + suffix + tail))
  {
  }

  // A text made of a scheme, a host text and a port suffix, followed by any visible tail.
  lemma SplitSpelled(ip6: AddressParser, sp: Spelling)
    requires IsSchemeText(sp.scheme) && Visible(sp.scheme) && '*' !in sp.scheme && |sp.scheme| >= 4
    requires IsSuffix(sp.suffix) && Visible(sp.host) && IsBare(sp.host) && '*' !in sp.host
    requires IsTail(sp.tail) && Visible(sp.tail) && '*' !in sp.tail
    ensures ParseOrigin(ip6, Spell(sp)) ==
            FromUrl(ip6, UrlParts(Lower(sp.scheme), SpelledHost(sp.bracketed, sp.host) + sp.suffix,
                                  UpTo(UpTo(sp.tail, '#'), '?'), After(UpTo(sp.tail, '#'), '?'), After(sp.tail, '#')))
  {
    SuffixCharacters(sp.suffix);
    SpelledCharacters(sp.scheme, sp.bracketed, sp.host, sp.suffix);
    VisibleAppend(sp.scheme + "://" + SpelledHost(sp.bracketed, sp.host) + sp.suffix, sp.tail);
    NotNull(Spell(sp));
    Regroup(sp.scheme, SpelledHost(sp.bracketed, sp.host), sp.suffix, sp.tail);
    SplitSchemed(sp.scheme, SpelledHost(sp.bracketed, sp.host) + sp.suffix, sp.tail);
  }

  lemma FromSpelled(ip6: AddressParser, scheme: string, bracketed: bool, h: string, suffix: string)
    requires (scheme == "http" || scheme == "https") && IsHostText(ip6, bracketed, h) && '@' !in h
    requires NormalizeHostname(ip6, LoweredHost(h)).Ok?
    requires IsSuffix(suffix) && NamedPort(scheme, SuffixPort(suffix)) >= 1
    ensures FromUrl(ip6, UrlParts(scheme, SpelledHost(bracketed, h) + suffix, "", "", "")) ==
            Ok(Origin(scheme, NormalizeHostname(ip6, LoweredHost(h)).value, NamedPort(scheme, SuffixPort(suffix))))
  {
    AuthorityMatches(ip6, bracketed, h, suffix);
  }

  // Every acceptable spelling is understood as what it means: without a port, http
  // means port 80 and https port 443.
  lemma SpellingParses(ip6: AddressParser, sp: Spelling)
    requires Acceptable(ip6, sp)
    ensures ParseOrigin(ip6, Spell(sp)) == Ok(Meaning(ip6, sp))
    ensures var o := ParseOrigin(ip6, Spell(sp)).value;
            && o.scheme == Lower(sp.scheme)
            && Ok(o.host) == NormalizeHostname(ip6, LoweredHost(sp.host))
            && o.port == if |sp.suffix| > 1 then Decimal(sp.suffix[1..]) else if o.scheme == "http" then 80 else 443
  {
    SchemeLetters(sp.scheme);
    HostTextCharacters(ip6, sp.host);
    TailCharacters(sp.tail);
    SplitSpelled(ip6, sp);
    TailParts(sp.tail);
    FromSpelled(ip6, Lower(sp.scheme), sp.bracketed, sp.host, sp.suffix);
  }

  // ---- finding the spelling of an accepted text ----

  lemma SplitSteps(s: string)
    requires SplitUrl(s).scheme != "" && SplitUrl(s).netloc != ""
    ensures var rest := After(s, ':');
            && ':' in s && |rest| >= 2 && rest[0] == '/' && rest[1] == '/'
            && var end := 2 + AuthorityEnd(rest[2..]);
            && var query := UpTo(rest[end..], '#');
            && SplitUrl(s) ==
               UrlParts(Lower(UpTo(s, ':')), rest[2..end], UpTo(query, '?'), After(query, '?'), After(rest[end..], '#'))
  {
  }

  lemma AuthorityCut(rest: string, end: nat)
    requires 2 <= end <= |rest| && rest[0] == '/' && rest[1] == '/'
    ensures rest == ['/', '/'] + (rest[2..end] + rest[end..])
  {
  }

  lemma RegroupParts(scheme: string, netloc: string, tail: string)
    ensures scheme + [':'] + (['/', '/'] + (netloc + tail)) == scheme + "://" + netloc + tail
  {
  }

  lemma JoinUrl(s: string, rest: string, end: nat)
    requires s == UpTo(s, ':') + [':'] + rest && 2 <= end <= |rest| && rest[0] == '/' && rest[1] == '/'
    ensures s == UpTo(s, ':') + "://" + rest[2..end] + rest[end..]
  {
    AuthorityCut(rest, end);
    RegroupParts(UpTo(s, ':'), rest[2..end], rest[end..]);
  }

  // A URL with empty path, query and fragment is scheme, authority and an empty tail.
  lemma BareUrl(s: string) returns (tail: string)
    requires var url := SplitUrl(s);
             url.scheme != "" && url.netloc != "" && url.path == "" && url.query == "" && url.fragment == ""
    ensures SplitUrl(s).scheme == Lower(UpTo(s, ':'))
    ensures tail in EMPTY_TAILS && s == UpTo(s, ':') + "://" + SplitUrl(s).netloc + tail
  {
    SplitSteps(s);
    var rest := After(s, ':');
    var end := 2 + AuthorityEnd(rest[2..]);
    tail := rest[end..];
    EmptyTail(tail);
    CutParts(s, ':');
    JoinUrl(s, rest, end);
  }

  function SuffixOf(netloc: string): string {
    if '[' in netloc then After(After(netloc, '['), ']') else netloc[IndexOf(netloc, ':')..]
  }

  lemma JoinBrackets(h: string, suffix: string)
    ensures "[" + h + "]" + suffix == ['['] + (h + ([']'] + suffix))
  {
  }

  lemma InsideBrackets(netloc: string)
    requires ']' in netloc && netloc[0] == '['
    ensures After(netloc, '[') == netloc[1..] && ']' in netloc[1..] && netloc == ['['] + netloc[1..]
  {
    IndexOfUnique(netloc, '[', 0);
    var i :| 0 <= i < |netloc| && netloc[i] == ']';
    assert netloc[1..][i - 1] == ']';
  }

  lemma BracketedParts(netloc: string)
    requires '[' in netloc && ']' in netloc && netloc[0] == '['
    ensures netloc == "[" + HostText(netloc) + "]" + SuffixOf(netloc)
  {
    InsideBrackets(netloc);
    var inside := netloc[1..];
    CutParts(inside, ']');
    JoinBrackets(UpTo(inside, ']'), After(inside, ']'));
  }

  lemma PlainParts(netloc: string)
    requires '[' !in netloc
    ensures netloc == HostText(netloc) + SuffixOf(netloc) && ':' !in HostText(netloc)
    ensures SuffixOf(netloc) == "" || SuffixOf(netloc)[0] == ':'
  {
  }

  lemma SuffixOfPort(netloc: string)
    requires SuffixOf(netloc) == "" || SuffixOf(netloc)[0] == ':'
    requires PortReadable(PortText(netloc))
    ensures IsSuffix(SuffixOf(netloc)) && SuffixPort(SuffixOf(netloc)) == PortText(netloc)
  {
    var suffix := SuffixOf(netloc);
    if '[' in netloc {
      IndexOfUnique(suffix, ':', 0);
    } else if suffix != "" {
      assert suffix[1..] == After(netloc, ':');
    } else {
      assert ':' !in netloc;
    }
  }

  lemma AuthorityParts(ip6: AddressParser, netloc: string)
    requires netloc != "" && '@' !in netloc && '*' !in netloc && BracketsMatch(ip6, netloc)
    requires PortReadable(PortText(netloc)) && HostText(netloc) != ""
    ensures netloc == SpelledHost('[' in netloc, HostText(netloc)) + SuffixOf(netloc)
    ensures IsHostText(ip6, '[' in netloc, HostText(netloc))
    ensures IsSuffix(SuffixOf(netloc)) && SuffixPort(SuffixOf(netloc)) == PortText(netloc)
  {
    NoCut(netloc, '@');
    HostTextMarks(netloc);
    if '[' in netloc {
      BracketedParts(netloc);
    } else {
      PlainParts(netloc);
    }
    SuffixOfPort(netloc);
  }

  lemma AcceptedParts(ip6: AddressParser, url: UrlParts)
    requires FromUrl(ip6, url).Ok? && '*' !in url.netloc
    ensures (url.scheme == "http" || url.scheme == "https") && url.netloc != "" && '@' !in url.netloc
    ensures url.path == "" && url.query == "" && url.fragment == ""
    ensures HostText(url.netloc) != "" && BracketsMatch(ip6, url.netloc) && PortReadable(PortText(url.netloc))
    ensures NormalizeHostname(ip6, LoweredHost(HostText(url.netloc))).Ok?
    ensures NamedPort(url.scheme, PortText(url.netloc)) >= 1
  {
    NoCut(url.netloc, '@');
  }

  lemma JoinParts(sp: Spelling, netloc: string, value: string)
    requires netloc == SpelledHost(sp.bracketed, sp.host) + sp.suffix && value == sp.scheme + "://" + netloc + sp.tail
    ensures value == Spell(sp)
  {
    var front := sp.scheme + "://";
    assert front + (SpelledHost(sp.bracketed, sp.host) + sp.suffix) ==
             front + SpelledHost(sp.bracketed, sp.host) + sp.suffix;
  }

  // Every accepted text is an acceptable spelling.
  lemma AcceptedIsSpelled(ip6: AddressParser, value: string) returns (sp: Spelling)
    requires ParseOrigin(ip6, value).Ok?
    ensures Acceptable(ip6, sp) && value == Spell(sp)
  {
    SplitMarks(value);
    var url := SplitUrl(value);
    AcceptedParts(ip6, url);
    AuthorityParts(ip6, url.netloc);
    var tail := BareUrl(value);
    sp := Spelling(UpTo(value, ':'), '[' in url.netloc, HostText(url.netloc), SuffixOf(url.netloc), tail);
    JoinParts(sp, url.netloc, value);
  }

  // A text is accepted as an origin exactly when it is an acceptable spelling of it.
  lemma AcceptedExactly(ip6: AddressParser, value: string, o: Origin)
    ensures ParseOrigin(ip6, value) == Ok(o) <==>
            exists sp :: Acceptable(ip6, sp) && value == Spell(sp) && o == Meaning(ip6, sp)
  {
    if ParseOrigin(ip6, value) == Ok(o) {
      var sp := AcceptedIsSpelled(ip6, value);
      SpellingParses(ip6, sp);
    }
    forall sp | Acceptable(ip6, sp) && value == Spell(sp) && o == Meaning(ip6, sp)
      ensures ParseOrigin(ip6, value) == Ok(o)
    {
      SpellingParses(ip6, sp);
    }
  }

  // ---- the serialization ----

  function SpellingOf(o: Origin, tail: string): Spelling {
    Spelling(o.scheme, ':' in o.host, o.host, PortSuffix(o), tail)
  }

  lemma PortSuffixNames(o: Origin)
    requires 1 <= o.port <= MAX_PORT
    ensures IsSuffix(PortSuffix(o)) && NamedPort(o.scheme, SuffixPort(PortSuffix(o))) == o.port
  {
    DecimalOfDigits(o.port);
    assert Power10(3) == 1000;
    FewDigits(o.port, Power10(5), 5);
    if o.port != DefaultPort(o.scheme) {
      assert PortSuffix(o)[1..] == Digits(o.port);
    }
  }

  lemma SpellingOfValid(ip6: AddressParser, o: Origin, tail: string)
    requires CanonicalParser(ip6) && ValidOrigin(ip6, o) && tail in EMPTY_TAILS
    ensures Acceptable(ip6, SpellingOf(o, tail)) && Meaning(ip6, SpellingOf(o, tail)) == o
    ensures Spell(SpellingOf(o, tail)) == Serialize(o) + tail
  {
    LowerFixed(o.scheme);
    ValidHostSyntax(ip6, o.host);
    PortSuffixNames(o);
  }

  // The port is left out exactly when it is 80 for http or 443 for https, and printed
  // in decimal digits without leading zeros otherwise.
  lemma SerializedPort(ip6: AddressParser, o: Origin)
    requires ValidOrigin(ip6, o)
    ensures var bare := o.scheme + "://" + UrlHost(o.host);
            && (Serialize(o) == bare <==>
                (o.scheme == "http" && o.port == 80) || (o.scheme == "https" && o.port == 443))
            && (Serialize(o) != bare ==> Serialize(o) == bare + ":" + Digits(o.port))
            && Decimal(Digits(o.port)) == o.port && Digits(o.port)[0] != '0'
            && UrlHost(o.host) == if ':' in o.host then "[" + o.host + "]" else o.host
  {
    DecimalOfDigits(o.port);
    var bare := o.scheme + "://" + UrlHost(o.host);
    if PortSuffix(o) == "" {
      assert Serialize(o) == bare;
    } else {
      assert Serialize(o) == bare + ":" + Digits(o.port);
      assert |Serialize(o)| > |bare|;
    }
  }

  // The printer is inverted by the parser on every valid origin.
  lemma ParseSerialized(ip6: AddressParser, o: Origin)
    requires CanonicalParser(ip6) && ValidOrigin(ip6, o)
    ensures ParseOrigin(ip6, Serialize(o)) == Ok(o)
  {
    SpellingOfValid(ip6, o, "");
    SpellingParses(ip6, SpellingOf(o, ""));
    assert Serialize(o) + "" == Serialize(o);
  }

  lemma TailRejected(ip6: AddressParser, url: UrlParts)
    requires url.path != "" || url.query != "" || url.fragment != ""
    ensures FromUrl(ip6, url).Err?
  {
  }

  lemma TailMarks(front: string, tail: string)
    requires Visible(front + tail) && '*' !in front + tail
    ensures Visible(tail) && '*' !in tail
  {
    assert forall i :: 0 <= i < |tail| ==> (front + tail)[|front| + i] == tail[i];
  }

  lemma OtherTailRejected(ip6: AddressParser, o: Origin, tail: string)
    requires CanonicalParser(ip6) && ValidOrigin(ip6, o) && IsTail(tail) && tail !in EMPTY_TAILS
    ensures ParseOrigin(ip6, Serialize(o) + tail).Err?
  {
    var text := Serialize(o) + tail;
    if Visible(text) && '*' !in text {
      var sp := SpellingOf(o, tail);
      TailMarks(Serialize(o), tail);
      LowerFixed(o.scheme);
      SchemeLetters(o.scheme);
      HostCharacters(ip6, o.host);
      PortSuffixNames(o);
      SplitSpelled(ip6, sp);
      assert Spell(sp) == text;
      TailParts(tail);
      TailRejected(ip6, UrlParts(Lower(sp.scheme), SpelledHost(sp.bracketed, sp.host) + sp.suffix,
                                 UpTo(UpTo(tail, '#'), '?'), After(UpTo(tail, '#'), '?'), After(tail, '#')));
    }
  }

  // An origin followed by a path, query or fragment is still accepted exactly when the
  // path is missing and query and fragment are empty; it then names the same origin.
  lemma TailExactly(ip6: AddressParser, o: Origin, tail: string)
    requires CanonicalParser(ip6) && ValidOrigin(ip6, o) && IsTail(tail)
    ensures ParseOrigin(ip6, Serialize(o) + tail).Ok? <==> tail in EMPTY_TAILS
    ensures tail in EMPTY_TAILS ==> ParseOrigin(ip6, Serialize(o) + tail) == Ok(o)
  {
    if tail in EMPTY_TAILS {
      SpellingOfValid(ip6, o, tail);
      SpellingParses(ip6, SpellingOf(o, tail));
    } else if ParseOrigin(ip6, Serialize(o) + tail).Ok? {
      OtherTailRejected(ip6, o, tail);
    }
  }

  // Normalising twice is normalising once.
  lemma NormalizeOriginIdempotent(ip6: AddressParser, value: string)
    requires CanonicalParser(ip6) && NormalizeOrigin(ip6, value).Ok?
    ensures NormalizeOrigin(ip6, NormalizeOrigin(ip6, value).value) == NormalizeOrigin(ip6, value)
  {
    ParsedIsValid(ip6, value);
    ParseSerialized(ip6, ParseOrigin(ip6, value).value);
  }

  // Two texts get the same canonical form exactly when they name the same origin
  // in the sense of section 5 of RFC 6454: same scheme, host and port.
  lemma SameTextSameOrigin(ip6: AddressParser, a: string, b: string)
    requires CanonicalParser(ip6) && ParseOrigin(ip6, a).Ok? && ParseOrigin(ip6, b).Ok?
    ensures NormalizeOrigin(ip6, a) == NormalizeOrigin(ip6, b) <==> ParseOrigin(ip6, a) == ParseOrigin(ip6, b)
  {
    ParsedIsValid(ip6, a);
    ParsedIsValid(ip6, b);
    ParseSerialized(ip6, ParseOrigin(ip6, a).value);
    ParseSerialized(ip6, ParseOrigin(ip6, b).value);
  }
}
