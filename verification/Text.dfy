/** ASCII text helpers: character classes, case folding, searching and splitting. */
module Text {

  // No character is white space or a control character. Text outside ASCII is not
  // modelled and counts as not visible.
  predicate Visible(s: string) {
    forall i :: 0 <= i < |s| ==> '!' <= s[i] <= '~'
  }

  predicate IsDigit(c: char) {
    '0' <= c <= '9'
  }

  predicate IsAlphanumeric(c: char) {
    IsDigit(c) || 'a' <= c <= 'z'
  }

  predicate AllDigits(s: string) {
    forall i :: 0 <= i < |s| ==> IsDigit(s[i])
  }

  function DigitValue(c: char): nat
    requires IsDigit(c)
  {
    c as nat - '0' as nat
  }

  // The number a text of decimal digits denotes.
  function Decimal(s: string): nat
    requires AllDigits(s)
  {
    if s == "" then 0 else 10 * Decimal(s[..|s| - 1]) + DigitValue(s[|s| - 1])
  }

  // The decimal digits of n, without leading zeros.
  function Digits(n: nat): (s: string)
    ensures |s| >= 1 && AllDigits(s) && (n > 0 ==> s[0] != '0')
  {
    var last := (('0' as nat) + n % 10) as char;
    if n < 10 then [last] else Digits(n / 10) + [last]
  }

  lemma {:induction false} DecimalOfDigits(n: nat)
    ensures Decimal(Digits(n)) == n
  {
    if n < 10 {
      assert Digits(n)[..0] == "";
    } else {
      DecimalOfDigits(n / 10);
      assert Digits(n)[..|Digits(n)| - 1] == Digits(n / 10);
    }
  }

  function Power10(k: nat): nat {
    if k == 0 then 1 else 10 * Power10(k - 1)
  }

  lemma {:induction false} FewDigits(n: nat, bound: nat, k: nat)
    requires n < bound && k >= 1 && bound == Power10(k)
    ensures |Digits(n)| <= k
    decreases k
  {
    if n >= 10 {
      FewDigits(n / 10, Power10(k - 1), k - 1);
    }
  }

  function LowerChar(c: char): (r: char)
    ensures if 'A' <= c <= 'Z' then 'a' <= r <= 'z' && r as int - 'a' as int == c as int - 'A' as int else r == c
  {
    if 'A' <= c <= 'Z' then (c as int + 32) as char else c
  }

  function Lower(s: string): (r: string)
    ensures |r| == |s|
    ensures forall i :: 0 <= i < |s| ==> r[i] == LowerChar(s[i])
  {
    seq(|s|, i requires 0 <= i < |s| => LowerChar(s[i]))
  }

  lemma LowerIdempotent(s: string)
    ensures Lower(Lower(s)) == Lower(s)
  {
  }

  lemma LowerFixed(s: string)
    requires forall i :: 0 <= i < |s| ==> LowerChar(s[i]) == s[i]
    ensures Lower(s) == s
  {
  }

  // The first position of c in s, or |s| when c does not occur.
  function IndexOf(s: string, c: char): (i: nat)
    ensures i <= |s|
    ensures i < |s| ==> s[i] == c
    ensures forall k :: 0 <= k < i ==> s[k] != c
  {
    if s == "" || s[0] == c then 0 else 1 + IndexOf(s[1..], c)
  }

  lemma IndexOfUnique(s: string, c: char, i: nat)
    requires i <= |s|
    requires i < |s| ==> s[i] == c
    requires forall k :: 0 <= k < i ==> s[k] != c
    ensures IndexOf(s, c) == i
  {
  }

  // The pieces of s between the occurrences of c.
  function Split(s: string, c: char): (pieces: seq<string>)
    ensures |pieces| >= 1
    decreases |s|
  {
    var i := IndexOf(s, c);
    if i == |s| then [s] else [s[..i]] + Split(s[i + 1..], c)
  }

  // Every character of s is the separator or belongs to one of the pieces.
  lemma {:induction false} SplitCovers(s: string, c: char, i: nat)
    requires i < |s| && s[i] != c
    ensures exists p: string :: p in Split(s, c) && s[i] in p
    decreases |s|
  {
    var cut := IndexOf(s, c);
    if cut == |s| {
      assert s in Split(s, c);
    } else if i < cut {
      var head := s[..cut];
      assert head[i] == s[i];
      assert Split(s, c)[0] == head;
      assert head in Split(s, c) && s[i] in head;
    } else {
      var rest := s[cut + 1..];
      assert rest[i - cut - 1] == s[i];
      SplitCovers(rest, c, i - cut - 1);
      var p: string :| p in Split(rest, c) && s[i] in p;
      assert Split(s, c) == [s[..cut]] + Split(rest, c);
    }
  }
}
