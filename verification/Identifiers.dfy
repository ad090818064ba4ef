/**
  Identifiers of artifacts as the shared schema admits them, decimal numerals,
  and the identifiers the engine derives by putting text in front of others.
*/
module Identifiers {

  const MAX_LENGTH := 128

  predicate IsLetter(c: char) {
    'A' <= c <= 'Z' || 'a' <= c <= 'z'
  }

  predicate IsDigit(c: char) {
    '0' <= c <= '9'
  }

  predicate IsIdChar(c: char) {
    IsLetter(c) || IsDigit(c) || c == '.' || c == '_' || c == ':' || c == '-'
  }

  predicate AllIdChars(s: string) {
    forall i | 0 <= i < |s| :: IsIdChar(s[i])
  }

  predicate EndsInNewline(s: string) {
    s != [] && s[|s| - 1] == '\n'
  }

  // The end of a Python pattern also matches before one final newline.
  function Stem(s: string): string {
    if EndsInNewline(s) then s[..|s| - 1] else s
  }

  // 2 to 128 characters matching `^[A-Za-z][A-Za-z0-9._:-]*$`.
  predicate Identifier(s: string) {
    2 <= |s| <= MAX_LENGTH && Stem(s) != [] && IsLetter(Stem(s)[0]) && AllIdChars(Stem(s))
  }

  predicate AllIdentifiers(ids: seq<string>) {
    forall id | id in ids :: Identifier(id)
  }

  // ----- Derived identifiers -----

  // What an identifier may start with.
  predicate Opening(prefix: string) {
    prefix != [] && IsLetter(prefix[0]) && AllIdChars(prefix)
  }

  predicate TooLong(prefix: string, id: string) {
    |prefix| + |id| > MAX_LENGTH
  }

  lemma StemOfDerived(prefix: string, id: string)
    requires id != []
    ensures Stem(prefix + id) == prefix + Stem(id)
  {
    assert (prefix + id)[|prefix + id| - 1] == id[|id| - 1];
  }

  // Putting text in front of an identifier gives an identifier exactly when
  // the result is not too long.
  lemma DerivedExactly(prefix: string, id: string)
    requires Opening(prefix) && Identifier(id)
    ensures Identifier(prefix + id) <==> !TooLong(prefix, id)
  {
    StemOfDerived(prefix, id);
    var stem := prefix + Stem(id);
    assert stem[0] == prefix[0];
    assert forall i :: 0 <= i < |Stem(id)| ==> stem[|prefix| + i] == Stem(id)[i];
  }

  // With something printable behind it as well, it may not end in a newline.
  lemma EmbeddedExactly(prefix: string, id: string, rest: string)
    requires Opening(prefix) && Identifier(id) && rest != [] && AllIdChars(rest)
    ensures Identifier(prefix + (id + rest)) <==> !TooLong(prefix, id + rest) && !EndsInNewline(id)
  {
    var text := prefix + (id + rest);
    assert text[0] == prefix[0];
    assert text[|text| - 1] == rest[|rest| - 1];
    assert Stem(text) == text;
    if EndsInNewline(id) {
      assert text[|prefix| + |id| - 1] == '\n';
    } else {
      assert Stem(id) == id;
    }
  }

  lemma AllIdCharsAppend(a: string, b: string)
    ensures AllIdChars(a + b) <==> AllIdChars(a) && AllIdChars(b)
  {
    forall i | 0 <= i < |a| ensures (a + b)[i] == a[i] {
    }
    forall i | 0 <= i < |b| ensures (a + b)[|a| + i] == b[i] {
    }
  }

  // Of the characters of a semantic version only the plus sign, which
  // introduces build metadata, has no place in an identifier.
  predicate VersionText(version: string) {
    Stem(version) != [] && forall i | 0 <= i < |Stem(version)| :: Stem(version)[i] == '+' || IsIdChar(Stem(version)[i])
  }

  lemma VersionChars(version: string)
    requires VersionText(version)
    ensures AllIdChars(Stem(version)) <==> '+' !in version
  {
    if '+' in version {
      var i :| 0 <= i < |version| && version[i] == '+';
      assert Stem(version)[i] == '+';
    }
  }

  lemma IdentifierChars(id: string)
    requires Identifier(id)
    ensures AllIdChars(id) <==> !EndsInNewline(id)
  {
    if EndsInNewline(id) {
      assert !IsIdChar(id[|id| - 1]);
    }
  }

  lemma StemOfVersioned(prefix: string, id: string, version: string)
    requires version != []
    ensures Stem(prefix + (id + ("." + version))) == prefix + (id + ("." + Stem(version)))
  {
    StemOfDerived(".", version);
    StemOfDerived(id, "." + version);
    StemOfDerived(prefix, id + ("." + version));
  }

  lemma VersionedExactly(prefix: string, id: string, version: string)
    requires Opening(prefix) && Identifier(id) && VersionText(version)
    ensures Identifier(prefix + (id + ("." + version))) <==>
      !TooLong(prefix, id + ("." + version)) && !EndsInNewline(id) && '+' !in version
  {
    StemOfVersioned(prefix, id, version);
    VersionChars(version);
    IdentifierChars(id);
    var stem := Stem(version);
    var all := prefix + (id + ("." + stem));
    assert all[0] == prefix[0];
    assert AllIdChars(all) <==> AllIdChars(id) && AllIdChars(stem) by {
      AllIdCharsAppend(prefix, id + ("." + stem));
      AllIdCharsAppend(id, "." + stem);
      AllIdCharsAppend(".", stem);
    }
  }

  // Text of nothing but identifier characters.
  lemma PlainExactly(prefix: string, rest: string)
    requires Opening(prefix) && rest != [] && AllIdChars(rest)
    ensures Identifier(prefix + rest) <==> !TooLong(prefix, rest)
  {
    var text := prefix + rest;
    assert text[0] == prefix[0];
    assert text[|text| - 1] == rest[|rest| - 1];
  }

  // ----- Decimal numerals -----

  function Digit(n: nat): char
    requires n < 10
  {
    (48 + n) as char
  }

  function Decimal(n: nat): (r: string)
    ensures r != [] && (|r| == 1 <==> n < 10)
    ensures forall c :: c in r ==> IsDigit(c)
  {
    if n < 10 then [Digit(n)] else Decimal(n / 10) + [Digit(n % 10)]
  }

  lemma {:induction false} DecimalInjective(m: nat, n: nat)
    requires Decimal(m) == Decimal(n)
    ensures m == n
  {
    var r := Decimal(m);
    if m < 10 {
      assert Decimal(n) == [Digit(n)];
    } else {
      assert Decimal(m / 10) == r[..|r| - 1] && Digit(m % 10) == r[|r| - 1];
      assert Decimal(n / 10) == r[..|r| - 1] && Digit(n % 10) == r[|r| - 1];
      DecimalInjective(m / 10, n / 10);
    }
  }

  lemma {:induction false} DecimalLonger(m: nat, n: nat)
    requires m <= n
    ensures |Decimal(m)| <= |Decimal(n)|
  {
    if m >= 10 {
      DecimalLonger(m / 10, n / 10);
    }
  }

  function PowerOfTen(k: nat): nat {
    if k == 0 then 1 else 10 * PowerOfTen(k - 1)
  }

  lemma {:induction false} DecimalLength(n: nat, k: nat)
    requires k >= 1 && |Decimal(n)| > k
    ensures n >= PowerOfTen(k)
  {
    if k == 1 {
      assert PowerOfTen(1) == 10 * PowerOfTen(0);
    } else {
      assert |Decimal(n / 10)| == |Decimal(n)| - 1;
      DecimalLength(n / 10, k - 1);
    }
  }

  // ----- Taking derived text apart -----

  lemma SameSplit(a: string, b: string, c: string, d: string)
    requires a + b == c + d && |a| == |c|
    ensures a == c && b == d
  {
    var x, y := a + b, c + d;
    assert a == x[..|a|] && c == y[..|c|] && b == x[|a|..] && d == y[|c|..];
  }

  lemma DotReached(a: string, b: string, c: string, d: string)
    requires a + ("." + b) == c + ("." + d) && |a| < |c|
    ensures '.' in c && '.' in b
  {
    var x, y := a + ("." + b), c + ("." + d);
    assert x[|a|] == '.' == y[|a|] == c[|a|];
    assert y[|c|] == '.' == x[|c|] == b[|c| - |a| - 1];
  }

  // The first dot separates when nothing before it holds one, and the last
  // one when nothing behind it does.
  lemma SplitAtDot(a: string, b: string, c: string, d: string)
    requires a + ("." + b) == c + ("." + d)
    requires ('.' !in a && '.' !in c) || ('.' !in b && '.' !in d)
    ensures a == c && b == d
  {
    if |a| < |c| {
      DotReached(a, b, c, d);
    } else if |c| < |a| {
      DotReached(c, d, a, b);
    }
    SameSplit(a, "." + b, c, "." + d);
    SameSplit(".", b, ".", d);
  }
}
