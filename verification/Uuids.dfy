// Text in a UUID column: what PostgreSQL's input function for the type uuid accepts, and the text
// in which it gives a value back.
module Uuids {
  import opened Text
  import opened Wrappers

  predicate IsHex(c: char) { '0' <= c <= '9' || 'a' <= c <= 'f' || 'A' <= c <= 'F' }

  function Lower(c: char): char { if 'A' <= c <= 'F' then c + 32 as char else c }

  /** The text given back for s, with n digits read before it: 32 digits in all, with a hyphen allowed
      after every fourth but the last; lower-case digits, with hyphens after 8, 12, 16 and 20 of them. */
  function Read(s: string, n: nat, hyphen: bool): Option<string>
    decreases |s|
  {
    if s == "" then if n == 32 then Some("") else None
    else if s[0] == '-' then if hyphen && n % 4 == 0 && 0 < n < 32 then Read(s[1..], n, false) else None
    else if !IsHex(s[0]) then None
    else match Read(s[1..], n + 1, true)
         case Some(rest) => Some((if n in {8, 12, 16, 20} then ['-', Lower(s[0])] else [Lower(s[0])]) + rest)
         case None => None
  }

  /** The text without a pair of braces around it. */
  function Unbraced(s: string): string {
    if |s| >= 2 && s[0] == '{' && s[|s| - 1] == '}' then s[1..|s| - 1] else s
  }

  /** The n-th identifier of an endless supply of distinct ones. The column does not take those after
      the first, which are longer than a UUID, and stands for one that does. */
  function Uuid(n: nat): (id: string)
    ensures |id| == n + 36 && Clean(id)
  {
    "ffffffff-ffff-ffff-ffff-ffffffffffff" + seq(n, _ => 'f')
  }

  predicate InSupply(s: string) { |s| >= 36 && s == Uuid(|s| - 36) }

  /** The text that the column gives back for this one, or None if it refuses it. */
  function Canonical(s: string): Option<string> {
    if InSupply(s) then Some(s) else Read(Unbraced(s), 0, false)
  }

  /** Text that the column stores as it is. */
  predicate IsUuid(s: string) { Canonical(s) == Some(s) }

  lemma LowerHex(c: char)
    requires IsHex(c)
    ensures IsHex(Lower(c)) && Lower(Lower(c)) == Lower(c) && Lower(c) != '-'
  {}

  lemma ReadDigit(x: char, rest: string, n: nat, hyphen: bool)
    requires IsHex(x) && Lower(x) == x && x != '-' && Read(rest, n + 1, true) == Some(rest)
    ensures Read([x] + rest, n, hyphen) == Some((if n in {8, 12, 16, 20} then ['-', x] else [x]) + rest)
  {
    assert ([x] + rest)[1..] == rest;
  }

  lemma ReadHyphen(s: string, n: nat)
    requires n in {8, 12, 16, 20}
    ensures Read(['-'] + s, n, true) == Read(s, n, false)
  {
    assert (['-'] + s)[1..] == s;
  }

  /** The text of a UUID: 36 characters, hyphens at 8, 13, 18 and 23, lower-case digits elsewhere. */
  predicate IsCanonical(s: string) { |s| == 36 && CanonicalFrom(s, 0) }

  /** So it is of a text whose first character stands at this place. */
  predicate CanonicalFrom(s: string, place: nat) {
    forall i | 0 <= i < |s| ::
      if place + i in {8, 13, 18, 23} then s[i] == '-' else CanonicalDigit(s[i])
  }

  /** Where the text for the digits from number n on begins, with the hyphen before it. */
  function Place(n: nat): nat {
    if n <= 8 then n else if n <= 12 then n + 1 else if n <= 16 then n + 2 else if n <= 20 then n + 3 else n + 4
  }

  lemma {:induction false} ReadIsCanonical(s: string, n: nat, hyphen: bool)
    requires Read(s, n, hyphen).Some?
    ensures n <= 32 && |Read(s, n, hyphen).value| == 36 - Place(n)
    ensures CanonicalFrom(Read(s, n, hyphen).value, Place(n))
    decreases |s|
  {
    if s != "" {
      if s[0] == '-' {
        ReadIsCanonical(s[1..], n, false);
      } else {
        ReadIsCanonical(s[1..], n + 1, true);
        var rest, x := Read(s[1..], n + 1, true).value, Lower(s[0]);
        assert forall i | 0 < i <= |rest| :: ([x] + rest)[i] == rest[i - 1];
        assert forall i | 1 < i <= |rest| + 1 :: (['-', x] + rest)[i] == rest[i - 2];
      }
    }
  }

  /** The digits of a text, in lower case. */
  function Digits(s: string): string {
    if s == "" then "" else (if s[0] == '-' then "" else [Lower(s[0])]) + Digits(s[1..])
  }

  lemma DigitsOfFirst(c: char, rest: string)
    ensures Digits([c] + rest) == (if c == '-' then "" else [Lower(c)]) + Digits(rest)
  {
    assert ([c] + rest)[1..] == rest;
  }

  lemma {:induction false} ReadKeepsDigits(s: string, n: nat, hyphen: bool)
    requires Read(s, n, hyphen).Some?
    ensures Digits(Read(s, n, hyphen).value) == Digits(s)
    decreases |s|
  {
    if s != "" {
      if s[0] == '-' {
        ReadKeepsDigits(s[1..], n, false);
      } else {
        ReadKeepsDigits(s[1..], n + 1, true);
        LowerHex(s[0]);
        var rest, x := Read(s[1..], n + 1, true).value, Lower(s[0]);
        DigitsOfFirst(x, rest);
        DigitsOfFirst('-', [x] + rest);
        assert ['-'] + ([x] + rest) == ['-', x] + rest;
      }
    }
  }

  lemma CanonicalTail(s: string, place: nat, k: nat)
    requires CanonicalFrom(s, place) && k <= |s|
    ensures CanonicalFrom(s[k..], place + k)
  {
    assert forall i | 0 <= i < |s| - k :: s[k..][i] == s[k + i];
  }

  /** Canonical text is read as it is, from every place that is not behind a hyphen. */
  lemma {:induction false} ReadsCanonical(s: string, n: nat, hyphen: bool)
    requires n <= 32 && |s| == 36 - Place(n) && CanonicalFrom(s, Place(n)) && (n in {8, 12, 16, 20} ==> hyphen)
    ensures Read(s, n, hyphen) == Some(s)
    decreases |s|
  {
    if n in {8, 12, 16, 20} {
      CanonicalTail(s, Place(n), 2);
      ReadsCanonical(s[2..], n + 1, true);
      assert CanonicalDigit(s[1]);
      ReadDigit(s[1], s[2..], n, false);
      ReadHyphen([s[1]] + s[2..], n);
      assert ['-', s[1]] + s[2..] == s == ['-'] + ([s[1]] + s[2..]);
    } else if n < 32 {
      CanonicalTail(s, Place(n), 1);
      ReadsCanonical(s[1..], n + 1, true);
      assert CanonicalDigit(s[0]);
      ReadDigit(s[0], s[1..], n, hyphen);
      assert [s[0]] + s[1..] == s;
    }
  }

  /** k groups of four digits in either case, and between any two of them a hyphen or none. */
  predicate Groups(s: string, k: nat) {
    if k == 0 then s == "" else
      && |s| >= 4 && IsHex(s[0]) && IsHex(s[1]) && IsHex(s[2]) && IsHex(s[3])
      && (Groups(s[4..], k - 1) || (k > 1 && |s| > 4 && s[4] == '-' && Groups(s[5..], k - 1)))
  }

  /** Where no hyphen is allowed, or none stands. */
  lemma OneDigit(s: string, n: nat, hyphen: bool)
    requires n % 4 != 0 || (s != "" ==> s[0] != '-')
    ensures Read(s, n, hyphen).Some? <==>
      if s == "" then n == 32 else IsHex(s[0]) && Read(s[1..], n + 1, true).Some?
  {}

  lemma FourDigits(s: string, n: nat, hyphen: bool)
    requires n % 4 == 0 && (s != "" ==> s[0] != '-')
    ensures Read(s, n, hyphen).Some? <==>
      if s == "" then n == 32
      else |s| >= 4 && IsHex(s[0]) && IsHex(s[1]) && IsHex(s[2]) && IsHex(s[3]) && Read(s[4..], n + 4, true).Some?
  {
    OneDigit(s, n, hyphen);
    if s != "" {
      OneDigit(s[1..], n + 1, true);
      if |s| > 1 {
        assert s[1..][1..] == s[2..];
        OneDigit(s[2..], n + 2, true);
        if |s| > 2 {
          assert s[2..][1..] == s[3..];
          OneDigit(s[3..], n + 3, true);
          if |s| > 3 { assert s[3..][1..] == s[4..]; }
        }
      }
    }
  }

  /** Exactly such text is read: eight groups of four digits. */
  lemma {:induction false} ReadsGroups(s: string, k: nat)
    requires k <= 8
    ensures Read(s, 32 - 4 * k, false).Some? <==> Groups(s, k)
    ensures k < 8 ==> (Read(s, 32 - 4 * k, true).Some? <==>
      Groups(s, k) || (k > 0 && s != "" && s[0] == '-' && Groups(s[1..], k)))
    decreases |s|
  {
    if s != "" && s[0] == '-' {
      ReadsGroups(s[1..], k);
    } else {
      FourDigits(s, 32 - 4 * k, false);
      FourDigits(s, 32 - 4 * k, true);
      if k == 0 {
        if Read(s, 32, true).Some? { ReadIsCanonical(s, 32, true); }
      } else if |s| >= 4 {
        ReadsGroups(s[4..], k - 1);
        assert |s| > 4 ==> s[4..][0] == s[4] && s[4..][1..] == s[5..];
      }
    }
  }

  predicate CanonicalDigit(c: char) { '0' <= c <= '9' || 'a' <= c <= 'f' }

  /** Which text the column takes: eight groups of four digits, with or without braces around them. */
  lemma TakenText(s: string)
    requires !InSupply(s)
    ensures Canonical(s).Some? <==> Groups(s, 8) || (Braced(s) && Groups(s[1..|s| - 1], 8))
  {
    if Braced(s) {
      ReadsGroups(s[1..|s| - 1], 8);
      NoBraceInGroups(s, 8);
    } else {
      ReadsGroups(s, 8);
    }
  }

  predicate Braced(s: string) { |s| >= 2 && s[0] == '{' && s[|s| - 1] == '}' }

  lemma NoBraceInGroups(s: string, k: nat)
    requires k > 0 && s != "" && s[0] == '{'
    ensures !Groups(s, k)
  {}

  /** What the column stores as it is, and what it gives back for another text that it takes: the UUID of
      the same digits. */
  lemma CanonicalText(s: string)
    requires !InSupply(s)
    ensures IsUuid(s) <==> IsCanonical(s)
    ensures Canonical(s).Some? ==>
      var c := Canonical(s).value; IsCanonical(c) && Canonical(c) == Some(c) && Digits(c) == Digits(Unbraced(s))
  {
    if Canonical(s).Some? {
      ReadIsCanonical(Unbraced(s), 0, false);
      ReadKeepsDigits(Unbraced(s), 0, false);
      StoredAsItIs(Canonical(s).value);
    }
    if IsCanonical(s) { StoredAsItIs(s); }
  }

  lemma StoredAsItIs(s: string)
    requires IsCanonical(s)
    ensures Canonical(s) == Some(s)
  {
    ReadsCanonical(s, 0, false);
    NoBraces(s);
  }

  /** The column gives back clean text that it stores as it is, of 36 characters unless it is in the
      supply, and it refuses every text with white space around it. */
  lemma CanonicalIsUuid(s: string)
    ensures Canonical(s).Some? ==> IsUuid(Canonical(s).value) && Clean(Canonical(s).value) && Clean(s)
    ensures Canonical(s).Some? ==> InSupply(s) || |Canonical(s).value| == 36
  {
    if Canonical(s).Some? && !InSupply(s) {
      CanonicalText(s);
      HexEnds(Unbraced(s), 0, false);
      var c := Canonical(s).value;
      assert CanonicalDigit(c[0]) && CanonicalDigit(c[35]);
    }
  }

  lemma NoBraces(s: string)
    requires s != "" && IsHex(s[0])
    ensures Unbraced(s) == s
  {}

  lemma {:induction false} HexEnds(s: string, n: nat, hyphen: bool)
    requires Read(s, n, hyphen).Some? && s != ""
    ensures !IsSpace(s[0]) && !IsSpace(s[|s| - 1])
    decreases |s|
  {
    if |s| > 1 {
      if s[0] == '-' { HexEnds(s[1..], n, false); } else { HexEnds(s[1..], n + 1, true); }
    }
  }

  lemma UuidIsUuid(n: nat)
    ensures IsUuid(Uuid(n))
  {
    assert InSupply(Uuid(n));
  }
}
