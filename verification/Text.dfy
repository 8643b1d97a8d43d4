// Strings as the services see them: white-space trimming and currency codes.
module Text {

  /** The white space that Go's unicode.IsSpace accepts. */
  predicate IsSpace(c: char) {
    var n := c as int;
    || 0x09 <= n <= 0x0D || n == 0x20 || n == 0x85 || n == 0xA0 || n == 0x1680
    || 0x2000 <= n <= 0x200A || n == 0x2028 || n == 0x2029 || n == 0x202F || n == 0x205F || n == 0x3000
  }

  /** The code points with the property White_Space. */
  const WHITE_SPACE: set<int> :=
    {0x09, 0x0A, 0x0B, 0x0C, 0x0D, 0x20, 0x85, 0xA0, 0x1680, 0x2000, 0x2001, 0x2002, 0x2003, 0x2004, 0x2005, 0x2006,
     0x2007, 0x2008, 0x2009, 0x200A, 0x2028, 0x2029, 0x202F, 0x205F, 0x3000}

  lemma SpacesAreWhiteSpace(c: char)
    ensures IsSpace(c) <==> c as int in WHITE_SPACE
  {}

  function TrimLeft(s: string): string {
    if s == "" then "" else if IsSpace(s[0]) then TrimLeft(s[1..]) else s
  }

  function TrimRight(s: string): string {
    if s == "" then "" else if IsSpace(s[|s| - 1]) then TrimRight(s[..|s| - 1]) else s
  }

  /** Left trimming cuts off exactly the leading white space. */
  lemma {:induction false} TrimLeftCuts(s: string)
    ensures var r := TrimLeft(s);
      && |r| <= |s| && r == s[|s| - |r|..]
      && (r == "" || !IsSpace(r[0]))
      && forall i | 0 <= i < |s| - |r| :: IsSpace(s[i])
  {
    if s != "" && IsSpace(s[0]) {
      TrimLeftCuts(s[1..]);
      var r := TrimLeft(s);
      assert r == TrimLeft(s[1..]) == s[1..][|s| - 1 - |r|..] == s[|s| - |r|..];
      forall i | 0 <= i < |s| - |r|
        ensures IsSpace(s[i])
      {
        if i > 0 { assert s[i] == s[1..][i - 1]; }
      }
    }
  }

  /** Right trimming cuts off exactly the trailing white space. */
  lemma {:induction false} TrimRightCuts(s: string)
    ensures var r := TrimRight(s);
      && |r| <= |s| && r == s[..|r|]
      && (r == "" || !IsSpace(r[|r| - 1]))
      && forall i | |r| <= i < |s| :: IsSpace(s[i])
  {
    if s != "" && IsSpace(s[|s| - 1]) {
      TrimRightCuts(s[..|s| - 1]);
      var r := TrimRight(s);
      assert r == TrimRight(s[..|s| - 1]) == s[..|s| - 1][..|r|] == s[..|r|];
      forall i | |r| <= i < |s|
        ensures IsSpace(s[i])
      {
        if i < |s| - 1 { assert s[i] == s[..|s| - 1][i]; }
      }
    }
  }

  /** strings.TrimSpace */
  function Trim(s: string): string { TrimRight(TrimLeft(s)) }

  predicate Trimmed(s: string) { s == "" || (!IsSpace(s[0]) && !IsSpace(s[|s| - 1])) }

  /** A non-blank string that trimming leaves alone: what every stored identifier is. */
  predicate Clean(s: string) { s != "" && Trimmed(s) }

  /** Trim always lands on a trimmed string, fixes exactly the trimmed strings, and so is idempotent. */
  lemma TrimFixesExactlyTheTrimmed(s: string)
    ensures Trimmed(Trim(s))
    ensures Trim(s) == s <==> Trimmed(s)
    ensures Trim(Trim(s)) == Trim(s)
  {
    TrimLandsTrimmed(s);
    FixesTrimmed(Trim(s));
    if Trimmed(s) { FixesTrimmed(s); }
  }

  lemma TrimLandsTrimmed(s: string)
    ensures Trimmed(Trim(s))
  {
    TrimLeftCuts(s);
    TrimRightCuts(TrimLeft(s));
  }

  lemma FixesTrimmed(s: string)
    requires Trimmed(s)
    ensures Trim(s) == s
  {
    if s != "" {
      assert TrimLeft(s) == s;
      assert TrimRight(s) == s;
    }
  }

  predicate Blank(s: string) { forall i | 0 <= i < |s| :: IsSpace(s[i]) }

  /** Trimming leaves nothing exactly of the blank strings. */
  lemma BlankTrimsToEmpty(s: string)
    ensures Trim(s) == "" <==> Blank(s)
  {
    TrimLeftCuts(s);
    var l := TrimLeft(s);
    TrimRightCuts(l);
    if l != "" { assert l[0] == s[|s| - |l|]; }
  }

  /** `^[A-Z]{3}$` */
  predicate IsCurrency(s: string) {
    |s| == 3 && forall i | 0 <= i < 3 :: 'A' <= s[i] <= 'Z'
  }

  lemma CapitalLetters(s: string)
    ensures IsCurrency(s) <==> |s| == 3 && forall c | c in s :: 'A' <= c <= 'Z'
  {
    if |s| == 3 && forall c | c in s :: 'A' <= c <= 'Z' {
      assert s[0] in s && s[1] in s && s[2] in s;
    }
  }

  lemma CurrencyIsClean(s: string)
    requires IsCurrency(s)
    ensures Clean(s)
  {
    assert !IsSpace(s[0]) && !IsSpace(s[2]);
  }

  /** Length in UTF-8 bytes, which is what Go's len counts. */
  function ByteLength(s: string): (n: nat)
    ensures |s| <= n <= 4 * |s|
  {
    if s == "" then 0 else CharBytes(s[0]) + ByteLength(s[1..])
  }

  function CharBytes(c: char): nat {
    var n := c as int;
    if n < 0x80 then 1 else if n < 0x800 then 2 else if n < 0x10000 then 3 else 4
  }

  /** How many characters are not white space. */
  function NonSpace(s: string): nat {
    if s == "" then 0 else (if IsSpace(s[0]) then 0 else 1) + NonSpace(s[1..])
  }

  /** Bytes beyond one for each of these: those of white space, and the further ones of wide characters. */
  function Surplus(s: string): nat {
    if s == "" then 0 else CharBytes(s[0]) - (if IsSpace(s[0]) then 0 else 1) + Surplus(s[1..])
  }

  lemma {:induction false} BytesAre(s: string)
    ensures ByteLength(s) == NonSpace(s) + Surplus(s)
  {
    if s != "" { BytesAre(s[1..]); }
  }

  lemma {:induction false} NoSurplus(s: string)
    ensures Surplus(s) == 0 <==> forall i | 0 <= i < |s| :: !IsSpace(s[i]) && s[i] as int < 0x80
  {
    if s != "" {
      NoSurplus(s[1..]);
      assert forall i | 0 <= i < |s| - 1 :: s[1..][i] == s[i + 1];
      assert forall i | 0 < i < |s| :: s[i] == s[1..][i - 1];
    }
  }

  lemma {:induction false} NonSpaceAppend(a: string, b: string)
    ensures NonSpace(a + b) == NonSpace(a) + NonSpace(b)
  {
    if a == "" {
      assert a + b == b;
    } else {
      NonSpaceAppend(a[1..], b);
      assert (a + b)[1..] == a[1..] + b;
    }
  }

  lemma {:induction false} NonSpaceLeft(s: string)
    ensures NonSpace(TrimLeft(s)) == NonSpace(s)
  {
    if s != "" && IsSpace(s[0]) { NonSpaceLeft(s[1..]); }
  }

  lemma {:induction false} NonSpaceRight(s: string)
    ensures NonSpace(TrimRight(s)) == NonSpace(s)
  {
    if s != "" && IsSpace(s[|s| - 1]) {
      var n := |s| - 1;
      NonSpaceRight(s[..n]);
      NonSpaceAppend(s[..n], [s[n]]);
      assert s[..n] + [s[n]] == s && [s[n]][1..] == "";
    }
  }

  /** The bytes of trimmed text, by what is in the text. */
  lemma TrimmedBytes(s: string)
    ensures ByteLength(Trim(s)) == NonSpace(s) + Surplus(Trim(s))
  {
    NonSpaceLeft(s);
    NonSpaceRight(TrimLeft(s));
    BytesAre(Trim(s));
  }

  /** How many code points fit in the payload of n bytes of UTF-8: 7 bits of one, 5 * n + 1 bits of more. */
  function Capacity(n: nat): nat { if n <= 1 then 128 else 2 * Power32(n) }

  function Power32(n: nat): nat { if n == 0 then 1 else 32 * Power32(n - 1) }

  /** The encoding of a character is the shortest that can hold it. */
  lemma ShortestEncoding(c: char)
    ensures var n := ByteLength([c]);
      1 <= n <= 4 && c as int < Capacity(n) && (n > 1 ==> c as int >= Capacity(n - 1))
  {
    assert [c][1..] == "";
    assert Power32(1) == 32 && Power32(2) == 1024 && Power32(3) == 32768 && Power32(4) == 1048576;
  }

  lemma {:induction false} ByteLengthAppend(a: string, b: string)
    ensures ByteLength(a + b) == ByteLength(a) + ByteLength(b)
  {
    if a == "" {
      assert a + b == b;
    } else {
      ByteLengthAppend(a[1..], b);
      assert (a + b)[1..] == a[1..] + b;
    }
  }
}
