/**
 The string functions that the proxy and the client use: letter case, white
 space, suffixes and the last colon. Letter case and white space are ASCII.
 */
module Strings {
  import opened Results

  // ---------------------------------------------------------------------------
  // Letter case

  const UPPER := "ABCDEFGHIJKLMNOPQRSTUVWXYZ"
  const LOWER := "abcdefghijklmnopqrstuvwxyz"

  function LowerChar(c: char): char {
    if 'A' <= c <= 'Z' then c + 32 as char else c
  }

  /** `strings.ToLower`. */
  function ToLower(s: string): string {
    seq(|s|, i requires 0 <= i < |s| => LowerChar(s[i]))
  }

  /** The capital and the small form of one letter. */
  predicate Cases(i: nat, capital: char, small: char) {
    i < 26 && capital == UPPER[i] && small == LOWER[i]
  }

  ghost predicate SameLetter(a: char, b: char) {
    a == b || exists i :: Cases(i, a, b) || Cases(i, b, a)
  }

  /** The two strings differ in letter case at most. */
  ghost predicate EqualFold(s: string, t: string) {
    |s| == |t| && forall i | 0 <= i < |s| :: SameLetter(s[i], t[i])
  }

  predicate NoCapitals(s: string) {
    forall i | 0 <= i < |s| :: s[i] !in UPPER
  }

  lemma Letter(i: nat)
    requires i < 26
    ensures UPPER[i] as int == 65 + i && LOWER[i] as int == 97 + i
  {
  }

  lemma CasesIff(i: nat, capital: char, small: char)
    ensures Cases(i, capital, small) <==> i < 26 && capital as int == 65 + i && small as int == 97 + i
  {
    if i < 26 {
      Letter(i);
    }
  }

  lemma CapitalIff(c: char)
    ensures c in UPPER <==> 'A' <= c <= 'Z'
  {
    if 'A' <= c <= 'Z' {
      Letter(c as int - 65);
      assert UPPER[c as int - 65] == c;
    }
  }

  /** Two characters have the same lower case exactly when they are the same letter. */
  lemma LowerCharIff(a: char, b: char)
    ensures LowerChar(a) == LowerChar(b) <==> SameLetter(a, b)
  {
    if LowerChar(a) == LowerChar(b) && a != b {
      var i: nat := if 'A' <= a <= 'Z' then a as int - 65 else b as int - 65;
      CasesIff(i, a, b);
      CasesIff(i, b, a);
    }
    forall i: nat | Cases(i, a, b) || Cases(i, b, a)
      ensures LowerChar(a) == LowerChar(b)
    {
      CasesIff(i, a, b);
      CasesIff(i, b, a);
    }
  }

  lemma LowerCharIsSmall(c: char)
    ensures LowerChar(c) !in UPPER && (c !in UPPER ==> LowerChar(c) == c)
  {
    CapitalIff(c);
    CapitalIff(LowerChar(c));
  }

  /** Strings have the same lower case exactly when they differ in letter case at most. */
  lemma ToLowerIff(s: string, t: string)
    ensures ToLower(s) == ToLower(t) <==> EqualFold(s, t)
  {
    forall i | 0 <= i < |s| && i < |t|
      ensures ToLower(s)[i] == ToLower(t)[i] <==> SameLetter(s[i], t[i])
    {
      LowerCharIff(s[i], t[i]);
    }
    if EqualFold(s, t) {
      assert forall i | 0 <= i < |s| :: ToLower(s)[i] == ToLower(t)[i];
    }
    if ToLower(s) == ToLower(t) {
      assert |s| == |ToLower(s)| == |ToLower(t)| == |t|;
    }
  }

  /** The lower case has no capitals, and a string without capitals is its own. */
  lemma ToLowerIsSmall(s: string)
    ensures NoCapitals(ToLower(s)) && (NoCapitals(s) ==> ToLower(s) == s)
  {
    forall i | 0 <= i < |s|
      ensures ToLower(s)[i] !in UPPER && (s[i] !in UPPER ==> ToLower(s)[i] == s[i])
    {
      LowerCharIsSmall(s[i]);
    }
  }

  lemma LowerOfParts(a: string, b: string)
    ensures ToLower(a + b) == ToLower(a) + ToLower(b)
  {
  }

  /** What is not a letter has no other form. */
  lemma OneForm(a: char, b: char)
    requires SameLetter(a, b) && LowerChar(a) == a && !('a' <= a <= 'z')
    ensures a == b
  {
    LowerCharIff(a, b);
  }

  // ---------------------------------------------------------------------------
  // White space

  const SPACES := [' ', '\t', '\n', '\U{B}', '\U{C}', '\r']

  predicate IsSpace(c: char) {
    c == ' ' || 9 as char <= c <= 13 as char
  }

  function TrimLeft(s: string): string {
    if s != "" && IsSpace(s[0]) then TrimLeft(s[1..]) else s
  }

  function TrimRight(s: string): string {
    if s != "" && IsSpace(s[|s| - 1]) then TrimRight(s[..|s| - 1]) else s
  }

  /** `strings.TrimSpace`. */
  function TrimSpace(s: string): string {
    TrimRight(TrimLeft(s))
  }

  lemma IsSpaceIff(c: char)
    ensures IsSpace(c) <==> c in SPACES
  {
    if IsSpace(c) {
      var n := c as int;
      assert c == SPACES[if n == 32 then 0 else n - 8];
    }
  }

  predicate AllSpaces(s: string) {
    forall i | 0 <= i < |s| :: s[i] in SPACES
  }

  /** String `t` does not start or end with white space. */
  predicate Tidy(t: string) {
    t == "" || (t[0] !in SPACES && t[|t| - 1] !in SPACES)
  }

  lemma {:induction false} TrimLeftDropsSpaces(a: string, t: string)
    requires AllSpaces(a) && (t == "" || t[0] !in SPACES)
    ensures TrimLeft(a + t) == t
    decreases |a|
  {
    if a == "" {
      assert a + t == t;
      if t != "" {
        IsSpaceIff(t[0]);
      }
    } else {
      IsSpaceIff(a[0]);
      assert (a + t)[1..] == a[1..] + t;
      TrimLeftDropsSpaces(a[1..], t);
    }
  }

  lemma {:induction false} TrimRightDropsSpaces(t: string, b: string)
    requires AllSpaces(b) && (t == "" || t[|t| - 1] !in SPACES)
    ensures TrimRight(t + b) == t
    decreases |b|
  {
    var s := t + b;
    if b == "" {
      assert s == t;
      if t != "" {
        IsSpaceIff(t[|t| - 1]);
      }
    } else {
      IsSpaceIff(b[|b| - 1]);
      assert s[|s| - 1] == b[|b| - 1] && s[..|s| - 1] == t + b[..|b| - 1];
      TrimRightDropsSpaces(t, b[..|b| - 1]);
    }
  }

  /** White space around a tidy string is trimmed off, and nothing else. */
  lemma TrimmedOff(a: string, t: string, b: string)
    requires AllSpaces(a) && Tidy(t) && AllSpaces(b)
    ensures TrimSpace(a + t + b) == t
  {
    if t == "" {
      assert a + t + b == (a + b) + "";
      TrimLeftDropsSpaces(a + b, "");
    } else {
      assert a + t + b == a + (t + b) && (t + b)[0] == t[0];
      TrimLeftDropsSpaces(a, t + b);
      TrimRightDropsSpaces(t, b);
    }
  }

  lemma {:induction false} TrimLeftParts(s: string) returns (a: string)
    ensures AllSpaces(a) && s == a + TrimLeft(s) && (TrimLeft(s) == "" || TrimLeft(s)[0] !in SPACES)
    decreases |s|
  {
    if s == "" {
      a := "";
    } else {
      IsSpaceIff(s[0]);
      if IsSpace(s[0]) {
        var rest := TrimLeftParts(s[1..]);
        a := [s[0]] + rest;
      } else {
        a := "";
      }
    }
  }

  lemma {:induction false} TrimRightParts(s: string) returns (b: string)
    ensures AllSpaces(b) && s == TrimRight(s) + b
    ensures TrimRight(s) == "" || TrimRight(s)[|TrimRight(s)| - 1] !in SPACES
    decreases |s|
  {
    if s == "" {
      b := "";
    } else {
      IsSpaceIff(s[|s| - 1]);
      if IsSpace(s[|s| - 1]) {
        var rest := TrimRightParts(s[..|s| - 1]);
        b := rest + [s[|s| - 1]];
        assert s == s[..|s| - 1] + [s[|s| - 1]];
      } else {
        b := "";
      }
    }
  }

  /** What is left is tidy, and what was there besides is white space around it. */
  lemma TrimSpaceParts(s: string) returns (a: string, b: string)
    ensures AllSpaces(a) && Tidy(TrimSpace(s)) && AllSpaces(b) && s == a + TrimSpace(s) + b
  {
    a := TrimLeftParts(s);
    b := TrimRightParts(TrimLeft(s));
    assert s == a + (TrimSpace(s) + b);
    if TrimSpace(s) != "" {
      assert TrimLeft(s)[0] == TrimSpace(s)[0];
    }
  }

  lemma SpaceHasOneForm(a: char, b: char)
    requires SameLetter(a, b)
    ensures IsSpace(a) <==> IsSpace(b)
  {
    LowerCharIff(a, b);
  }

  lemma {:induction false} TrimLeftFolds(s: string, t: string)
    requires EqualFold(s, t)
    ensures EqualFold(TrimLeft(s), TrimLeft(t))
    decreases |s|
  {
    if s == "" {
    } else {
      SpaceHasOneForm(s[0], t[0]);
      if IsSpace(s[0]) {
        TrimLeftFolds(s[1..], t[1..]);
      }
    }
  }

  lemma {:induction false} TrimRightFolds(s: string, t: string)
    requires EqualFold(s, t)
    ensures EqualFold(TrimRight(s), TrimRight(t))
    decreases |s|
  {
    if s == "" {
    } else {
      SpaceHasOneForm(s[|s| - 1], t[|t| - 1]);
      if IsSpace(s[|s| - 1]) {
        TrimRightFolds(s[..|s| - 1], t[..|t| - 1]);
      }
    }
  }

  lemma TrimSpaceFolds(s: string, t: string)
    requires EqualFold(s, t)
    ensures EqualFold(TrimSpace(s), TrimSpace(t))
  {
    TrimLeftFolds(s, t);
    TrimRightFolds(TrimLeft(s), TrimLeft(t));
  }

  // ---------------------------------------------------------------------------
  // Suffixes and colons

  predicate HasSuffix(s: string, suffix: string) {
    |suffix| <= |s| && s[|s| - |suffix|..] == suffix
  }

  /** `strings.LastIndex(s, ":")`. */
  function LastColon(s: string): (r: Option<nat>)
    ensures r.Some? ==> r.value < |s| && s[r.value] == ':' && ':' !in s[r.value + 1..]
    ensures r.None? ==> ':' !in s
  {
    if s == "" then None
    else if s[|s| - 1] == ':' then Some(|s| - 1)
    else
      var r := LastColon(s[..|s| - 1]);
      assert s == s[..|s| - 1] + [s[|s| - 1]];
      assert r.Some? ==> s[r.value + 1..] == s[..|s| - 1][r.value + 1..] + [s[|s| - 1]];
      r
  }

  lemma LastColonAt(s: string, i: nat)
    requires i < |s| && s[i] == ':' && ':' !in s[i + 1..]
    ensures LastColon(s) == Some(i)
  {
    assert s[i] in s;
  }
}
