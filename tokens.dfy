/** Tokenising and the token validators of the calculator: splitting the
    expression on spaces, `isOperator`, `isContainsAlphabet` and `count`. */
module Tokens {
  import opened Numeric

  // ---------------------------------------------------------------------
  // Splitting on single spaces (`strings.Split(exp, " ")`)
  // ---------------------------------------------------------------------

  /** The pieces of `s` between its spaces, left to right: `n` spaces give
      `n + 1` pieces, and adjacent spaces give empty pieces. */
  function Split(s: string): (parts: seq<string>)
    ensures |parts| >= 1
  {
    if |s| == 0 then [""]
    else
      var rest := Split(s[1..]);
      if s[0] == ' ' then [""] + rest
      else [[s[0]] + rest[0]] + rest[1..]
  }

  /** The pieces put back together with one space between neighbours. */
  function Join(parts: seq<string>): string
    requires |parts| >= 1
  {
    if |parts| == 1 then parts[0] else parts[0] + " " + Join(parts[1..])
  }

  /** Splitting loses nothing: joining the pieces gives the input back. */
  lemma {:induction false} JoinSplit(s: string)
    ensures Join(Split(s)) == s
  {
    if |s| > 0 {
      var rest := Split(s[1..]);
      JoinSplit(s[1..]);
      if s[0] == ' ' {
        assert ([""] + rest)[1..] == rest;
      } else {
        var parts := Split(s);
        if |rest| > 1 {
          assert parts[1..] == rest[1..];
          assert Join(rest) == rest[0] + " " + Join(rest[1..]);
        }
        assert Join(parts) == [s[0]] + Join(rest);
        assert s == [s[0]] + s[1..];
      }
    }
  }

  /** No piece contains a space. */
  lemma {:induction false} SplitHasNoSpaces(s: string)
    ensures forall p :: p in Split(s) ==> ' ' !in p
  {
    if |s| > 0 {
      SplitHasNoSpaces(s[1..]);
      var rest := Split(s[1..]);
      if s[0] != ' ' {
        assert rest[0] in rest;
        forall p | p in Split(s) ensures ' ' !in p {
          if p != [s[0]] + rest[0] {
            assert p in rest[1..];
          }
        }
      }
    }
  }

  /** Splitting a word without spaces followed by more text extends the
      first piece of the text by that word. */
  lemma {:induction false} SplitAfterWord(w: string, s: string)
    requires ' ' !in w
    ensures Split(w + s) == [w + Split(s)[0]] + Split(s)[1..]
  {
    if |w| > 0 {
      assert (w + s)[1..] == w[1..] + s;
      assert w[0] == w[0] && w[0] in w;
      SplitAfterWord(w[1..], s);
      assert [w[0]] + (w[1..] + Split(s)[0]) == w + Split(s)[0];
    } else {
      assert w + s == s;
      assert w + Split(s)[0] == Split(s)[0];
      assert Split(s) == [Split(s)[0]] + Split(s)[1..];
    }
  }

  /** Joining pieces that have no spaces and splitting again gives the
      same pieces: `Split` and `Join` are inverse on such sequences. */
  lemma {:induction false} SplitJoin(parts: seq<string>)
    requires |parts| >= 1
    requires forall p :: p in parts ==> ' ' !in p
    ensures Split(Join(parts)) == parts
  {
    if |parts| == 1 {
      SplitAfterWord(parts[0], "");
      assert parts[0] + "" == parts[0];
    } else {
      var rest := parts[1..];
      assert forall p :: p in rest ==> p in parts;
      SplitJoin(rest);
      var tail := " " + Join(rest);
      assert tail[1..] == Join(rest);
      assert Split(tail) == [""] + rest;
      assert parts[0] + " " + Join(rest) == parts[0] + tail;
      SplitAfterWord(parts[0], tail);
      assert parts[0] + "" == parts[0];
      assert ([""] + rest)[1..] == rest;
    }
  }

  /** An expression without spaces is one token, itself; one with a space
      has at least two tokens. */
  lemma SplitSingle(s: string)
    ensures |Split(s)| == 1 <==> ' ' !in s
    ensures |Split(s)| == 1 ==> Split(s) == [s]
  {
    JoinSplit(s);
    SplitHasNoSpaces(s);
    if |Split(s)| == 1 {
      assert Split(s)[0] in Split(s);
    }
    if ' ' !in s {
      SplitJoin([s]);
    }
  }

  // ---------------------------------------------------------------------
  // Operators (`isOperator`)
  // ---------------------------------------------------------------------

  /** One of the four operator symbols. */
  function IsOperator(s: string): (b: bool)
    ensures b <==> |s| == 1 && s[0] in "+-*/"
  {
    s == "+" || s == "-" || s == "*" || s == "/"
  }

  /** Under a sound parser no token is both a number and an operator. */
  lemma OperatorIsNotNumber<V>(ar: Arithmetic<V>, s: string)
    requires Sound(ar)
    ensures IsOperator(s) ==> !ar.isNum(s)
    ensures IsOperator(s) ==> |s| == 1
  {
  }

  // ---------------------------------------------------------------------
  // Letters (`isContainsAlphabet`)
  // ---------------------------------------------------------------------

  const Alphabet: string := "abcdefghijklmnopqrstuvwxyz"

  /** ASCII lower-casing of one character. */
  function ToLower(c: char): char {
    if 'A' <= c <= 'Z' then (c as int - 'A' as int + 'a' as int) as char else c
  }

  /** A character whose lower-case form lies in the range of `Alphabet`. */
  function IsLetter(c: char): (b: bool)
    ensures b <==> ('a' <= c <= 'z' || 'A' <= c <= 'Z')
  {
    'a' <= ToLower(c) <= 'z'
  }

  /** The letter test is the source's membership test of the lower-cased
      character in the alphabet. */
  lemma IsLetterAlphabet(c: char)
    ensures IsLetter(c) <==> ToLower(c) in Alphabet
  {
    assert forall k :: 0 <= k < 26 ==> Alphabet[k] as int == 'a' as int + k;
    var d := ToLower(c);
    if 'a' <= d <= 'z' {
      assert Alphabet[d as int - 'a' as int] == d;
    }
  }

  /** Some character of `s` is a letter. */
  function HasLetter(s: string): (b: bool)
    ensures b <==> exists i :: 0 <= i < |s| && ('a' <= s[i] <= 'z' || 'A' <= s[i] <= 'Z')
  {
    exists i :: 0 <= i < |s| && IsLetter(s[i])
  }

  /** White space as `strings.TrimSpace` removes it (its Latin-1 part). */
  predicate IsSpace(c: char) {
    c == ' ' || c == '\t' || c == '\n' || c == '\r' || c == '\U{B}' || c == '\U{C}'
    || c == '\U{85}' || c == '\U{A0}'
  }

  function TrimLeft(s: string): (r: string)
    ensures |r| <= |s| && r == s[|s| - |r|..]
    ensures forall k :: 0 <= k < |s| - |r| ==> IsSpace(s[k])
    ensures |r| > 0 ==> !IsSpace(r[0])
  {
    if |s| > 0 && IsSpace(s[0]) then TrimLeft(s[1..]) else s
  }

  function TrimRight(s: string): (r: string)
    ensures |r| <= |s| && r == s[..|r|]
    ensures forall k :: |r| <= k < |s| ==> IsSpace(s[k])
    ensures |r| > 0 ==> !IsSpace(r[|r| - 1])
  {
    if |s| > 0 && IsSpace(s[|s| - 1]) then TrimRight(s[..|s| - 1]) else s
  }

  /** `strings.TrimSpace`: drops leading and trailing white space. */
  function TrimSpace(s: string): string {
    TrimRight(TrimLeft(s))
  }

  /** Trimming removes white space and only white space: the result is a
      slice `s[k..k + |r|]` with nothing but white space before and after
      it, and it neither starts nor ends with white space. */
  lemma TrimSpaceRemovesOnlySpace(s: string)
    ensures var r := TrimSpace(s); var k := |s| - |TrimLeft(s)|;
      && k + |r| <= |s| && r == s[k..k + |r|]
      && (forall i :: 0 <= i < k ==> IsSpace(s[i]))
      && (forall i :: k + |r| <= i < |s| ==> IsSpace(s[i]))
      && (|r| > 0 ==> !IsSpace(r[0]) && !IsSpace(r[|r| - 1]))
  {
    var left := TrimLeft(s);
    var r := TrimRight(left);
    var k := |s| - |left|;
    SliceOfSlice(s, left, r, k);
    forall i | k + |r| <= i < |s|
      ensures IsSpace(s[i])
    {
      assert s[i] == left[i - k];
    }
    assert |r| > 0 ==> r[0] == left[0];
  }

  /** A prefix of a suffix is a slice. */
  lemma SliceOfSlice(s: string, left: string, r: string, k: nat)
    requires k <= |s| && left == s[k..] && |r| <= |left| && r == left[..|r|]
    ensures r == s[k..k + |r|]
  {
  }

  lemma SpaceIsNotLetter(c: char)
    ensures IsSpace(c) ==> !IsLetter(c)
  {
    IsLetterAlphabet(c);
  }

  lemma {:induction false} TrimLeftKeepsLetters(s: string)
    ensures HasLetter(TrimLeft(s)) <==> HasLetter(s)
  {
    if |s| > 0 && IsSpace(s[0]) {
      TrimLeftKeepsLetters(s[1..]);
      SpaceIsNotLetter(s[0]);
      if HasLetter(s) {
        var i :| 0 <= i < |s| && IsLetter(s[i]);
        assert s[1..][i - 1] == s[i];
      }
      if HasLetter(s[1..]) {
        var i :| 0 <= i < |s| - 1 && IsLetter(s[1..][i]);
        assert s[i + 1] == s[1..][i];
      }
    }
  }

  lemma {:induction false} TrimRightKeepsLetters(s: string)
    ensures HasLetter(TrimRight(s)) <==> HasLetter(s)
  {
    if |s| > 0 && IsSpace(s[|s| - 1]) {
      var p := s[..|s| - 1];
      TrimRightKeepsLetters(p);
      SpaceIsNotLetter(s[|s| - 1]);
      if HasLetter(s) {
        var i :| 0 <= i < |s| && IsLetter(s[i]);
        assert p[i] == s[i];
      }
      if HasLetter(p) {
        var i :| 0 <= i < |p| && IsLetter(p[i]);
        assert s[i] == p[i];
      }
    }
  }

  /** Trimming white space never changes whether a letter is present. */
  lemma TrimSpaceKeepsLetters(s: string)
    ensures HasLetter(TrimSpace(s)) <==> HasLetter(s)
  {
    TrimLeftKeepsLetters(s);
    TrimRightKeepsLetters(TrimLeft(s));
  }

  /** `isContainsAlphabet`: scans the trimmed expression and stops at the
      first letter. */
  method ContainsAlphabet(s: string) returns (found: bool)
    ensures found <==> HasLetter(s)
  {
    var t := TrimSpace(s);
    TrimSpaceKeepsLetters(s);
    for i := 0 to |t|
      invariant forall k :: 0 <= k < i ==> !IsLetter(t[k])
    {
      if IsLetter(t[i]) {
        assert HasLetter(t);
        return true;
      }
    }
    assert !HasLetter(t);
    return false;
  }

  // ---------------------------------------------------------------------
  // Counting (`count`)
  // ---------------------------------------------------------------------

  /** Number of tokens the parser accepts as numbers. */
  function Numbers<V>(ar: Arithmetic<V>, s: seq<string>): (n: nat)
    ensures n <= |s|
  {
    if s == [] then 0 else (if ar.isNum(s[0]) then 1 else 0) + Numbers(ar, s[1..])
  }

  /** Number of operator tokens. */
  function Operators(s: seq<string>): (n: nat)
    ensures n <= |s|
  {
    if s == [] then 0 else (if IsOperator(s[0]) then 1 else 0) + Operators(s[1..])
  }

  /** Number of tokens that are neither numbers nor operators
      (for instance the empty token between two adjacent spaces). */
  function Others<V>(ar: Arithmetic<V>, s: seq<string>): nat {
    if s == [] then 0
    else (if !ar.isNum(s[0]) && !IsOperator(s[0]) then 1 else 0) + Others(ar, s[1..])
  }

  /** A count is zero exactly when no token is of its kind, and it equals
      the length exactly when every token is. */
  lemma {:induction false} CountsZeroOrAll<V>(ar: Arithmetic<V>, s: seq<string>)
    ensures Numbers(ar, s) == 0 <==> forall i :: 0 <= i < |s| ==> !ar.isNum(s[i])
    ensures Numbers(ar, s) == |s| <==> forall i :: 0 <= i < |s| ==> ar.isNum(s[i])
    ensures Operators(s) == 0 <==> forall i :: 0 <= i < |s| ==> !IsOperator(s[i])
    ensures Operators(s) == |s| <==> forall i :: 0 <= i < |s| ==> IsOperator(s[i])
  {
    if s != [] {
      CountsZeroOrAll(ar, s[1..]);
      assert forall i :: 1 <= i < |s| ==> s[i] == s[1..][i - 1];
    }
  }

  /** The three counts add up over concatenation. */
  lemma {:induction false} CountsAppend<V>(ar: Arithmetic<V>, a: seq<string>, b: seq<string>)
    ensures Numbers(ar, a + b) == Numbers(ar, a) + Numbers(ar, b)
    ensures Operators(a + b) == Operators(a) + Operators(b)
    ensures Others(ar, a + b) == Others(ar, a) + Others(ar, b)
  {
    if a != [] {
      assert (a + b)[1..] == a[1..] + b;
      CountsAppend(ar, a[1..], b);
    } else {
      assert a + b == b;
    }
  }

  /** Under a sound parser every token is counted exactly once, as a
      number, an operator or something else. */
  lemma {:induction false} CountsPartition<V>(ar: Arithmetic<V>, s: seq<string>)
    requires Sound(ar)
    ensures Numbers(ar, s) + Operators(s) + Others(ar, s) == |s|
  {
    if s != [] {
      OperatorIsNotNumber(ar, s[0]);
      CountsPartition(ar, s[1..]);
    }
  }

  /** `count`: numbers exceed operators by exactly one. */
  method Count<V>(ar: Arithmetic<V>, s: seq<string>) returns (ok: bool)
    ensures ok <==> Numbers(ar, s) - Operators(s) == 1
  {
    var nAngka := 0;
    var nOperator := 0;
    for i := 0 to |s|
      invariant nAngka == Numbers(ar, s[..i])
      invariant nOperator == Operators(s[..i])
    {
      CountsAppend(ar, s[..i], [s[i]]);
      assert s[..i + 1] == s[..i] + [s[i]];
      if ar.isNum(s[i]) {
        nAngka := nAngka + 1;
      }
      if IsOperator(s[i]) {
        nOperator := nOperator + 1;
      }
    }
    assert s[..|s|] == s;
    return nAngka - nOperator == 1;
  }
}
