/** The JavaScript string built-ins the core relies on: `trim`, `toUpperCase`,
    `includes`, and the falsiness of an absent or empty string. */
module Text {
  import opened Results

  /** The characters `String.prototype.trim` removes: ECMAScript WhiteSpace
      (including every space separator) and LineTerminator. */
  predicate IsWhiteSpace(c: char) {
    || c == '\t' || c == '\n' || c == '\U{000B}' || c == '\U{000C}' || c == '\r'
    || c == ' ' || c == '\U{00A0}' || c == '\U{1680}'
    || ('\U{2000}' <= c <= '\U{200A}')
    || c == '\U{2028}' || c == '\U{2029}' || c == '\U{202F}' || c == '\U{205F}'
    || c == '\U{3000}' || c == '\U{FEFF}'
  }

  predicate AllWhiteSpace(s: string) {
    forall i :: 0 <= i < |s| ==> IsWhiteSpace(s[i])
  }

  /** Number of leading white-space characters of `s`. */
  function LeadingWhiteSpace(s: string): (k: nat)
    ensures k <= |s| && AllWhiteSpace(s[..k])
    ensures k == |s| || !IsWhiteSpace(s[k])
    decreases |s|
  {
    if s != [] && IsWhiteSpace(s[0]) then
      var k := 1 + LeadingWhiteSpace(s[1..]);
      assert forall i :: 1 <= i < k ==> s[i] == s[1..][..k - 1][i - 1];
      k
    else 0
  }

  /** Length of `s` once its trailing white space is removed. */
  function TrailingStart(s: string): (j: nat)
    ensures j <= |s| && AllWhiteSpace(s[j..])
    ensures j == 0 || !IsWhiteSpace(s[j - 1])
    decreases |s|
  {
    if s != [] && IsWhiteSpace(s[|s| - 1]) then
      var j := TrailingStart(s[..|s| - 1]);
      assert forall i :: j <= i < |s| - 1 ==> s[i] == s[..|s| - 1][i];
      j
    else |s|
  }

  /** `s.trim()`: the slice of `s` left once the white space at both ends
      is dropped. `TrimCuts` and `TrimIsEmpty` state what it is. */
  function Trim(s: string): (r: string)
    ensures |r| <= |s|
  {
    var i := LeadingWhiteSpace(s);
    s[i..i + TrailingStart(s[i..])]
  }

  /** The two cut points of `Trim(s)`: only white space is cut on either
      side, and the slice between them neither starts nor ends with white
      space. */
  lemma TrimCuts(s: string) returns (i: nat, j: nat)
    ensures i <= j <= |s| && Trim(s) == s[i..j]
    ensures AllWhiteSpace(s[..i]) && AllWhiteSpace(s[j..])
    ensures i == j || (!IsWhiteSpace(s[i]) && !IsWhiteSpace(s[j - 1]))
    ensures i == j ==> i == |s|
  {
    i := LeadingWhiteSpace(s);
    j := i + TrailingStart(s[i..]);
    assert s[i..][TrailingStart(s[i..])..] == s[j..];
    if i < j {
      assert s[i..][j - i - 1] == s[j - 1];
    }
  }

  /** `trim` gives the empty string exactly for an all-white-space text. */
  lemma TrimIsEmpty(s: string)
    ensures Trim(s) == [] <==> AllWhiteSpace(s)
  {
    var i, j := TrimCuts(s);
    if i == j {
      forall k | 0 <= k < |s| ensures IsWhiteSpace(s[k]) {
        assert s[..i][k] == s[k];
      }
    }
  }

  /** The trimmed text neither starts nor ends with white space. */
  lemma TrimEnds(s: string)
    ensures Trim(s) == [] || (!IsWhiteSpace(Trim(s)[0]) && !IsWhiteSpace(Trim(s)[|Trim(s)| - 1]))
  {
    var i, j := TrimCuts(s);
    if i < j {
      assert Trim(s)[0] == s[i] && Trim(s)[j - i - 1] == s[j - 1];
    }
  }

  /** A white-space-only prefix ends before the first non-white character. */
  lemma WhitePrefixBound(s: string, i: nat, k: nat)
    requires i <= |s| && AllWhiteSpace(s[..i]) && k < |s| && !IsWhiteSpace(s[k])
    ensures i <= k
  {
  }

  /** A white-space-only suffix starts after the last non-white character. */
  lemma WhiteSuffixBound(s: string, j: nat, k: nat)
    requires j <= |s| && AllWhiteSpace(s[j..]) && k < |s| && !IsWhiteSpace(s[k])
    ensures k < j
  {
  }

  /** Trim is determined by its two cut points: any slice with white space on
      both sides whose ends are not white space is what `trim` returns. */
  lemma TrimIsUnique(s: string, i: nat, j: nat)
    requires i <= j <= |s|
    requires AllWhiteSpace(s[..i]) && AllWhiteSpace(s[j..])
    requires i == j || (!IsWhiteSpace(s[i]) && !IsWhiteSpace(s[j - 1]))
    ensures Trim(s) == s[i..j]
  {
    var i0, j0 := TrimCuts(s);
    if i == j {
      forall k | 0 <= k < |s| ensures IsWhiteSpace(s[k]) {
        if k < i { assert s[..i][k] == s[k]; } else { assert s[j..][k - j] == s[k]; }
      }
      assert AllWhiteSpace(s);
    } else {
      WhitePrefixBound(s, i, i);
      WhiteSuffixBound(s, j, j - 1);
      WhitePrefixBound(s, i0, i);
      WhiteSuffixBound(s, j0, j - 1);
      assert i0 < j0;
      WhitePrefixBound(s, i, i0);
      WhiteSuffixBound(s, j, j0 - 1);
    }
  }

  /** Joining white-space-only strings gives a white-space-only string. */
  lemma AllWhiteSpaceConcat(a: string, b: string)
    requires AllWhiteSpace(a) && AllWhiteSpace(b)
    ensures AllWhiteSpace(a + b)
  {
    forall k | 0 <= k < |a + b| ensures IsWhiteSpace((a + b)[k]) {
      if k >= |a| { assert (a + b)[k] == b[k - |a|]; }
    }
  }

  /** Dropping a prefix of the first part of a concatenation. */
  lemma DropConcat(x: string, y: string, k: nat)
    requires k <= |x|
    ensures (x + y)[k..] == x[k..] + y
  {
  }

  /** White space placed around a string does not change its trimmed form. */
  lemma TrimIgnoresPadding(a: string, t: string, b: string)
    requires AllWhiteSpace(a) && AllWhiteSpace(b)
    ensures Trim(a + t + b) == Trim(t)
  {
    var i, j := TrimCuts(t);
    var s := a + t + b;
    var i', j' := |a| + i, |a| + j;
    assert s[i'..j'] == t[i..j];
    assert AllWhiteSpace(s[..i']) by {
      assert s[..i'] == a + t[..i];
      AllWhiteSpaceConcat(a, t[..i]);
    }
    assert AllWhiteSpace(s[j'..]) by {
      assert (a + t)[j'..] == t[j..];
      DropConcat(a + t, b, j');
      AllWhiteSpaceConcat(t[j..], b);
    }
    if i < j {
      assert s[i'] == t[i] && s[j' - 1] == t[j - 1];
    }
    TrimIsUnique(s, i', j');
  }

  /** The upper-case form of one character under `toUpperCase`, for every
      character whose upper case is a single Latin capital letter: `a`-`z`,
      dotless i (U+0131) and long s (U+017F). Every other character is kept. */
  function UpperChar(c: char): (u: char)
    ensures 'a' <= c <= 'z' ==> u == (c as int - 32) as char
    ensures c == '\U{0131}' ==> u == 'I'
    ensures c == '\U{017F}' ==> u == 'S'
    ensures !('a' <= c <= 'z') && c != '\U{0131}' && c != '\U{017F}' ==> u == c
    ensures IsWhiteSpace(u) <==> IsWhiteSpace(c)
    ensures !('a' <= u <= 'z') && u != '\U{0131}' && u != '\U{017F}'
  {
    if 'a' <= c <= 'z' then (c as int - 32) as char
    else if c == '\U{0131}' then 'I'
    else if c == '\U{017F}' then 'S'
    else c
  }

  /** `s.toUpperCase()`, character by character. */
  function ToUpper(s: string): (u: string)
    ensures |u| == |s| && forall i :: 0 <= i < |s| ==> u[i] == UpperChar(s[i])
  {
    seq(|s|, i requires 0 <= i < |s| => UpperChar(s[i]))
  }

  /** Upper-casing twice is upper-casing once. */
  lemma ToUpperIdempotent(s: string)
    ensures ToUpper(ToUpper(s)) == ToUpper(s)
  {
  }

  /** Upper-casing a slice is slicing the upper-cased string. */
  lemma ToUpperSlice(s: string, i: nat, j: nat)
    requires i <= j <= |s|
    ensures ToUpper(s)[i..j] == ToUpper(s[i..j])
  {
  }

  /** Upper-casing keeps a string white-space-only exactly when it was. */
  lemma ToUpperAllWhiteSpace(s: string)
    ensures AllWhiteSpace(ToUpper(s)) <==> AllWhiteSpace(s)
  {
    var u := ToUpper(s);
    if AllWhiteSpace(s) {
      forall k | 0 <= k < |u| ensures IsWhiteSpace(u[k]) { assert IsWhiteSpace(s[k]); }
    }
    if AllWhiteSpace(u) {
      forall k | 0 <= k < |s| ensures IsWhiteSpace(s[k]) { assert IsWhiteSpace(u[k]); }
    }
  }

  /** Upper-casing keeps a white-space-only prefix white space. */
  lemma ToUpperWhitePrefix(s: string, i: nat)
    requires i <= |s| && AllWhiteSpace(s[..i])
    ensures AllWhiteSpace(ToUpper(s)[..i])
  {
    forall k | 0 <= k < i ensures IsWhiteSpace(ToUpper(s)[..i][k]) {
      assert s[..i][k] == s[k];
    }
  }

  /** Upper-casing keeps a white-space-only suffix white space. */
  lemma ToUpperWhiteSuffix(s: string, j: nat)
    requires j <= |s| && AllWhiteSpace(s[j..])
    ensures AllWhiteSpace(ToUpper(s)[j..])
  {
    forall k | 0 <= k < |s| - j ensures IsWhiteSpace(ToUpper(s)[j..][k]) {
      assert s[j..][k] == s[j + k];
    }
  }

  /** Trimming and upper-casing commute: neither creates nor removes white space. */
  lemma TrimToUpperCommute(s: string)
    ensures Trim(ToUpper(s)) == ToUpper(Trim(s))
  {
    var i, j := TrimCuts(s);
    ToUpperSlice(s, i, j);
    ToUpperWhitePrefix(s, i);
    ToUpperWhiteSuffix(s, j);
    TrimIsUnique(ToUpper(s), i, j);
  }

  /** A string that neither starts nor ends with white space is its own trim. */
  lemma TrimOfTrimmed(s: string)
    requires s == [] || (!IsWhiteSpace(s[0]) && !IsWhiteSpace(s[|s| - 1]))
    ensures Trim(s) == s
  {
    assert s[..0] == [] && s[|s|..] == [];
    assert s[0..|s|] == s;
    TrimIsUnique(s, 0, |s|);
  }

  /** Trimming a trimmed string changes nothing. */
  lemma TrimIdempotent(s: string)
    ensures Trim(Trim(s)) == Trim(s)
  {
    TrimEnds(s);
    TrimOfTrimmed(Trim(s));
  }

  /** `s.includes(sub)`. */
  predicate Contains(s: string, sub: string) {
    exists i | 0 <= i <= |s| - |sub| :: OccursAt(s, sub, i)
  }

  /** `sub` occurs in `s` starting at index `i`. */
  predicate OccursAt(s: string, sub: string, i: nat) {
    i + |sub| <= |s| && s[i..i + |sub|] == sub
  }

  /** A string cannot contain a pattern whose first character it lacks. */
  lemma NotContainsWithoutFirstChar(s: string, sub: string)
    requires sub != [] && sub[0] !in s
    ensures !Contains(s, sub)
  {
    forall i | 0 <= i <= |s| - |sub| ensures !OccursAt(s, sub, i) {
      assert s[i..i + |sub|][0] == s[i];
    }
  }

  /** JavaScript truthiness of an optional string: present and non-empty. */
  predicate IsTruthy(s: Option<string>) {
    s.Some? && s.value != ""
  }

  /** JavaScript `||` on an optional string: the string when it is truthy,
      else the fallback. */
  function OrElse(s: Option<string>, fallback: string): (r: string)
    ensures IsTruthy(s) ==> r == s.value
    ensures !IsTruthy(s) ==> r == fallback
    ensures fallback != "" ==> r != ""
  {
    if IsTruthy(s) then s.value else fallback
  }
}
