/** String operations the core relies on, written out for `seq<char>`:
    trimming white space, lower-casing, joining with a separator, prefix and
    substring tests, and replacing the first space. */
module Text {

  /** The characters a string trim removes: white space and line terminators. */
  predicate IsSpace(c: char)
  {
    || c == ' ' || c == '\t' || c == '\n' || c == '\r'
    || c == '\U{000B}' || c == '\U{000C}' || c == '\U{00A0}' || c == '\U{1680}'
    || ('\U{2000}' <= c <= '\U{200A}')
    || c == '\U{2028}' || c == '\U{2029}' || c == '\U{202F}' || c == '\U{205F}'
    || c == '\U{3000}' || c == '\U{FEFF}'
  }

  /** A string made of white space only (the empty string included). */
  predicate IsBlank(s: string)
  {
    forall i :: 0 <= i < |s| ==> IsSpace(s[i])
  }

  /** The number of white-space characters `s` starts with. */
  function LeadingSpaces(s: string): (n: nat)
    ensures n <= |s|
    ensures forall i :: 0 <= i < n ==> IsSpace(s[i])
    ensures n < |s| ==> !IsSpace(s[n])
  {
    if s != [] && IsSpace(s[0]) then
      var n := LeadingSpaces(s[1..]);
      assert forall i :: 1 <= i < n + 1 ==> s[i] == s[1..][i - 1];
      n + 1
    else 0
  }

  /** The number of white-space characters `s` ends with. */
  function TrailingSpaces(s: string): (n: nat)
    ensures n <= |s|
    ensures forall i :: |s| - n <= i < |s| ==> IsSpace(s[i])
    ensures n < |s| ==> !IsSpace(s[|s| - n - 1])
  {
    if s != [] && IsSpace(s[|s| - 1]) then
      var n := TrailingSpaces(s[..|s| - 1]);
      assert forall i :: 0 <= i < |s| - 1 ==> s[i] == s[..|s| - 1][i];
      n + 1
    else 0
  }

  /** `String.prototype.trim`: drops white space at both ends. The result is
      empty exactly when `s` is blank, and otherwise is the part of `s`
      between its first and its last non-space character: a slice of `s`
      outside which there is only white space. */
  function Trim(s: string): (r: string)
    ensures r == [] <==> IsBlank(s)
    ensures r == [] || (!IsSpace(r[0]) && !IsSpace(r[|r| - 1]))
    ensures exists lo, hi :: 0 <= lo <= hi <= |s| && r == s[lo..hi] && Surrounds(s, lo, hi)
  {
    var a := LeadingSpaces(s);
    if a == |s| then
      assert Surrounds(s, 0, 0) && s[0..0] == [];
      []
    else
      var e := TrailingSpaces(s);
      assert !IsBlank(s) by { assert !IsSpace(s[a]); }
      assert Surrounds(s, a, |s| - e);
      s[a..|s| - e]
  }

  /** Every character of `s` outside `s[lo..hi]` is white space. */
  predicate Surrounds(s: string, lo: int, hi: int)
  {
    forall i :: 0 <= i < |s| && !(lo <= i < hi) ==> IsSpace(s[i])
  }

  /** A non-space first character is enough for the trim to be non-empty. */
  lemma {:induction false} TrimNonEmpty(s: string)
    requires s != [] && !IsSpace(s[0])
    ensures Trim(s) != []
  {
    assert !IsBlank(s);
  }

  function LowerChar(c: char): char
  {
    if 'A' <= c <= 'Z' then (c as int + 32) as char else c
  }

  /** `String.prototype.toLowerCase` on the ASCII letters: no capital is
      left, each capital becomes its small letter, and every other
      character stays as it is. */
  function Lower(s: string): (r: string)
    ensures |r| == |s|
    ensures forall i :: 0 <= i < |r| ==> !('A' <= r[i] <= 'Z')
    ensures forall i :: 0 <= i < |s| && 'A' <= s[i] <= 'Z' ==> r[i] as int == s[i] as int + 32
    ensures forall i :: 0 <= i < |s| && !('A' <= s[i] <= 'Z') ==> r[i] == s[i]
  {
    seq(|s|, i requires 0 <= i < |s| => LowerChar(s[i]))
  }

  /** Lower-casing twice is lower-casing once. */
  lemma LowerIdempotent(s: string)
    ensures Lower(Lower(s)) == Lower(s)
  {
  }

  /** Lower-casing works character by character, so it distributes over
      concatenation. */
  lemma LowerAppend(a: string, b: string)
    ensures Lower(a + b) == Lower(a) + Lower(b)
  {
    assert forall i :: 0 <= i < |a + b| ==> Lower(a + b)[i] == (Lower(a) + Lower(b))[i];
  }

  /** `Array.prototype.join(sep)`: the parts with `sep` between neighbours. */
  function Join(parts: seq<string>, sep: string): string
  {
    if |parts| == 0 then ""
    else if |parts| == 1 then parts[0]
    else parts[0] + sep + Join(parts[1..], sep)
  }

  predicate StartsWith(s: string, prefix: string)
  {
    |prefix| <= |s| && s[..|prefix|] == prefix
  }

  predicate EndsWith(s: string, suffix: string)
  {
    |suffix| <= |s| && s[|s| - |suffix|..] == suffix
  }

  lemma StartsWithAppend(a: string, b: string)
    ensures StartsWith(a + b, a)
  {
    assert (a + b)[..|a|] == a;
  }

  lemma EndsWithAppend(a: string, b: string)
    ensures EndsWith(a + b, b)
  {
    assert (a + b)[|a|..] == b;
  }

  /** `String.prototype.includes`: `pat` occurs in `text` at some offset. */
  predicate Contains(text: string, pat: string)
  {
    exists i :: 0 <= i <= |text| && StartsWith(text[i..], pat)
  }

  /** Whatever surrounds it, a string contains its middle part. */
  lemma ContainsMiddle(a: string, pat: string, b: string)
    ensures Contains(a + pat + b, pat)
  {
    var t := a + pat + b;
    assert t[|a|..][..|pat|] == pat;
    assert StartsWith(t[|a|..], pat);
  }

  /** `s.replace(' ', '')`: removes the first space and only that one. */
  function RemoveFirstSpace(s: string): string
  {
    if s == [] then []
    else if s[0] == ' ' then s[1..]
    else [s[0]] + RemoveFirstSpace(s[1..])
  }

  /** Without a space the string is unchanged. */
  lemma {:induction false} RemoveFirstSpaceNone(s: string)
    requires ' ' !in s
    ensures RemoveFirstSpace(s) == s
  {
    if s != [] {
      assert ' ' !in s[1..] by { assert forall c :: c in s[1..] ==> c in s; }
      RemoveFirstSpaceNone(s[1..]);
    }
  }

  /** With its first space at index `i`, exactly that space is cut out and
      everything else stays in place. */
  lemma {:induction false} RemoveFirstSpaceAt(s: string, i: nat)
    requires i < |s| && s[i] == ' ' && ' ' !in s[..i]
    ensures RemoveFirstSpace(s) == s[..i] + s[i + 1..]
  {
    if i > 0 {
      assert s[0] != ' ' by { assert s[0] == s[..i][0]; }
      assert s[1..][..i - 1] == s[1..i];
      assert ' ' !in s[1..i] by { assert forall c :: c in s[1..i] ==> c in s[..i]; }
      RemoveFirstSpaceAt(s[1..], i - 1);
      assert s[..i] == [s[0]] + s[1..i];
      assert s[1..][i..] == s[i + 1..];
    }
  }
}
