/**
  ASCII string operations behind the engine's label normaliser
  `str.toLowerCase().replace(/_/g, ' ').trim()` and behind `String.prototype.includes`.
  Strings are sequences of characters; only the ASCII letters change case and only
  ASCII whitespace is trimmed.
 */
module Text {

  /** An ASCII capital letter. */
  predicate IsUpper(c: char) {
    'A' <= c <= 'Z'
  }

  /** ASCII whitespace: tab, line feed, vertical tab, form feed, carriage return, space. */
  predicate IsSpace(c: char) {
    c == ' ' || 9 <= c as int <= 13
  }

  /** The small letter of an ASCII capital; every other character is left as it is. */
  function ToLower(c: char): (d: char)
    ensures !IsUpper(d)
    ensures IsUpper(c) ==> 'a' <= d <= 'z' && d as int - c as int == 'a' as int - 'A' as int
    ensures !IsUpper(c) ==> d == c
  {
    if IsUpper(c) then (c as int + 32) as char else c
  }

  /** `toLowerCase` over ASCII: capitals become their small letters, nothing else changes. */
  function LowerCase(s: string): (r: string)
    ensures |r| == |s|
    ensures forall i :: 0 <= i < |r| ==> !IsUpper(r[i])
    ensures forall i :: 0 <= i < |s| && !IsUpper(s[i]) ==> r[i] == s[i]
    ensures forall i :: 0 <= i < |s| && IsUpper(s[i]) ==> r[i] as int == s[i] as int + 32
  {
    seq(|s|, i requires 0 <= i < |s| => ToLower(s[i]))
  }

  /** `replace(/_/g, ' ')`: every underscore becomes one space, nothing else changes. */
  function ReplaceUnderscores(s: string): (r: string)
    ensures |r| == |s|
    ensures forall i :: 0 <= i < |r| ==> r[i] != '_'
    ensures forall i :: 0 <= i < |s| && s[i] != '_' ==> r[i] == s[i]
    ensures forall i :: 0 <= i < |s| && s[i] == '_' ==> r[i] == ' '
  {
    seq(|s|, i requires 0 <= i < |s| => if s[i] == '_' then ' ' else s[i])
  }

  /** Neither the first nor the last character is whitespace. */
  predicate IsTrimmed(s: string) {
    |s| == 0 || (!IsSpace(s[0]) && !IsSpace(s[|s| - 1]))
  }

  /** Everything outside `s[i..j]` is whitespace. */
  predicate SpacesOutside(s: string, i: int, j: int) {
    && 0 <= i <= j <= |s|
    && (forall k :: 0 <= k < i ==> IsSpace(s[k]))
    && (forall k :: j <= k < |s| ==> IsSpace(s[k]))
  }

  /** The position of the first character at or after `i` that is not whitespace (or `|s|`). */
  function SkipLeadingSpaces(s: string, i: nat): (k: nat)
    requires i <= |s|
    ensures i <= k <= |s|
    ensures forall m :: i <= m < k ==> IsSpace(s[m])
    ensures k == |s| || !IsSpace(s[k])
    decreases |s| - i
  {
    if i < |s| && IsSpace(s[i]) then SkipLeadingSpaces(s, i + 1) else i
  }

  /** The end of `s[lo..j]` once its trailing whitespace is dropped. */
  function SkipTrailingSpaces(s: string, lo: nat, j: nat): (k: nat)
    requires lo <= j <= |s|
    ensures lo <= k <= j
    ensures forall m :: k <= m < j ==> IsSpace(s[m])
    ensures k == lo || !IsSpace(s[k - 1])
    decreases j
  {
    if j > lo && IsSpace(s[j - 1]) then SkipTrailingSpaces(s, lo, j - 1) else j
  }

  /** `trim`: the slice of `s` left once the whitespace at both ends is removed. */
  function Trim(s: string): (r: string)
    ensures IsTrimmed(r)
    ensures exists i, j :: SpacesOutside(s, i, j) && r == s[i..j]
    ensures IsTrimmed(s) ==> r == s
    ensures forall c :: c in r ==> c in s
  {
    var i := SkipLeadingSpaces(s, 0);
    var j := SkipTrailingSpaces(s, i, |s|);
    assert SpacesOutside(s, i, j);
    s[i..j]
  }

  /** The engine's `normalize`: lower-case, underscores to spaces, then trim. */
  function Normalize(s: string): (r: string)
    ensures |r| <= |s|
    ensures forall i :: 0 <= i < |r| ==> !IsUpper(r[i]) && r[i] != '_'
    ensures IsTrimmed(r)
  {
    var u := ReplaceUnderscores(LowerCase(s));
    LoweredWithoutUnderscores(s);
    Trim(u)
  }

  /** Lower-casing and then replacing underscores leaves no capital and no underscore. */
  lemma LoweredWithoutUnderscores(s: string)
    ensures forall c :: c in ReplaceUnderscores(LowerCase(s)) ==> !IsUpper(c) && c != '_'
  {
    var u := ReplaceUnderscores(LowerCase(s));
    forall c | c in u ensures !IsUpper(c) && c != '_' {
      var k :| 0 <= k < |u| && u[k] == c;
    }
  }

  /** A string without capitals and underscores and with no whitespace at its ends is left unchanged. */
  lemma NormalizeFixesNormalForm(t: string)
    requires forall i :: 0 <= i < |t| ==> !IsUpper(t[i]) && t[i] != '_'
    requires IsTrimmed(t)
    ensures Normalize(t) == t
  {
  }

  /** Normalising ignores case: lower-casing first changes nothing. */
  lemma NormalizeIgnoresCase(s: string)
    ensures Normalize(LowerCase(s)) == Normalize(s)
  {
    assert LowerCase(LowerCase(s)) == LowerCase(s);
  }

  /** Normalising treats an underscore like a space: replacing underscores first changes nothing. */
  lemma NormalizeIgnoresUnderscores(s: string)
    ensures Normalize(ReplaceUnderscores(s)) == Normalize(s)
  {
    assert ReplaceUnderscores(LowerCase(ReplaceUnderscores(s))) == ReplaceUnderscores(LowerCase(s));
  }

  /** A normalised string is its own normal form. */
  lemma NormalizeIdempotent(s: string)
    ensures Normalize(Normalize(s)) == Normalize(s)
  {
    NormalizeFixesNormalForm(Normalize(s));
  }

  /** `needle` occurs in `hay` at position `k`. */
  predicate OccursAt(hay: string, needle: string, k: int) {
    0 <= k && k + |needle| <= |hay| && hay[k..k + |needle|] == needle
  }

  /** `hay.includes(needle)`, scanning the start positions from left to right. */
  function Includes(hay: string, needle: string): (r: bool)
    ensures |needle| == 0 ==> r
    ensures r ==> |needle| <= |hay|
    decreases |hay|
  {
    if |needle| <= |hay| && hay[..|needle|] == needle then true
    else if |hay| == 0 then false
    else Includes(hay[1..], needle)
  }

  /** `Includes` holds exactly when `needle` occurs somewhere in `hay`. */
  lemma {:induction false} IncludesIff(hay: string, needle: string)
    ensures Includes(hay, needle) <==> exists k :: OccursAt(hay, needle, k)
    decreases |hay|
  {
    if |needle| <= |hay| && hay[..|needle|] == needle {
      assert OccursAt(hay, needle, 0);
    } else if |hay| == 0 {
    } else {
      IncludesIff(hay[1..], needle);
      if k :| OccursAt(hay, needle, k) {
        assert k != 0;
        assert hay[1..][k - 1..k - 1 + |needle|] == hay[k..k + |needle|];
        assert OccursAt(hay[1..], needle, k - 1);
      }
      if k :| OccursAt(hay[1..], needle, k) {
        assert hay[1..][k..k + |needle|] == hay[k + 1..k + 1 + |needle|];
        assert OccursAt(hay, needle, k + 1);
      }
    }
  }

  /** `IncludesIff` for every pair of strings. */
  lemma IncludesIffEverywhere()
    ensures forall hay, needle :: Includes(hay, needle) <==> exists k :: OccursAt(hay, needle, k)
  {
    forall hay, needle ensures Includes(hay, needle) <==> exists k :: OccursAt(hay, needle, k) {
      IncludesIff(hay, needle);
    }
  }
}
