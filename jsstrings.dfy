/**
 * The JavaScript `String.prototype` operations the chord resolver relies on,
 * each stated over `seq<char>`: replacing every occurrence of one character,
 * `trim`, `indexOf` and `replace` with a string pattern (first occurrence only).
 */
module JsStrings {
  import opened Wrappers

  /** ECMAScript LineTerminator: LF, CR, LINE SEPARATOR, PARAGRAPH SEPARATOR. */
  predicate IsLineTerminator(c: char) {
    c == '\n' || c == '\r' || c == '\U{2028}' || c == '\U{2029}'
  }

  /** What `trim` removes: ECMAScript WhiteSpace (TAB, VT, FF, SPACE, NBSP, ZWNBSP, category Zs) and LineTerminator. */
  predicate IsWhiteSpace(c: char) {
    || IsLineTerminator(c)
    || c == '\t' || c == '\U{000B}' || c == '\U{000C}' || c == ' '
    || c == '\U{00A0}' || c == '\U{FEFF}' || c == '\U{1680}'
    || ('\U{2000}' <= c <= '\U{200A}')
    || c == '\U{202F}' || c == '\U{205F}' || c == '\U{3000}'
  }

  /** `s.replace(/c/g, rep)` for a single-character pattern `c`. */
  function ReplaceAll(s: string, c: char, rep: string): (r: string)
    ensures c !in rep ==> c !in r
    ensures c !in s ==> r == s
  {
    if s == [] then []
    else (if s[0] == c then rep else [s[0]]) + ReplaceAll(s[1..], c, rep)
  }

  /** One character: the pattern character becomes `rep`, any other stays as it is. */
  lemma ReplaceAllSingle(x: char, c: char, rep: string)
    ensures ReplaceAll([x], c, rep) == if x == c then rep else [x]
  {
    assert [x][1..] == [];
  }

  /** Each occurrence of the pattern character becomes `rep`, whatever stands around it. */
  lemma ReplaceAllOccurrence(a: string, b: string, c: char, rep: string)
    ensures ReplaceAll(a + [c] + b, c, rep) == ReplaceAll(a, c, rep) + rep + ReplaceAll(b, c, rep)
  {
    ReplaceAllAppend(a + [c], b, c, rep);
    ReplaceAllAppend(a, [c], c, rep);
    ReplaceAllSingle(c, c, rep);
  }

  /** Replacing a character by itself changes nothing. */
  lemma {:induction false} ReplaceAllBySelf(s: string, c: char)
    ensures ReplaceAll(s, c, [c]) == s
  {
    if s != [] {
      ReplaceAllBySelf(s[1..], c);
      assert [s[0]] + s[1..] == s;
    }
  }

  /** A two-character pattern whose characters never stand side by side in `s` does not occur in it. */
  lemma NoAdjacentPairNoOccurrence(s: string, pat: string)
    requires |pat| == 2
    requires forall k :: 0 <= k < |s| - 1 ==> !(s[k] == pat[0] && s[k + 1] == pat[1])
    ensures IndexOf(s, pat).None?
  {
    forall j | 0 <= j <= |s|
      ensures !OccursAt(s, pat, j)
    {
      if j + 2 <= |s| {
        assert s[j..j + 2][0] == s[j] && s[j..j + 2][1] == s[j + 1];
      }
    }
  }

  /** A pattern holding a character the string lacks occurs nowhere in it. */
  lemma AbsentCharacterNoOccurrence(s: string, pat: string, c: char)
    requires c in pat && c !in s
    ensures IndexOf(s, pat).None?
  {
    forall j | 0 <= j <= |s|
      ensures !OccursAt(s, pat, j)
    {
      var k :| 0 <= k < |pat| && pat[k] == c;
      if j + |pat| <= |s| {
        assert s[j + k] in s;
        assert s[j..j + |pat|][k] == s[j + k];
      }
    }
  }

  /** Replacing characters commutes with splitting the string anywhere. */
  lemma {:induction false} ReplaceAllAppend(a: string, b: string, c: char, rep: string)
    ensures ReplaceAll(a + b, c, rep) == ReplaceAll(a, c, rep) + ReplaceAll(b, c, rep)
  {
    if a == [] {
      assert a + b == b;
    } else {
      assert (a + b)[1..] == a[1..] + b;
      ReplaceAllAppend(a[1..], b, c, rep);
    }
  }

  /** The number of white-space characters `trim` removes from the front. */
  function LeadingWhiteSpace(s: string): (n: nat)
    ensures n <= |s|
    ensures forall k :: 0 <= k < n ==> IsWhiteSpace(s[k])
    ensures n < |s| ==> !IsWhiteSpace(s[n])
  {
    if s == [] || !IsWhiteSpace(s[0]) then 0
    else 1 + LeadingWhiteSpace(s[1..])
  }

  /** The index where the white-space suffix that `trim` removes begins. */
  function TrailingWhiteSpaceStart(s: string): (m: nat)
    ensures m <= |s|
    ensures forall k :: m <= k < |s| ==> IsWhiteSpace(s[k])
    ensures m > 0 ==> !IsWhiteSpace(s[m - 1])
  {
    if s == [] || !IsWhiteSpace(s[|s| - 1]) then |s|
    else TrailingWhiteSpaceStart(s[..|s| - 1])
  }

  /** `s.trim()`: drop white space at both ends, keep the interior. */
  function Trim(s: string): (r: string)
    ensures forall c :: c in r ==> c in s
    ensures r == [] || (!IsWhiteSpace(r[0]) && !IsWhiteSpace(r[|r| - 1]))
    ensures (forall k :: 0 <= k < |s| ==> IsWhiteSpace(s[k])) <==> r == []
    ensures s == [] || (!IsWhiteSpace(s[0]) && !IsWhiteSpace(s[|s| - 1])) ==> r == s
    ensures exists i, j :: (0 <= i <= j <= |s| && r == s[i..j]
      && (forall k :: 0 <= k < i ==> IsWhiteSpace(s[k]))
      && (forall k :: j <= k < |s| ==> IsWhiteSpace(s[k])))
  {
    var i := LeadingWhiteSpace(s);
    if i == |s| then
      assert s[i..i] == [];
      []
    else
      var j := TrailingWhiteSpaceStart(s);
      assert i < j;
      s[i..j]
  }

  /** `pat` occurs in `s` starting at index `i`. */
  predicate OccursAt(s: string, pat: string, i: nat) {
    i + |pat| <= |s| && s[i..i + |pat|] == pat
  }

  /** `s.indexOf(pat, from)`: the leftmost occurrence at or after `from`. */
  function IndexOfFrom(s: string, pat: string, from: nat): (r: Option<nat>)
    requires from <= |s|
    decreases |s| - from
    ensures r.Some? ==> from <= r.value && OccursAt(s, pat, r.value)
    ensures r.Some? ==> forall j :: from <= j < r.value ==> !OccursAt(s, pat, j)
    ensures r.None? ==> forall j :: from <= j <= |s| ==> !OccursAt(s, pat, j)
  {
    if OccursAt(s, pat, from) then Some(from)
    else if from == |s| then None
    else IndexOfFrom(s, pat, from + 1)
  }

  function IndexOf(s: string, pat: string): (r: Option<nat>)
    ensures r.Some? ==> OccursAt(s, pat, r.value) && forall j :: 0 <= j < r.value ==> !OccursAt(s, pat, j)
    ensures r.None? ==> forall j :: 0 <= j <= |s| ==> !OccursAt(s, pat, j)
  {
    IndexOfFrom(s, pat, 0)
  }

  /**
   * `s.replace(pat, rep)` with a string pattern: only the leftmost occurrence
   * is replaced; without an occurrence the string is unchanged.
   */
  function ReplaceFirst(s: string, pat: string, rep: string): (r: string)
    ensures forall c :: c in r ==> c in s || c in rep
    ensures IndexOf(s, pat).None? ==> r == s
    ensures IndexOf(s, pat).Some? ==>
      var i := IndexOf(s, pat).value;
      |r| == |s| - |pat| + |rep| && r[..i] == s[..i] && OccursAt(r, rep, i) && r[i + |rep|..] == s[i + |pat|..]
  {
    match IndexOf(s, pat)
    case None => s
    case Some(i) =>
      var r := s[..i] + rep + s[i + |pat|..];
      assert r[i..i + |rep|] == rep;
      assert r[i + |rep|..] == s[i + |pat|..];
      r
  }

}
