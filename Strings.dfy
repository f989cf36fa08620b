/**
 * The JavaScript string builtins the task API relies on: String.prototype.trim,
 * String.prototype.toLowerCase (restricted to ASCII letters) and String.prototype.includes.
 */
module Strings {

  /** The code points that trim strips: ECMAScript WhiteSpace and LineTerminator. */
  predicate IsWhitespace(c: char) {
    var n := c as int;
    n == 0x09 || n == 0x0A || n == 0x0B || n == 0x0C || n == 0x0D || n == 0x20 || n == 0xA0 ||
    n == 0x1680 || (0x2000 <= n <= 0x200A) || n == 0x2028 || n == 0x2029 || n == 0x202F ||
    n == 0x205F || n == 0x3000 || n == 0xFEFF
  }

  predicate AllWhitespace(s: string) {
    forall i :: 0 <= i < |s| ==> IsWhitespace(s[i])
  }

  predicate IsUpper(c: char) {
    'A' <= c <= 'Z'
  }

  function LowerChar(c: char): (d: char)
    ensures !IsUpper(d)
    ensures IsUpper(c) ==> d as int == c as int + 32
    ensures !IsUpper(c) ==> d == c
  {
    if IsUpper(c) then (c as int + 32) as char else c
  }

  /** toLowerCase: every ASCII capital letter replaced by its small letter, all else kept. */
  function Lower(s: string): (r: string)
    ensures |r| == |s|
    ensures forall i :: 0 <= i < |s| ==> r[i] == LowerChar(s[i])
  {
    seq(|s|, i requires 0 <= i < |s| => LowerChar(s[i]))
  }

  /** Every character of s[i..j] is whitespace. */
  predicate WhitespaceBetween(s: string, i: int, j: int) {
    forall m :: i <= m < j && 0 <= m < |s| ==> IsWhitespace(s[m])
  }

  /** Scanning forward from i: the first position at or after i that holds no whitespace, or |s|. */
  function ContentStart(s: string, i: nat): (k: nat)
    requires i <= |s|
    ensures i <= k <= |s|
    ensures WhitespaceBetween(s, i, k)
    ensures k == |s| || !IsWhitespace(s[k])
    decreases |s| - i
  {
    if i < |s| && IsWhitespace(s[i]) then ContentStart(s, i + 1) else i
  }

  /** Scanning backward from j down to i: the end of the last non-whitespace character, or i. */
  function ContentEnd(s: string, i: nat, j: nat): (k: nat)
    requires i <= j <= |s|
    ensures i <= k <= j
    ensures WhitespaceBetween(s, k, j)
    ensures k == i || !IsWhitespace(s[k - 1])
    decreases j
  {
    if i < j && IsWhitespace(s[j - 1]) then ContentEnd(s, i, j - 1) else j
  }

  /**
   * trim: the slice s[i..j] left after stripping all leading and all trailing whitespace.
   * Only whitespace lies outside the slice, and the slice neither starts nor ends with whitespace.
   */
  function Trim(s: string): (r: string)
    ensures exists i, j :: 0 <= i <= j <= |s| && r == s[i..j] && WhitespaceBetween(s, 0, i) && WhitespaceBetween(s, j, |s|)
    ensures r == [] || (!IsWhitespace(r[0]) && !IsWhitespace(r[|r| - 1]))
  {
    var i := ContentStart(s, 0);
    var j := ContentEnd(s, i, |s|);
    assert WhitespaceBetween(s, j, |s|) by {
      forall m | j <= m < |s| ensures IsWhitespace(s[m]) {
        assert m < i || i <= m;
      }
    }
    s[i..j]
  }

  /** s[i..] starts with t. */
  predicate OccursAt(s: string, t: string, i: int) {
    0 <= i && i + |t| <= |s| && s[i..i + |t|] == t
  }

  /** includes: t occurs in s at some position (the empty string occurs everywhere). */
  function Contains(s: string, t: string): (r: bool)
    ensures r <==> exists i :: OccursAt(s, t, i)
  {
    if t <= s then
      assert OccursAt(s, t, 0);
      true
    else if |s| == 0 then
      false
    else
      var r := Contains(s[1..], t);
      assert !OccursAt(s, t, 0);
      assert (exists i :: OccursAt(s, t, i)) ==> r by {
        forall i | OccursAt(s, t, i) ensures r { OccursAtTail(s, t, i - 1); }
      }
      assert r ==> exists i :: OccursAt(s, t, i) by {
        if r {
          var i :| OccursAt(s[1..], t, i);
          OccursAtTail(s, t, i);
        }
      }
      r
  }

  /** An occurrence one position further in s is an occurrence in the tail of s. */
  lemma OccursAtTail(s: string, t: string, i: int)
    requires |s| > 0 && 0 <= i
    ensures OccursAt(s, t, i + 1) <==> OccursAt(s[1..], t, i)
  {
    if i + 1 + |t| <= |s| {
      assert s[i + 1..i + 1 + |t|] == s[1..][i..i + |t|];
    }
  }

  lemma TrimOfWhitespace(s: string)
    ensures Trim(s) == [] <==> AllWhitespace(s)
  {
    var r := Trim(s);
    var i, j :| 0 <= i <= j <= |s| && r == s[i..j] && WhitespaceBetween(s, 0, i) && WhitespaceBetween(s, j, |s|);
    if r == [] {
      assert i == j;
    } else {
      assert r[0] == s[i];
    }
  }

  lemma LowerKeepsWhitespace(s: string)
    requires AllWhitespace(s)
    ensures AllWhitespace(Lower(s))
  {
  }

  lemma ContainsEmpty(s: string)
    ensures Contains(s, [])
  {
    assert OccursAt(s, [], 0);
  }
}
