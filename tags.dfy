/** Tag lists on the registration forms (skills, locations, industries,
    accommodations, topics, goals) and the e-mail shape the participant form
    accepts. */
module Tags {
  import opened Strings

  predicate Distinct(tags: seq<string>)
  {
    forall i, j :: 0 <= i < j < |tags| ==> tags[i] != tags[j]
  }

  /** Appending a tag that is not yet present (`includes` compares exactly,
      so case matters). */
  function WithTag(tags: seq<string>, value: string): (r: seq<string>)
    ensures value in r && |tags| <= |r| <= |tags| + 1
    ensures r[..|tags|] == tags
    ensures forall x :: x in r <==> x in tags || x == value
    ensures Distinct(tags) ==> Distinct(r)
  {
    if value in tags then tags else tags + [value]
  }

  /** `tags.filter(t => t !== tag)`: every copy of the tag goes, the other
      tags stay in order. */
  function WithoutTag(tags: seq<string>, tag: string): (r: seq<string>)
    ensures tag !in r && |r| <= |tags|
    ensures forall x :: x in r <==> x in tags && x != tag
    ensures tag !in tags ==> r == tags
    ensures Distinct(tags) ==> Distinct(r)
    decreases |tags|
  {
    if |tags| == 0 then []
    else
      var init := WithoutTag(tags[..|tags| - 1], tag);
      var last := tags[|tags| - 1];
      assert tags == tags[..|tags| - 1] + [last];
      assert Distinct(tags) ==> last !in tags[..|tags| - 1];
      if last == tag then init else init + [last]
  }

  /** Adding a tag twice is the same as adding it once. */
  lemma WithTagIdempotent(tags: seq<string>, value: string)
    ensures WithTag(WithTag(tags, value), value) == WithTag(tags, value)
  {
  }

  /** Removing a tag that was just added restores the list it was added to. */
  lemma {:induction false} WithoutUndoesWith(tags: seq<string>, value: string)
    requires value !in tags
    ensures WithoutTag(WithTag(tags, value), value) == tags
  {
    var t := tags + [value];
    assert t[..|t| - 1] == tags;
  }

  // ---------------------------------------------------------------------
  // E-mail shape: /^[^\s@]+@[^\s@]+\.[^\s@]+$/

  predicate NoSpaceOrAt(t: string)
  {
    forall k :: 0 <= k < |t| ==> !IsJsSpace(t[k]) && t[k] != '@'
  }

  /** The regular expression matches with its `@` at `i` and its `.` at `j`. */
  predicate EmailSplitAt(s: string, i: int, j: int)
  {
    1 <= i && i + 2 <= j && j + 2 <= |s| && s[i] == '@' && s[j] == '.' &&
    NoSpaceOrAt(s[..i]) && NoSpaceOrAt(s[i + 1..j]) && NoSpaceOrAt(s[j + 1..])
  }

  /** The pattern's meaning: some non-empty run without blanks or `@`, an `@`,
      another such run, a dot, and a third such run, covering the whole text. */
  ghost predicate EmailPattern(s: string)
  {
    exists i, j :: EmailSplitAt(s, i, j)
  }

  function IndexOfDot(t: string): (k: nat)
    requires '.' in t
    ensures k < |t| && t[k] == '.'
  {
    if t[0] == '.' then 0 else 1 + IndexOfDot(t[1..])
  }

  /** The check the form runs: a single `@` after at least one character,
      no blanks anywhere, and a dot with at least one character on each side
      somewhere after the `@`. */
  predicate IsValidEmail(s: string)
  {
    '@' in s &&
    var i := IndexOfChar(s, '@');
    1 <= i && i + 3 <= |s| &&
    NoSpaceOrAt(s[..i]) && NoSpaceOrAt(s[i + 1..]) &&
    '.' in s[i + 2..|s| - 1]
  }

  lemma NoSpaceOrAtSlices(s: string, a: int, b: int, c: int)
    requires 0 <= a <= b <= c <= |s| && NoSpaceOrAt(s[a..c])
    ensures NoSpaceOrAt(s[a..b]) && NoSpaceOrAt(s[b..c])
  {
    assert forall k :: 0 <= k < b - a ==> s[a..b][k] == s[a..c][k];
    assert forall k :: 0 <= k < c - b ==> s[b..c][k] == s[a..c][k + b - a];
  }

  /** A run without blanks or `@` may have a dot in its middle. */
  lemma NoSpaceOrAtAroundDot(s: string, a: int, j: int, c: int)
    requires 0 <= a <= j < c <= |s| && s[j] == '.'
    requires NoSpaceOrAt(s[a..j]) && NoSpaceOrAt(s[j + 1..c])
    ensures NoSpaceOrAt(s[a..c])
  {
    forall k | 0 <= k < c - a ensures !IsJsSpace(s[a..c][k]) && s[a..c][k] != '@' {
      if k < j - a {
        assert s[a..c][k] == s[a..j][k];
      } else if k > j - a {
        assert s[a..c][k] == s[j + 1..c][k - (j - a) - 1];
      }
    }
  }

  /** The first `@` is the one the pattern places, when nothing before it is an `@`. */
  lemma FirstAt(s: string, i: int)
    requires 0 <= i < |s| && s[i] == '@' && NoSpaceOrAt(s[..i])
    ensures '@' in s && IndexOfChar(s, '@') == i
  {
    var i0 := IndexOfChar(s, '@');
    assert s[..i0 + 1][i0] == '@';
  }

  /** What the form accepts, the regular expression matches. */
  lemma ValidEmailMatches(s: string)
    requires IsValidEmail(s)
    ensures EmailPattern(s)
  {
    var i := IndexOfChar(s, '@');
    var t := s[i + 2..|s| - 1];
    var j := i + 2 + IndexOfDot(t);
    assert s[j] == t[j - i - 2];
    NoSpaceOrAtSlices(s, i + 1, j, |s|);
    NoSpaceOrAtSlices(s, j, j + 1, |s|);
    assert EmailSplitAt(s, i, j);
  }

  /** What the regular expression matches, the form accepts. */
  lemma MatchIsValidEmail(s: string, i: int, j: int)
    requires EmailSplitAt(s, i, j)
    ensures IsValidEmail(s)
  {
    FirstAt(s, i);
    NoSpaceOrAtAroundDot(s, i + 1, j, |s|);
    assert s[i + 1..|s|] == s[i + 1..];
    var t := s[i + 2..|s| - 1];
    assert t[j - i - 2] == '.';
    assert '.' in t;
  }

  /** The form's check accepts exactly the texts the regular expression
      matches. */
  lemma IsValidEmailIffPattern(s: string)
    ensures IsValidEmail(s) <==> EmailPattern(s)
  {
    if IsValidEmail(s) {
      ValidEmailMatches(s);
    }
    if EmailPattern(s) {
      var i, j :| EmailSplitAt(s, i, j);
      MatchIsValidEmail(s, i, j);
    }
  }
}
