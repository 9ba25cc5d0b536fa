// The `*` glob of path attribution (batcher/src/pathattr.rs, glob): a single pass that takes
// each part at its leftmost place is proved to decide what the pattern means.

module PathGlob {
  import opened Prelude

  /** What a pattern means: `*` stands for any run of characters, anything else for itself. */
  ghost predicate Matches(pat: string, s: string)
    decreases |pat|
  {
    if pat == [] then s == []
    else if pat[0] == '*' then exists k :: 0 <= k <= |s| && Matches(pat[1..], s[k..])
    else s != [] && s[0] == pat[0] && Matches(pat[1..], s[1..])
  }

  /** The parts between the stars. */
  function Split(pat: string): (r: seq<string>)
    ensures |r| >= 1
  {
    if pat == [] then [[]]
    else
      var r := Split(pat[1..]);
      if pat[0] == '*' then [[]] + r else [[pat[0]] + r[0]] + r[1..]
  }

  predicate OccursAt(p: string, s: string, i: nat) {
    i + |p| <= |s| && s[i..i + |p|] == p
  }

  predicate EndsWith(s: string, p: string) {
    |p| <= |s| && s[|s| - |p|..] == p
  }

  /** Each of `ps` in turn somewhere after the last, and the final one at the very end. */
  ghost predicate Fits(ps: seq<string>, s: string)
    requires ps != []
    decreases |ps|
  {
    if |ps| == 1 then EndsWith(s, ps[0])
    else exists i: nat :: OccursAt(ps[0], s, i) && Fits(ps[1..], s[i + |ps[0]|..])
  }

  ghost predicate PartsMatch(parts: seq<string>, s: string)
    requires parts != []
  {
    if |parts| == 1 then s == parts[0]
    else parts[0] <= s && Fits(parts[1..], s[|parts[0]|..])
  }

  /** Text put in front leaves a fit standing. */
  lemma {:induction false} FitsLater(ps: seq<string>, a: string, s: string)
    requires ps != [] && Fits(ps, s)
    ensures Fits(ps, a + s)
  {
    if |ps| == 1 {
      assert (a + s)[|a + s| - |ps[0]|..] == s[|s| - |ps[0]|..];
    } else {
      var i: nat :| OccursAt(ps[0], s, i) && Fits(ps[1..], s[i + |ps[0]|..]);
      var j := |a| + i;
      assert (a + s)[j..j + |ps[0]|] == s[i..i + |ps[0]|];
      assert (a + s)[j + |ps[0]|..] == s[i + |ps[0]|..];
      assert OccursAt(ps[0], a + s, j);
    }
  }

  /** Whatever fits at all fits after the leftmost place. */
  lemma LeftmostFits(ps: seq<string>, s: string, at: nat)
    requires |ps| > 1 && OccursAt(ps[0], s, at) && forall i: nat :: i < at ==> !OccursAt(ps[0], s, i)
    ensures Fits(ps, s) <==> Fits(ps[1..], s[at + |ps[0]|..])
  {
    if Fits(ps, s) {
      var i: nat :| OccursAt(ps[0], s, i) && Fits(ps[1..], s[i + |ps[0]|..]);
      var n := |ps[0]|;
      assert s[at + n..] == s[at + n..i + n] + s[i + n..];
      FitsLater(ps[1..], s[at + n..i + n], s[i + n..]);
    }
  }

  lemma PlaceIsStart(p: string, s: string, k: nat)
    requires k <= |s|
    ensures OccursAt(p, s, k) <==> p <= s[k..]
    ensures p <= s[k..] ==> k + |p| <= |s| && s[k..][|p|..] == s[k + |p|..]
  {
    if k + |p| <= |s| {
      assert s[k..][..|p|] == s[k..k + |p|];
    }
  }

  /** A star before the parts: the first of them may begin anywhere. */
  lemma StarFits(parts: seq<string>, s: string)
    requires parts != []
    ensures Fits(parts, s) <==> exists k :: 0 <= k <= |s| && PartsMatch(parts, s[k..])
  {
    if |parts| == 1 {
      if EndsWith(s, parts[0]) {
        assert PartsMatch(parts, s[|s| - |parts[0]|..]);
      }
    } else {
      if Fits(parts, s) {
        StarStarts(parts, s);
      }
      if k :| 0 <= k <= |s| && PartsMatch(parts, s[k..]) {
        PlaceIsStart(parts[0], s, k);
      }
    }
  }

  lemma StarStarts(parts: seq<string>, s: string)
    requires |parts| > 1 && Fits(parts, s)
    ensures exists k :: 0 <= k <= |s| && PartsMatch(parts, s[k..])
  {
    var i: nat :| OccursAt(parts[0], s, i) && Fits(parts[1..], s[i + |parts[0]|..]);
    PlaceIsStart(parts[0], s, i);
    assert PartsMatch(parts, s[i..]);
  }

  /** The parts between the stars say what the pattern says. */
  lemma {:induction false} SplitMatches(pat: string, s: string)
    ensures Matches(pat, s) <==> PartsMatch(Split(pat), s)
    decreases |pat|
  {
    if pat != [] {
      var rest := Split(pat[1..]);
      if pat[0] == '*' {
        forall k | 0 <= k <= |s| ensures Matches(pat[1..], s[k..]) <==> PartsMatch(rest, s[k..]) {
          SplitMatches(pat[1..], s[k..]);
        }
        StarFits(rest, s);
        assert Split(pat)[1..] == rest && s[0..] == s;
      } else {
        CharFirst(pat[0], rest, s);
        if s != [] {
          SplitMatches(pat[1..], s[1..]);
        }
      }
    }
  }

  lemma CharFirst(c: char, rest: seq<string>, s: string)
    requires rest != []
    ensures PartsMatch([[c] + rest[0]] + rest[1..], s) <==> s != [] && s[0] == c && PartsMatch(rest, s[1..])
  {
    var parts := [[c] + rest[0]] + rest[1..];
    assert parts[1..] == rest[1..];
    if s != [] {
      assert s == [s[0]] + s[1..];
      if |parts[0]| <= |s| {
        assert s[|parts[0]|..] == s[1..][|rest[0]|..];
        assert s[..|parts[0]|] == [s[0]] + s[1..][..|rest[0]|];
      }
    }
  }

  /** The leftmost place of `p` in `s`. */
  method Find(s: string, p: string) returns (at: Option<nat>)
    ensures at.Some? ==> OccursAt(p, s, at.value) && forall i: nat :: i < at.value ==> !OccursAt(p, s, i)
    ensures at.None? ==> forall i: nat :: !OccursAt(p, s, i)
  {
    for i := 0 to |s| + 1
      invariant forall k: nat :: k < i ==> !OccursAt(p, s, k)
    {
      if OccursAt(p, s, i) {
        return Some(i);
      }
    }
    at := None;
  }

  /** A pattern ending in a slash covers everything under it; any other is matched in full. */
  method Glob(pat: string, s: string) returns (r: bool)
    ensures EndsWith(pat, "/") ==> (r <==> pat <= s)
    ensures !EndsWith(pat, "/") ==> (r <==> Matches(pat, s))
  {
    if EndsWith(pat, "/") {
      return pat <= s;
    }
    SplitMatches(pat, s);
    var parts := Split(pat);
    if |parts| == 1 {
      SingleSplit(pat);
      return pat == s;
    }
    var rest := s;
    for i := 0 to |parts|
      invariant i == 0 ==> rest == s
      invariant i > 0 ==> i < |parts| && (PartsMatch(parts, s) <==> Fits(parts[i..], rest))
    {
      if i == 0 {
        if !(parts[0] <= rest) {
          return false;
        }
        rest := rest[|parts[0]|..];
      } else if i == |parts| - 1 {
        return EndsWith(rest, parts[i]);
      } else {
        var at := Find(rest, parts[i]);
        assert parts[i..][0] == parts[i] && |parts[i..]| > 1;
        if at.None? {
          return false;
        }
        LeftmostFits(parts[i..], rest, at.value);
        assert parts[i..][1..] == parts[i + 1..];
        rest := rest[at.value + |parts[i]|..];
      }
    }
    r := true;
  }

  lemma {:induction false} SingleSplit(pat: string)
    requires |Split(pat)| == 1
    ensures Split(pat)[0] == pat
  {
    if pat != [] {
      SingleSplit(pat[1..]);
      assert pat == [pat[0]] + pat[1..];
    }
  }
}
