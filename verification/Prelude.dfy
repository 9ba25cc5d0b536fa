// Shared vocabulary of the model: identifiers, option and result types, and the two ways
// the round engine cuts an ordered list down to the names it keeps.

module Prelude {

  type Id = string
  type Suite = string

  datatype Option<+T> = None | Some(value: T)

  datatype Result<+T> = Ok(value: T) | Err(error: string)

  ghost predicate NoDup<T>(s: seq<T>) {
    forall i, j :: 0 <= i < j < |s| ==> s[i] != s[j]
  }

  lemma NoDupAppend<T>(a: seq<T>, b: seq<T>)
    requires NoDup(a) && NoDup(b) && forall x :: x in b ==> x !in a
    ensures NoDup(a + b)
  {
    forall i, j | 0 <= i < j < |a + b| ensures (a + b)[i] != (a + b)[j] {
      if j >= |a| {
        assert b[j - |a|] in b;
      }
    }
  }

  lemma TakeOneMore<T>(s: seq<T>, i: nat)
    requires i < |s|
    ensures s[..i + 1] == s[..i] + [s[i]] && s[..i + 1][..i] == s[..i]
  {
  }

  lemma MinusOneMore<K, V>(m: map<K, V>, gone: set<K>, k: K)
    ensures (m - gone) - {k} == m - (gone + {k})
  {
  }

  function Elems<T>(s: seq<T>): (r: set<T>) {
    set x | x in s
  }

  lemma ElemsHas<T>(s: seq<T>, x: T)
    ensures x in Elems(s) <==> x in s
  {
  }

  lemma ElemsNone<T>(s: seq<T>)
    ensures s == [] <==> Elems(s) == {}
  {
    if s != [] {
      ElemsHas(s, s[0]);
    }
  }

  /** `sub` is `s` with some elements left out, the rest in order. */
  predicate SubList<T(==)>(sub: seq<T>, s: seq<T>)
    decreases |s|
  {
    if sub == [] then true
    else if s == [] then false
    else if sub[0] == s[0] then SubList(sub[1..], s[1..])
    else SubList(sub, s[1..])
  }

  lemma {:induction false} SubListHas<T>(sub: seq<T>, s: seq<T>, x: T)
    requires SubList(sub, s) && x in sub
    ensures x in s
  {
    if sub[0] == s[0] {
      if x != sub[0] {
        assert x in sub[1..];
        SubListHas(sub[1..], s[1..], x);
      }
    } else {
      SubListHas(sub, s[1..], x);
    }
  }

  /** The ids of `s` that are in `keep`, in the order of `s`. */
  function Within(s: seq<Id>, keep: set<Id>): (r: seq<Id>) {
    if s == [] then []
    else (if s[0] in keep then [s[0]] else []) + Within(s[1..], keep)
  }

  lemma {:induction false} SubListWhole<T>(s: seq<T>)
    ensures SubList(s, s)
  {
    if s != [] {
      SubListWhole(s[1..]);
    }
  }

  lemma {:induction false} WithinSub(s: seq<Id>, keep: set<Id>)
    ensures SubList(Within(s, keep), s)
  {
    if s != [] {
      WithinSub(s[1..], keep);
      WithinElems(s[1..], keep);
      var rest := Within(s[1..], keep);
      if s[0] in keep {
        assert Within(s, keep)[1..] == rest;
      } else {
        assert Within(s, keep) == rest;
        assert rest != [] ==> rest[0] in rest;
      }
    }
  }

  lemma {:induction false} WithinElems(s: seq<Id>, keep: set<Id>)
    ensures |Within(s, keep)| <= |s|
    ensures forall x :: x in Within(s, keep) <==> x in s && x in keep
  {
    if s != [] {
      WithinElems(s[1..], keep);
      assert s == [s[0]] + s[1..];
    }
  }

  lemma {:induction false} WithinAll(s: seq<Id>, keep: set<Id>)
    ensures |Within(s, keep)| == |s| <==> Elems(s) <= keep
    ensures |Within(s, keep)| == |s| ==> Within(s, keep) == s
  {
    if s != [] {
      WithinAll(s[1..], keep);
      WithinElems(s[1..], keep);
      assert s == [s[0]] + s[1..];
      assert forall x :: x in s[1..] ==> x in Elems(s);
      assert forall x :: x in s ==> x == s[0] || x in s[1..];
      assert s[0] in Elems(s);
    }
  }

  lemma {:induction false} WithinSnoc(s: seq<Id>, x: Id, keep: set<Id>)
    ensures Within(s + [x], keep) == Within(s, keep) + (if x in keep then [x] else [])
  {
    var longer := s + [x];
    if s == [] {
      assert longer[1..] == [];
    } else {
      assert longer[1..] == s[1..] + [x];
      WithinSnoc(s[1..], x, keep);
      var first := if s[0] in keep then [s[0]] else [];
      assert Within(longer, keep) == first + Within(s[1..] + [x], keep);
    }
  }

  /** Order-preserving restrictions of one list are ordered by inclusion of their elements:
      no longer than the larger one, and equal to it when equally long. */
  lemma {:induction false} WithinMonotone(s: seq<Id>, a: set<Id>, b: set<Id>)
    requires Elems(Within(s, a)) <= Elems(Within(s, b))
    ensures |Within(s, a)| <= |Within(s, b)|
    ensures |Within(s, a)| == |Within(s, b)| ==> Within(s, a) == Within(s, b)
  {
    WithinElems(s, a);
    WithinElems(s, b);
    var c := set x | x in a && x in b;
    assert forall x :: x in s && x in a ==> x in b by {
      forall x | x in s && x in a ensures x in b {
        assert x in Elems(Within(s, a));
      }
    }
    WithinOrdered(s, a, b);
  }

  lemma {:induction false} WithinOrdered(s: seq<Id>, a: set<Id>, b: set<Id>)
    requires forall x :: x in s && x in a ==> x in b
    ensures |Within(s, a)| <= |Within(s, b)|
    ensures |Within(s, a)| == |Within(s, b)| ==> Within(s, a) == Within(s, b)
  {
    if s != [] {
      assert forall x :: x in s[1..] ==> x in s;
      WithinOrdered(s[1..], a, b);
    }
  }

  // ----- text ------------------------------------------------------------------------------

  predicate IsSpace(c: char) {
    c == ' ' || c == '\t' || c == '\n' || c == '\r'
  }

  function Trim(s: string): (r: string) {
    if s != [] && IsSpace(s[0]) then Trim(s[1..])
    else if s != [] && IsSpace(s[|s| - 1]) then Trim(s[..|s| - 1])
    else s
  }
}
