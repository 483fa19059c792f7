/** Erasing the first equal entry of a vector, and vectors without repetition. */
module Lists {
  import opened Text

  function RemoveFirst<Id(==)>(s: seq<Id>, c: Id): (r: seq<Id>)
    ensures c !in s ==> r == s
    ensures c in s ==> |r| == |s| - 1
    ensures forall x <- r :: x in s
    ensures forall x <- s :: x != c ==> x in r
  {
    if s == [] then [] else if s[0] == c then s[1..] else [s[0]] + RemoveFirst(s[1..], c)
  }

  ghost predicate Distinct<T>(s: seq<T>) {
    forall i, j :: 0 <= i < j < |s| ==> s[i] != s[j]
  }

  /** Erasing takes out one position and leaves the others in order. */
  lemma {:induction false} RemoveFirstSplits<Id>(s: seq<Id>, c: Id) returns (i: nat)
    requires c in s
    ensures i < |s| && s[i] == c && RemoveFirst(s, c) == s[..i] + s[i + 1..]
  {
    i := 0;
    if s[0] != c {
      var k := RemoveFirstSplits(s[1..], c);
      i := k + 1;
      assert s[..i] == [s[0]] + s[1..][..k] && s[1..][k + 1..] == s[i + 1..];
    }
  }

  lemma {:induction false} RemoveFirstDistinct<Id>(s: seq<Id>, c: Id)
    requires Distinct(s)
    ensures Distinct(RemoveFirst(s, c)) && c !in RemoveFirst(s, c)
  {
    if s != [] && s[0] != c {
      RemoveFirstDistinct(s[1..], c);
      assert forall x <- RemoveFirst(s[1..], c) :: x in s[1..];
      assert s[0] !in s[1..];
    }
  }

  lemma {:induction false} RemoveFirstMultiset<Id>(s: seq<Id>, c: Id)
    ensures multiset(RemoveFirst(s, c)) == multiset(s) - multiset{c}
  {
    if s != [] {
      assert s == [s[0]] + s[1..];
      if s[0] != c {
        RemoveFirstMultiset(s[1..], c);
      }
    }
  }

  lemma DistinctSnoc<T>(s: seq<T>, x: T)
    requires Distinct(s) && x !in s
    ensures Distinct(s + [x])
  {
  }

  /** The erase loops: the first equal entry goes. */
  method EraseFirst<Id(==)>(s: seq<Id>, c: Id) returns (r: seq<Id>)
    ensures r == RemoveFirst(s, c)
  {
    hide RemoveFirst;
    for i := 0 to |s|
      invariant c !in s[..i]
    {
      if s[i] == c {
        RemoveFirstAt(s, c, i);
        return s[..i] + s[i + 1..];
      }
    }
    assert s[..|s|] == s;
    r := s;
  }

  lemma {:induction false} RemoveFirstAt<Id>(s: seq<Id>, c: Id, i: nat)
    requires i < |s| && s[i] == c && c !in s[..i]
    ensures RemoveFirst(s, c) == s[..i] + s[i + 1..]
  {
    if i > 0 {
      assert s[..i][0] == s[0] && s[..i][1..] == s[1..][..i - 1];
      RemoveFirstAt(s[1..], c, i - 1);
      assert s[..i] == [s[0]] + s[1..][..i - 1] && s[1..][i..] == s[i + 1..];
    }
  }

  lemma Rebracket<T>(a: seq<T>, b: seq<T>, c: seq<T>)
    ensures a + b + c == a + (b + c) && [] + c == c
  {
  }

  /** What a loop has done so far, in front of what is left to do; `None` when the rest fails. */
  function After<T>(done: seq<T>, rest: Option<seq<T>>): Option<seq<T>> {
    match rest
    case None => None
    case Some(more) => Some(done + more)
  }

  lemma AfterNone<T>(done: seq<T>)
    ensures After(done, None) == None
  {
  }

  lemma AfterAll<T>(done: seq<T>, rest: seq<T>)
    requires rest == []
    ensures done + rest == done && After(done, Some([])) == Some(done)
  {
    assert done + [] == done;
  }

  lemma Advance<T>(done: seq<T>, rest: seq<T>, x: T)
    requires rest != []
    ensures (done + rest)[|done| := x] == done + [x] + rest[1..]
  {
  }

  lemma AfterStart<T>(rest: Option<seq<T>>)
    ensures After([], rest) == rest
  {
    assert rest.Some? ==> [] + rest.value == rest.value;
  }

  lemma AfterRegroup<T>(done: seq<T>, one: T, rest: Option<seq<T>>)
    ensures After(done, After([one], rest)) == After(done + [one], rest)
  {
    if rest.Some? {
      Rebracket(done, [one], rest.value);
    }
  }
}
