/**
 * The Ruby array operations `add_root_patterns` relies on: `<<` followed
 * by `flatten` (one level, a string or a list of strings) and `uniq`.
 */
module Lists {

  predicate NoDuplicates<T(==)>(s: seq<T>)
  {
    forall i, j :: 0 <= i < j < |s| ==> s[i] != s[j]
  }

  /** The index of the first occurrence of `x` in `s`. */
  function FirstIndex<T(==)>(s: seq<T>, x: T): (i: nat)
    requires x in s
    ensures i < |s| && s[i] == x
    ensures forall j :: 0 <= j < i ==> s[j] != x
  {
    if s[0] == x then 0 else 1 + FirstIndex(s[1..], x)
  }

  /**
   * `Array#uniq`: the elements of `s` without repetitions, each kept at
   * its first occurrence.
   */
  function Uniq<T(==)>(s: seq<T>): (u: seq<T>)
    ensures NoDuplicates(u)
    ensures forall i :: 0 <= i < |u| ==> u[i] in s
    ensures forall i :: 0 <= i < |s| ==> s[i] in u
    ensures |u| <= |s|
  {
    if s == [] then []
    else
      var init := s[..|s| - 1];
      assert s == init + [s[|s| - 1]];
      var prefix := Uniq(init);
      if s[|s| - 1] in prefix then prefix else prefix + [s[|s| - 1]]
  }

  /** Appending one element to the input of `Uniq`. */
  lemma UniqSnoc<T>(s: seq<T>, x: T)
    ensures Uniq(s + [x]) == if x in s then Uniq(s) else Uniq(s) + [x]
  {
    assert (s + [x])[..|s + [x]| - 1] == s;
  }

  /** A first occurrence in a prefix is a first occurrence in the whole. */
  lemma FirstIndexOfPrefix<T>(s: seq<T>, t: seq<T>, y: T)
    requires y in s
    ensures y in s + t && FirstIndex(s + t, y) == FirstIndex(s, y)
  {
    var i, k := FirstIndex(s + t, y), FirstIndex(s, y);
    assert (s + t)[k] == y;
  }

  /** `Uniq` lists the distinct elements in the order of their first occurrences. */
  lemma {:induction false} UniqKeepsFirstOccurrenceOrder<T>(s: seq<T>)
    ensures forall i, j :: 0 <= i < j < |Uniq(s)| ==>
              FirstIndex(s, Uniq(s)[i]) < FirstIndex(s, Uniq(s)[j])
  {
    if s != [] {
      var init, x := s[..|s| - 1], s[|s| - 1];
      assert s == init + [x];
      UniqKeepsFirstOccurrenceOrder(init);
      UniqSnoc(init, x);
      var u, p := Uniq(s), Uniq(init);
      forall i | 0 <= i < |p|
        ensures FirstIndex(s, p[i]) == FirstIndex(init, p[i])
      {
        FirstIndexOfPrefix(init, [x], p[i]);
      }
      if x !in init {
        assert FirstIndex(s, x) == |init|;
      }
    }
  }

  /** A list without duplicates is its own `uniq`. */
  lemma {:induction false} UniqOfDistinct<T>(s: seq<T>)
    requires NoDuplicates(s)
    ensures Uniq(s) == s
  {
    if s != [] {
      var init, x := s[..|s| - 1], s[|s| - 1];
      assert s == init + [x];
      UniqOfDistinct(init);
      UniqSnoc(init, x);
    }
  }

  /** Appending only elements already present does not change the `uniq`. */
  lemma {:induction false} UniqAppendPresent<T>(s: seq<T>, t: seq<T>)
    requires forall i :: 0 <= i < |t| ==> t[i] in s
    ensures Uniq(s + t) == Uniq(s)
  {
    if t != [] {
      var init, x := t[..|t| - 1], t[|t| - 1];
      assert t == init + [x];
      assert s + t == (s + init) + [x];
      UniqAppendPresent(s, init);
      UniqSnoc(s + init, x);
    } else {
      assert s + t == s;
    }
  }

  /** The `uniq` of `s + t` begins with the `uniq` of `s`: nothing present moves. */
  lemma {:induction false} UniqAppendExtends<T>(s: seq<T>, t: seq<T>)
    ensures |Uniq(s)| <= |Uniq(s + t)| && Uniq(s + t)[..|Uniq(s)|] == Uniq(s)
  {
    if t != [] {
      var init, x := t[..|t| - 1], t[|t| - 1];
      assert t == init + [x];
      assert s + t == (s + init) + [x];
      UniqAppendExtends(s, init);
      UniqSnoc(s + init, x);
    } else {
      assert s + t == s;
    }
  }

  /** The argument of `add_root_patterns`: one pattern or a list of them. */
  datatype PatternArg = Single(pattern: string) | List(patterns: seq<string>)

  /** What `flatten` leaves of `[arg]` once appended with `<<`. */
  function Flatten(arg: PatternArg): (ps: seq<string>)
    ensures arg.Single? ==> ps == [arg.pattern]
    ensures arg.List? ==> ps == arg.patterns
  {
    match arg
    case Single(p) => [p]
    case List(ps) => ps
  }

  /**
   * Adding one pattern as a string or as a one-element list gives the same
   * patterns, whatever the list it is added to.
   */
  lemma SingleSameAsList(s: seq<string>, p: string)
    ensures Flatten(Single(p)) == Flatten(List([p]))
    ensures Uniq(s + Flatten(Single(p))) == Uniq(s + Flatten(List([p])))
  {
  }
}
