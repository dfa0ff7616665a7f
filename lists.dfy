/** List operations shared by the server and the client: the first `n`
    elements, removing every occurrence of a value, flipping the membership
    of a value, and de-duplicating in order of first occurrence. */
module Lists {

  /** No value occurs twice. */
  predicate NoDups<T(==)>(s: seq<T>)
  {
    forall i, j :: 0 <= i < j < |s| ==> s[i] != s[j]
  }

  /** `s.slice(0, n)`: the first `n` elements, or all of `s` when shorter. */
  function Take<T>(s: seq<T>, n: nat): (r: seq<T>)
    ensures |r| == if |s| <= n then |s| else n
    ensures r == s[..|r|]
  {
    if |s| <= n then s else s[..n]
  }

  /** `s.filter(y => y !== x)`. */
  function Without<T(==)>(s: seq<T>, x: T): seq<T>
  {
    if s == [] then [] else (if s[0] == x then [] else [s[0]]) + Without(s[1..], x)
  }

  /** The result holds exactly the elements of `s` other than `x`. */
  lemma {:induction false} WithoutMembers<T>(s: seq<T>, x: T)
    ensures forall y :: y in Without(s, x) <==> y in s && y != x
  {
    if s != [] {
      WithoutMembers(s[1..], x);
      assert s == [s[0]] + s[1..];
    }
  }

  /** Filtering distributes over concatenation; with `Without([y], x)` this
      fixes the result and shows that the kept elements stay in order. */
  lemma {:induction false} WithoutAppend<T>(s: seq<T>, t: seq<T>, x: T)
    ensures Without(s + t, x) == Without(s, x) + Without(t, x)
  {
    if s != [] {
      assert (s + t)[1..] == s[1..] + t;
      WithoutAppend(s[1..], t, x);
    } else {
      assert s + t == t;
    }
  }

  /** Every other value keeps its multiplicity; `x` is gone. */
  lemma {:induction false} WithoutCounts<T>(s: seq<T>, x: T)
    ensures multiset(Without(s, x)) == multiset(s)[x := 0]
  {
    if s != [] {
      WithoutCounts(s[1..], x);
      assert s == [s[0]] + s[1..];
    }
  }

  /** Filtering an absent value changes nothing. */
  lemma {:induction false} WithoutAbsent<T>(s: seq<T>, x: T)
    requires x !in s
    ensures Without(s, x) == s
  {
    if s != [] {
      assert x !in s[1..] by { assert forall y :: y in s[1..] ==> y in s; }
      WithoutAbsent(s[1..], x);
      assert s == [s[0]] + s[1..];
    }
  }

  /** Filtering keeps a list free of duplicates. */
  lemma {:induction false} WithoutNoDups<T>(s: seq<T>, x: T)
    requires NoDups(s)
    ensures NoDups(Without(s, x))
  {
    if s != [] {
      assert NoDups(s[1..]) by {
        forall i, j | 0 <= i < j < |s[1..]| ensures s[1..][i] != s[1..][j] {
          assert s[1..][i] == s[i + 1] && s[1..][j] == s[j + 1];
        }
      }
      WithoutNoDups(s[1..], x);
      WithoutMembers(s[1..], x);
      assert s[0] !in s[1..] by {
        forall k | 0 <= k < |s[1..]| ensures s[1..][k] != s[0] { assert s[1..][k] == s[k + 1]; }
      }
    }
  }

  /** Appending a value that is not present keeps a list free of duplicates. */
  lemma AppendFreshNoDups<T>(s: seq<T>, x: T)
    requires NoDups(s) && x !in s
    ensures NoDups(s + [x])
  {
  }

  /** `prev.includes(x) ? prev.filter(y => y !== x) : [...prev, x]`. */
  function Toggle<T(==)>(s: seq<T>, x: T): seq<T>
  {
    if x in s then Without(s, x) else s + [x]
  }

  /** Toggling flips whether `x` is present and leaves every other value's
      membership alone. */
  lemma ToggleMembership<T>(s: seq<T>, x: T)
    ensures x in Toggle(s, x) <==> x !in s
    ensures forall y :: y != x ==> (y in Toggle(s, x) <==> y in s)
  {
    WithoutMembers(s, x);
  }

  /** Toggling keeps a selection free of duplicates. */
  lemma ToggleNoDups<T>(s: seq<T>, x: T)
    requires NoDups(s)
    ensures NoDups(Toggle(s, x))
  {
    if x in s { WithoutNoDups(s, x); }
  }

  /** Toggling twice restores the selected values; when `x` was absent it
      restores the list itself. */
  lemma ToggleTwice<T>(s: seq<T>, x: T)
    ensures forall y :: y in Toggle(Toggle(s, x), x) <==> y in s
    ensures x !in s ==> Toggle(Toggle(s, x), x) == s
  {
    ToggleMembership(s, x);
    ToggleMembership(Toggle(s, x), x);
    if x !in s {
      WithoutAppend(s, [x], x);
      WithoutAbsent(s, x);
    }
  }

  /** Reference definition of de-duplication: element `i` is kept exactly
      when it does not occur among the elements before it. */
  function FirstOccurrences<T(==)>(s: seq<T>): seq<T>
  {
    if s == [] then []
    else
      var init := s[..|s| - 1];
      if s[|s| - 1] in init then FirstOccurrences(init) else FirstOccurrences(init) + [s[|s| - 1]]
  }

  lemma {:induction false} FirstOccurrencesMembers<T>(s: seq<T>)
    ensures forall y :: y in FirstOccurrences(s) <==> y in s
  {
    if s != [] {
      FirstOccurrencesMembers(s[..|s| - 1]);
      assert s == s[..|s| - 1] + [s[|s| - 1]];
    }
  }

  lemma {:induction false} FirstOccurrencesNoDups<T>(s: seq<T>)
    ensures NoDups(FirstOccurrences(s))
  {
    if s != [] {
      FirstOccurrencesNoDups(s[..|s| - 1]);
      FirstOccurrencesMembers(s[..|s| - 1]);
    }
  }

  /** Insertion into a JavaScript `Set`, one element after another, as
      `[...new Set(s)]` does starting from the list already inserted. */
  function InsertAll<T(==)>(acc: seq<T>, s: seq<T>): seq<T>
    decreases s
  {
    if s == [] then acc else InsertAll(if s[0] in acc then acc else acc + [s[0]], s[1..])
  }

  /** `[...new Set(s)]`. */
  function Distinct<T(==)>(s: seq<T>): seq<T>
  {
    InsertAll([], s)
  }

  lemma {:induction false} InsertAllFirstOccurrences<T>(p: seq<T>, s: seq<T>)
    ensures InsertAll(FirstOccurrences(p), s) == FirstOccurrences(p + s)
    decreases s
  {
    if s == [] {
      assert p + s == p;
    } else {
      var p' := p + [s[0]];
      assert p'[..|p'| - 1] == p;
      FirstOccurrencesMembers(p);
      assert (s[0] in FirstOccurrences(p)) == (s[0] in p);
      InsertAllFirstOccurrences(p', s[1..]);
      assert p' + s[1..] == p + s;
    }
  }

  /** `[...new Set(s)]` keeps the first occurrence of every value, in order,
      holds no duplicates and has exactly the values of `s`. */
  lemma DistinctSpec<T>(s: seq<T>)
    ensures Distinct(s) == FirstOccurrences(s)
    ensures NoDups(Distinct(s))
    ensures forall y :: y in Distinct(s) <==> y in s
  {
    InsertAllFirstOccurrences([], s);
    assert [] + s == s;
    FirstOccurrencesNoDups(s);
    FirstOccurrencesMembers(s);
  }

  /** A list without duplicates is no longer than the number of values it
      may draw from. */
  lemma {:induction false} NoDupsLength<T>(s: seq<T>, from: seq<T>)
    requires NoDups(s)
    requires forall y :: y in s ==> y in from
    ensures |s| <= |from|
  {
    var ss := set y | y in s;
    var fs := set y | y in from;
    assert ss <= fs;
    NoDupsCard(s);
    SeqSetCard(from);
    assert |ss| <= |fs| by { SubsetCard(ss, fs); }
  }

  lemma {:induction false} NoDupsCard<T>(s: seq<T>)
    requires NoDups(s)
    ensures |set y | y in s| == |s|
  {
    if s != [] {
      var t := s[..|s| - 1];
      assert NoDups(t);
      NoDupsCard(t);
      assert s == t + [s[|s| - 1]];
      assert s[|s| - 1] !in t;
      assert (set y | y in s) == (set y | y in t) + {s[|s| - 1]};
    }
  }

  lemma {:induction false} SeqSetCard<T>(s: seq<T>)
    ensures |set y | y in s| <= |s|
  {
    if s != [] {
      var t := s[..|s| - 1];
      SeqSetCard(t);
      assert s == t + [s[|s| - 1]];
      assert (set y | y in s) == (set y | y in t) + {s[|s| - 1]};
    }
  }

  lemma SubsetCard<T>(a: set<T>, b: set<T>)
    requires a <= b
    ensures |a| <= |b|
  {
    assert b == a + (b - a);
  }
}
