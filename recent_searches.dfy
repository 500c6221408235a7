/**
 * The recent-search list as values: most recent first, moved to the front
 * when searched again, without duplicates, and at most `Capacity` long.
 */
module RecentSearches {
  import opened Sequences

  /** The most entries the list keeps. */
  const Capacity: nat := 5

  /** What every list the handlers build satisfies. */
  ghost predicate WellFormed(s: seq<string>) {
    |s| <= Capacity && NoDup(s)
  }

  /**
   * `s` without any entry equal to `q` (`filter((r) => r !== q)`): no `q` is
   * left, every other entry keeps its multiplicity and the survivors keep
   * their order.
   */
  function Without(s: seq<string>, q: string): (r: seq<string>)
    ensures q !in r
    ensures forall x :: x in r <==> x in s && x != q
    ensures forall x :: x != q ==> multiset(r)[x] == multiset(s)[x]
    ensures |r| == |s| - multiset(s)[q]
    ensures IsSubseq(r, s)
  {
    if s == [] then []
    else
      assert s == [s[0]] + s[1..];
      if s[0] == q then Without(s[1..], q)
      else [s[0]] + Without(s[1..], q)
  }

  /**
   * The list after searching for `q`: `[q, ...without q].slice(0, 5)`. It
   * starts with `q`, is at most `Capacity` long, and after `q` holds the
   * longest prefix of the other entries that fits.
   */
  function Saved(recent: seq<string>, q: string): (r: seq<string>)
    ensures 0 < |r| <= Capacity && r[0] == q
    ensures r[1..] <= Without(recent, q)
    ensures |r| == 1 + |Without(recent, q)| || |r| == Capacity
  {
    var updated := [q] + Without(recent, q);
    updated[..if |updated| < Capacity then |updated| else Capacity]
  }

  /** Removing entries keeps a list free of duplicates. */
  lemma {:induction false} WithoutNoDup(s: seq<string>, q: string)
    requires NoDup(s)
    ensures NoDup(Without(s, q))
  {
    if s != [] {
      assert NoDup(s[1..]) by {
        forall i, j | 0 <= i < j < |s[1..]| ensures s[1..][i] != s[1..][j] {
          assert s[1..][i] == s[i + 1] && s[1..][j] == s[j + 1];
        }
      }
      WithoutNoDup(s[1..], q);
      if s[0] != q {
        var w := Without(s[1..], q);
        assert s[0] !in s[1..] by {
          forall j | 0 <= j < |s[1..]| ensures s[1..][j] != s[0] {
            assert s[1..][j] == s[j + 1];
          }
        }
        assert s[0] !in w;
        var r := [s[0]] + w;
        forall i, j | 0 <= i < j < |r| ensures r[i] != r[j] {
          assert r[j] == w[j - 1];
          if i > 0 {
            assert r[i] == w[i - 1];
          }
        }
      }
    }
  }

  /** Removing an entry that is not there changes nothing. */
  lemma {:induction false} WithoutAbsent(s: seq<string>, q: string)
    requires q !in s
    ensures Without(s, q) == s
  {
    if s != [] {
      WithoutAbsent(s[1..], q);
    }
  }

  /** Removal is idempotent: a second removal of the same entry changes nothing. */
  lemma WithoutIdempotent(s: seq<string>, q: string)
    ensures Without(Without(s, q), q) == Without(s, q)
  {
    WithoutAbsent(Without(s, q), q);
  }

  /** Removal keeps a list well formed. */
  lemma WithoutWellFormed(s: seq<string>, q: string)
    requires WellFormed(s)
    ensures WellFormed(Without(s, q))
  {
    WithoutNoDup(s, q);
  }

  /** Saving keeps a duplicate-free list duplicate-free, and the result is well formed. */
  lemma SavedWellFormed(recent: seq<string>, q: string)
    requires NoDup(recent)
    ensures WellFormed(Saved(recent, q))
  {
    var w := Without(recent, q);
    WithoutNoDup(recent, q);
    var u := [q] + w;
    forall i, j | 0 <= i < j < |u| ensures u[i] != u[j] {
      assert u[j] == w[j - 1];
      if i > 0 {
        assert u[i] == w[i - 1];
      }
    }
    var r := Saved(recent, q);
    assert r <= u;
    forall i, j | 0 <= i < j < |r| ensures r[i] != r[j] {
      assert r[i] == u[i] && r[j] == u[j];
    }
  }

  /** The entries that follow `q` after a save are old entries in their old relative order. */
  lemma SavedKeepsOrder(recent: seq<string>, q: string)
    ensures IsSubseq(Saved(recent, q)[1..], recent)
  {
    PrefixIsSubseq(Saved(recent, q)[1..], Without(recent, q), recent);
  }

  /**
   * Searching again for an entry of a well-formed list only moves it to the
   * front: the length and the entries are unchanged, the others keep their order.
   */
  lemma SavedExisting(recent: seq<string>, q: string)
    requires WellFormed(recent) && q in recent
    ensures Saved(recent, q) == [q] + Without(recent, q)
    ensures |Saved(recent, q)| == |recent|
    ensures multiset(Saved(recent, q)) == multiset(recent)
  {
    NoDupCount(recent, q);
    var w := Without(recent, q);
    var r := Saved(recent, q);
    assert |[q] + w| == |recent|;
    assert r == [q] + w;
    forall x ensures multiset(r)[x] == multiset(recent)[x] {
      assert multiset(r) == multiset{q} + multiset(w);
    }
    assert multiset(r) == multiset(recent);
  }

  /**
   * Searching for a new entry puts it in front of the old list; when the list
   * is full, its oldest entry is dropped.
   */
  lemma SavedNew(recent: seq<string>, q: string)
    requires q !in recent
    ensures |recent| < Capacity ==> Saved(recent, q) == [q] + recent
    ensures Capacity <= |recent| ==> Saved(recent, q) == [q] + recent[..Capacity - 1]
  {
    WithoutAbsent(recent, q);
  }

  /** Searching for the same query twice leaves the list as searching once does. */
  lemma SavedIdempotent(recent: seq<string>, q: string)
    ensures Saved(Saved(recent, q), q) == Saved(recent, q)
  {
    var r := Saved(recent, q);
    var tail := r[1..];
    assert r == [q] + tail;
    assert q !in tail;
    assert Without(r, q) == Without(tail, q);
    WithoutAbsent(tail, q);
  }

  /** Removing a query just saved restores a list that was not full and did not hold it. */
  lemma RemoveUndoesSave(recent: seq<string>, q: string)
    requires q !in recent && |recent| < Capacity
    ensures Without(Saved(recent, q), q) == recent
  {
    SavedNew(recent, q);
    var r := Saved(recent, q);
    assert r == [q] + recent;
    assert Without(r, q) == Without(recent, q);
    WithoutAbsent(recent, q);
  }
}
