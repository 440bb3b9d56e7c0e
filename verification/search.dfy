/** The search filter of the follower list: keep, in order, the followers whose
    lowercased login contains the lowercased query
    (GHFollowers/Screens/FollowerListVC.swift, `updateSearchResults`). */
module Search {
  import opened Followers
  import Text

  /** `f` is kept for `query`: its lowercased login contains the lowercased query. */
  predicate Matches(f: Follower, query: string): (b: bool)
    ensures b <==> Text.IsSubstring(Text.Lower(query), Text.Lower(f.login))
  {
    Text.ContainsIsSubstring(Text.Lower(f.login), Text.Lower(query));
    Text.Contains(Text.Lower(f.login), Text.Lower(query))
  }

  /** The followers of `fs` that match `query`, in their original order. */
  function Filter(fs: seq<Follower>, query: string): (r: seq<Follower>)
    ensures |r| <= |fs|
    ensures forall x :: x in r ==> x in fs && Matches(x, query)
    ensures forall x :: x in fs && Matches(x, query) ==> x in r
    decreases |fs|
  {
    if |fs| == 0 then []
    else
      var last := fs[|fs| - 1];
      assert fs == fs[..|fs| - 1] + [last];
      Filter(fs[..|fs| - 1], query) + (if Matches(last, query) then [last] else [])
  }

  /** `idx` lists strictly increasing positions of `b` at which the elements of
      `a` are found, one position per element of `a`. */
  ghost predicate Embeds<T>(idx: seq<int>, a: seq<T>, b: seq<T>) {
    && |idx| == |a|
    && (forall k :: 0 <= k < |idx| ==> 0 <= idx[k] < |b| && b[idx[k]] == a[k])
    && (forall k, l :: 0 <= k < l < |idx| ==> idx[k] < idx[l])
  }

  /** `a` is an order-preserving sub-sequence of `b`. */
  ghost predicate IsSubsequence<T>(a: seq<T>, b: seq<T>) {
    exists idx :: Embeds(idx, a, b)
  }

  /** The positions of `fs` holding a follower that matches `query`, ascending. */
  ghost function MatchPositions(fs: seq<Follower>, query: string): seq<int>
    decreases |fs|
  {
    if |fs| == 0 then []
    else MatchPositions(fs[..|fs| - 1], query)
         + (if Matches(fs[|fs| - 1], query) then [|fs| - 1] else [])
  }

  /** The filter keeps the followers at exactly the matching positions, in
      ascending order: every kept element matches, no matching element is
      dropped, and the order of `fs` is preserved. */
  lemma {:induction false} FilterKeepsExactlyMatchingPositions(fs: seq<Follower>, query: string)
    ensures Embeds(MatchPositions(fs, query), Filter(fs, query), fs)
    ensures forall i :: 0 <= i < |fs| ==> (Matches(fs[i], query) <==> i in MatchPositions(fs, query))
    decreases |fs|
  {
    if |fs| > 0 {
      var n := |fs| - 1;
      FilterKeepsExactlyMatchingPositions(fs[..n], query);
      SplitLast<Follower>([], fs);
      EmbedsSnoc(MatchPositions(fs[..n], query), Filter(fs[..n], query), fs[..n], fs[n],
                 Matches(fs[n], query));
    }
  }

  /** Appending `x` to `b` keeps an embedding, and extends it by the new last
      position when `x` is appended to `a` as well; no earlier position is the
      new one. */
  lemma EmbedsSnoc<T>(idx: seq<int>, a: seq<T>, b: seq<T>, x: T, keep: bool)
    requires Embeds(idx, a, b)
    ensures Embeds(idx + (if keep then [|b|] else []), a + (if keep then [x] else []), b + [x])
    ensures |b| !in idx
  {
    EmbedsExtend(idx, a, b, x);
  }

  /** Appending `x` to `b` keeps an embedding, and extends it by the new last
      position when `x` is appended to `a` as well. */
  lemma EmbedsExtend<T>(idx: seq<int>, a: seq<T>, b: seq<T>, x: T)
    requires Embeds(idx, a, b)
    ensures Embeds(idx + [], a + [], b + [x])
    ensures Embeds(idx + [|b|], a + [x], b + [x])
  {
    assert idx + [] == idx && a + [] == a;
    assert Embeds(idx, a, b + [x]);
  }

  lemma FilterIsSubsequence(fs: seq<Follower>, query: string)
    ensures IsSubsequence(Filter(fs, query), fs)
  {
    FilterKeepsExactlyMatchingPositions(fs, query);
  }

  /** The empty sequence is a sub-sequence of every sequence. */
  lemma EmptyIsSubsequence<T>(b: seq<T>)
    ensures IsSubsequence([], b)
  {
    assert Embeds([], [], b);
  }

  /** Appending to the end of `b` keeps every sub-sequence of `b` one. */
  lemma SubsequenceOfExtension<T>(a: seq<T>, b: seq<T>, c: seq<T>)
    requires IsSubsequence(a, b)
    ensures IsSubsequence(a, b + c)
  {
    var idx :| Embeds(idx, a, b);
    assert Embeds(idx, a, b + c);
  }

  /** Appending one follower appends it to the filtered list exactly when it matches. */
  lemma FilterSnoc(fs: seq<Follower>, x: Follower, query: string)
    ensures Filter(fs + [x], query) == Filter(fs, query) + (if Matches(x, query) then [x] else [])
  {
    var fx := fs + [x];
    assert fx[..|fx| - 1] == fs;
    assert fx[|fx| - 1] == x;
  }

  /** One step of `FilterAppend`: if filtering `a + b` filters each part, so does
      filtering `a + b` followed by one more follower. */
  lemma FilterAppendStep(a: seq<Follower>, b: seq<Follower>, x: Follower, query: string)
    requires Filter(a + b, query) == Filter(a, query) + Filter(b, query)
    ensures Filter((a + b) + [x], query) == Filter(a, query) + Filter(b + [x], query)
  {
    FilterSnoc(a + b, x, query);
    FilterSnoc(b, x, query);
    AppendAssoc(Filter(a, query), Filter(b, query), if Matches(x, query) then [x] else []);
  }

  /** Sequence facts stated apart from any filter, where they are cheap to prove. */
  lemma AppendAssoc<T>(p: seq<T>, q: seq<T>, r: seq<T>)
    ensures (p + q) + r == p + (q + r)
  {
  }

  lemma AppendEmpty<T>(p: seq<T>, q: seq<T>)
    requires |q| == 0
    ensures p + q == p
  {
  }

  lemma SplitLast<T>(a: seq<T>, b: seq<T>)
    requires |b| > 0
    ensures b == b[..|b| - 1] + [b[|b| - 1]]
    ensures a + b == (a + b[..|b| - 1]) + [b[|b| - 1]]
  {
  }

  /** Filtering a concatenation filters each part: filtering the list after a new
      page arrived is the old filtered list followed by the page's matches. */
  lemma {:induction false} FilterAppend(a: seq<Follower>, b: seq<Follower>, query: string)
    ensures Filter(a + b, query) == Filter(a, query) + Filter(b, query)
    decreases |b|
  {
    if |b| == 0 {
      AppendEmpty(a, b);
      AppendEmpty(Filter(a, query), Filter(b, query));
    } else {
      var n := |b| - 1;
      FilterAppend(a, b[..n], query);
      SplitLast(a, b);
      FilterAppendStep(a, b[..n], b[n], query);
    }
  }

  /** Only the lowercased query matters: the filter is case-insensitive in the query. */
  lemma {:induction false} FilterIgnoresQueryCase(fs: seq<Follower>, query: string)
    ensures Filter(fs, query) == Filter(fs, Text.Lower(query))
    decreases |fs|
  {
    Text.LowerIsLowerAndIdempotent(query);
    if |fs| > 0 {
      FilterIgnoresQueryCase(fs[..|fs| - 1], query);
    }
  }

  /** Filtering twice by the same query changes nothing. */
  lemma {:induction false} FilterIdempotent(fs: seq<Follower>, query: string)
    ensures Filter(Filter(fs, query), query) == Filter(fs, query)
    decreases |fs|
  {
    if |fs| > 0 {
      var n := |fs| - 1;
      var x := fs[n];
      FilterIdempotent(fs[..n], query);
      var rest := Filter(fs[..n], query);
      if Matches(x, query) {
        assert Filter(fs, query) == rest + [x];
        FilterAppend(rest, [x], query);
        assert [x][..0] == [];
        assert Filter([x], query) == [x];
      } else {
        assert Filter(fs, query) == rest + [];
        assert rest + [] == rest;
      }
    }
  }

  /** An upper-case query matches logins that contain it in lower case. */
  lemma FilterExample()
    ensures Filter([Follower("xaBy", "u1"), Follower("cd", "u2")], "AB") == [Follower("xaBy", "u1")]
  {
    var f1, f2 := Follower("xaBy", "u1"), Follower("cd", "u2");
    assert Text.Lower("AB") == "ab";
    assert Text.Lower("xaBy") == "xaby";
    assert Text.Lower("cd") == "cd";
    assert "xaby"[1..] == "aby";
    assert Text.Contains("xaby", "ab");
    assert "cd"[1..] == "d" && "d"[1..] == "";
    assert "cd"[..2][0] != "ab"[0];
    assert !Text.StartsWith("cd", "ab");
    assert !Text.Contains("d", "ab");
    assert !Text.Contains("cd", "ab");
    assert [f1, f2][..1] == [f1];
  }
}
