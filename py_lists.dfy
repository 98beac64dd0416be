/** Facts about Python lists used as ordered collections: order kept, no duplicates. */
module PyLists {

  /** No element appears twice. */
  predicate Distinct<T(==)>(s: seq<T>) {
    forall i, j :: 0 <= i < j < |s| ==> s[i] != s[j]
  }

  /** `ix` picks the elements of `r` out of `s` at strictly increasing positions. */
  ghost predicate Embeds<T>(r: seq<T>, s: seq<T>, ix: seq<int>) {
    && |ix| == |r|
    && (forall i :: 0 <= i < |ix| ==> 0 <= ix[i] < |s| && s[ix[i]] == r[i])
    && (forall i, j :: 0 <= i < j < |ix| ==> ix[i] < ix[j])
  }

  /** `r` is `s` with some elements left out and the rest in their order. */
  ghost predicate IsSubseq<T>(r: seq<T>, s: seq<T>) {
    exists ix :: Embeds(r, s, ix)
  }

  /** Picking from a list without duplicates gives a list without duplicates. */
  lemma SubseqDistinct<T>(r: seq<T>, s: seq<T>)
    requires IsSubseq(r, s) && Distinct(s)
    ensures Distinct(r)
  {
    var ix :| Embeds(r, s, ix);
    forall i, j | 0 <= i < j < |r| ensures r[i] != r[j] {
      assert ix[i] < ix[j];
    }
  }

  /** Extending the source list keeps an embedding. */
  lemma EmbedsExtend<T>(r: seq<T>, s: seq<T>, ix: seq<int>, x: T)
    requires Embeds(r, s, ix)
    ensures Embeds(r, s + [x], ix)
  {
    forall i | 0 <= i < |ix| ensures (s + [x])[ix[i]] == r[i] {
      assert ix[i] < |s|;
    }
  }

  /** Appending the same new last element to both sides keeps an embedding. */
  lemma EmbedsSnoc<T>(r: seq<T>, s: seq<T>, ix: seq<int>, x: T)
    requires Embeds(r, s, ix)
    ensures Embeds(r + [x], s + [x], ix + [|s|])
  {
    EmbedsExtend(r, s, ix, x);
  }

  /** An element of a subsequence is an element of the list it was picked from. */
  lemma SubseqMember<T>(r: seq<T>, s: seq<T>, x: T)
    requires IsSubseq(r, s) && x in r
    ensures x in s
  {
    var ix :| Embeds(r, s, ix);
    var m :| 0 <= m < |r| && r[m] == x;
    assert s[ix[m]] == x;
  }

  /** A prefix of a subsequence is a subsequence. */
  lemma SubseqPrefix<T>(r: seq<T>, s: seq<T>, n: nat)
    requires IsSubseq(r, s) && n <= |r|
    ensures IsSubseq(r[..n], s)
  {
    var ix :| Embeds(r, s, ix);
    assert Embeds(r[..n], s, ix[..n]);
  }

  function Id<T>(x: T): T { x }

  /** Mapping the identity over a list gives the list back. */
  lemma MapId<T>(s: seq<T>)
    ensures MapSeq(s, Id) == s
  {
  }

  /** `[f(x) for x in s]` */
  function MapSeq<T, U>(s: seq<T>, f: T -> U): (r: seq<U>)
    ensures |r| == |s| && forall i :: 0 <= i < |s| ==> r[i] == f(s[i])
  {
    seq(|s|, i requires 0 <= i < |s| => f(s[i]))
  }

  /** `[f(x) for x in s if keep(x)]`, built from the back as a loop appending to a list would. */
  function Select<T, U>(s: seq<T>, keep: T -> bool, f: T -> U): (r: seq<U>)
    ensures |r| <= |s|
  {
    if s == [] then [] else Select(s[..|s| - 1], keep, f) + (if keep(s[|s| - 1]) then [f(s[|s| - 1])] else [])
  }

  /** One more element considered. */
  lemma SelectSnoc<T, U>(s: seq<T>, keep: T -> bool, f: T -> U, i: nat)
    requires i < |s|
    ensures Select(s[..i + 1], keep, f) == Select(s[..i], keep, f) + (if keep(s[i]) then [f(s[i])] else [])
  {
    assert s[..i + 1][..i] == s[..i];
  }

  /** The selected images come in the order of their elements. */
  lemma {:induction false} SelectOrdered<T, U>(s: seq<T>, keep: T -> bool, f: T -> U)
    ensures IsSubseq(Select(s, keep, f), MapSeq(s, f))
  {
    if s == [] {
      assert Embeds(Select(s, keep, f), MapSeq(s, f), []);
    } else {
      var init := s[..|s| - 1];
      var x := s[|s| - 1];
      SelectOrdered(init, keep, f);
      var ix :| Embeds(Select(init, keep, f), MapSeq(init, f), ix);
      assert MapSeq(s, f) == MapSeq(init, f) + [f(x)];
      var ix' := EmbedsStep(Select(init, keep, f), MapSeq(init, f), ix, f(x), keep(x));
      assert Embeds(Select(s, keep, f), MapSeq(s, f), ix');
    }
  }

  /** One more element in the source list, kept or not, keeps an embedding. */
  lemma EmbedsStep<T>(r: seq<T>, s: seq<T>, ix: seq<int>, x: T, kept: bool) returns (ix': seq<int>)
    requires Embeds(r, s, ix)
    ensures Embeds(r + (if kept then [x] else []), s + [x], ix')
  {
    if kept {
      EmbedsSnoc(r, s, ix, x);
      ix' := ix + [|s|];
    } else {
      EmbedsExtend(r, s, ix, x);
      assert r + [] == r;
      ix' := ix;
    }
  }

  /** Every selected value is the image of a kept element. */
  lemma {:induction false} SelectKept<T, U>(s: seq<T>, keep: T -> bool, f: T -> U, i: nat)
    requires i < |Select(s, keep, f)|
    ensures exists k :: 0 <= k < |s| && keep(s[k]) && Select(s, keep, f)[i] == f(s[k])
  {
    var init := s[..|s| - 1];
    if i < |Select(init, keep, f)| {
      SelectKept(init, keep, f, i);
      var k :| 0 <= k < |init| && keep(init[k]) && Select(init, keep, f)[i] == f(init[k]);
      assert s[k] == init[k];
    } else {
      assert keep(s[|s| - 1]) && Select(s, keep, f)[i] == f(s[|s| - 1]);
    }
  }

  /** Every kept element's image is selected. */
  lemma {:induction false} SelectComplete<T, U>(s: seq<T>, keep: T -> bool, f: T -> U, k: nat)
    requires k < |s| && keep(s[k])
    ensures f(s[k]) in Select(s, keep, f)
  {
    if k < |s| - 1 {
      var init := s[..|s| - 1];
      assert init[k] == s[k];
      SelectComplete(init, keep, f, k);
    }
  }

  /** Selecting from two lists one after the other. */
  lemma {:induction false} SelectAppend<T, U>(a: seq<T>, b: seq<T>, keep: T -> bool, f: T -> U)
    ensures Select(a + b, keep, f) == Select(a, keep, f) + Select(b, keep, f)
  {
    if b == [] {
      assert a + b == a;
    } else {
      var init := b[..|b| - 1];
      assert (a + b)[..|a + b| - 1] == a + init;
      SelectAppend(a, init, keep, f);
    }
  }

  /** Each element is kept by exactly one of two complementary tests. */
  lemma {:induction false} SelectPartition<T, U>(s: seq<T>, p: T -> bool, q: T -> bool, f: T -> U)
    requires forall x :: q(x) == !p(x)
    ensures |Select(s, p, f)| + |Select(s, q, f)| == |s|
  {
    if s != [] {
      SelectPartition(s[..|s| - 1], p, q, f);
      assert q(s[|s| - 1]) == !p(s[|s| - 1]);
    }
  }

  /** Filtering by a weaker test first changes nothing. */
  lemma {:induction false} SelectWithin<T, U>(s: seq<T>, p: T -> bool, q: T -> bool, f: T -> U)
    requires forall x :: p(x) ==> q(x)
    ensures Select(Select(s, q, Id), p, f) == Select(s, p, f)
  {
    if s != [] {
      var init := s[..|s| - 1];
      var x := s[|s| - 1];
      SelectWithin(init, p, q, f);
      SelectAppend(Select(init, q, Id), if q(x) then [x] else [], p, f);
      if q(x) {
        assert Select([x], p, f) == Select([x][..0], p, f) + (if p(x) then [f(x)] else []);
      }
    }
  }

  /** Keeping what either of two exclusive tests keeps keeps as many as the two keep apart. */
  lemma {:induction false} SelectSplit<T, U>(s: seq<T>, p: T -> bool, q: T -> bool, r: T -> bool, f: T -> U)
    requires forall x :: r(x) == (p(x) || q(x)) && !(p(x) && q(x))
    ensures |Select(s, r, f)| == |Select(s, p, f)| + |Select(s, q, f)|
  {
    if s != [] {
      SelectSplit(s[..|s| - 1], p, q, r, f);
      assert r(s[|s| - 1]) == (p(s[|s| - 1]) || q(s[|s| - 1]));
    }
  }

  /** A kept element makes the selection non-empty. */
  lemma SelectNonEmpty<T, U>(s: seq<T>, keep: T -> bool, f: T -> U, k: nat)
    requires k < |s| && keep(s[k])
    ensures |Select(s, keep, f)| > 0
  {
    SelectComplete(s, keep, f, k);
  }
}
