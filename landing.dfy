/**
 * The landing page: up to five featured items drawn at random, without
 * replacement, from the full catalogue, and the scroll-to-top button.
 * The random choices are an input: the index drawn at each step of the loop.
 */
module Landing {

  import opened Js

  /** How many items are featured at most. */
  const MaxFeatured: nat := 5

  /** The scroll offset past which the scroll-to-top button shows. */
  const ScrollThreshold: real := 400.0

  function Min(a: nat, b: nat): (m: nat)
    ensures m <= a && m <= b && (m == a || m == b)
  {
    if a <= b then a else b
  }

  /**
   * Indices standing in for `Math.floor(Math.random() * copy.length)` at each
   * of `k` steps over a list of `n` items: the one drawn at step `i` is below
   * the length of the copy then, `n - i`.
   */
  function ValidDraws(draws: seq<nat>, n: nat, k: nat): (b: bool)
    ensures b ==> k <= n && k <= |draws|
    ensures b && k > 0 ==> draws[0] < n
    ensures k == 0 ==> b
  {
    k <= n && k <= |draws| && forall i :: 0 <= i < k ==> draws[i] < n - i
  }

  /** What is left of valid draws after one step is valid for the shorter copy. */
  lemma DrawsAfterStep(draws: seq<nat>, n: nat, k: nat)
    requires ValidDraws(draws, n, k) && k > 0
    ensures ValidDraws(draws[1..], n - 1, k - 1)
  {
    assert forall i :: 0 <= i < k - 1 ==> draws[1..][i] == draws[i + 1];
  }

  /** `s.splice(k, 1)` on a copy: `s` without its element at `k`. */
  function Remove<T>(s: seq<T>, k: nat): (r: seq<T>)
    requires k < |s|
    ensures |r| == |s| - 1
    ensures forall i :: 0 <= i < k ==> r[i] == s[i]
    ensures forall i :: k <= i < |r| ==> r[i] == s[i + 1]
  {
    s[..k] + s[k + 1..]
  }

  /** Splicing out one element takes exactly one occurrence of it out of the multiset. */
  lemma RemoveMultiset<T>(s: seq<T>, k: nat)
    requires k < |s|
    ensures multiset(Remove(s, k)) + multiset{s[k]} == multiset(s)
  {
    assert s == s[..k] + [s[k]] + s[k + 1..];
  }

  /** The `k` items the loop picks from `copy` with these draws, in the order picked. */
  function Sample<T>(copy: seq<T>, draws: seq<nat>, k: nat): (picked: seq<T>)
    requires ValidDraws(draws, |copy|, k)
    ensures |picked| == k
    decreases k
  {
    if k == 0 then []
    else
      DrawsAfterStep(draws, |copy|, k);
      [copy[draws[0]]] + Sample(Remove(copy, draws[0]), draws[1..], k - 1)
  }

  /** Every pick comes from `copy`, and no item is picked more often than it occurs there. */
  lemma {:induction false} SampleSubMultiset<T>(copy: seq<T>, draws: seq<nat>, k: nat)
    requires ValidDraws(draws, |copy|, k)
    ensures multiset(Sample(copy, draws, k)) <= multiset(copy)
    decreases k
  {
    if k > 0 {
      var j := draws[0];
      DrawsAfterStep(draws, |copy|, k);
      SampleSubMultiset(Remove(copy, j), draws[1..], k - 1);
      RemoveMultiset(copy, j);
      assert multiset(Sample(copy, draws, k)) == multiset{copy[j]} + multiset(Sample(Remove(copy, j), draws[1..], k - 1));
    }
  }

  /** The positions 0 .. n-1 of a list of length `n`. */
  function Positions(n: nat): (p: seq<nat>)
    ensures |p| == n && forall i :: 0 <= i < n ==> p[i] == i
  {
    seq(n, i => i)
  }

  /** The same draws pick, from a list of positions into `all`, the positions of the items picked. */
  lemma {:induction false} SampleTracksPositions<T>(all: seq<T>, s: seq<T>, pos: seq<nat>, draws: seq<nat>, k: nat)
    requires |pos| == |s| && forall i :: 0 <= i < |s| ==> pos[i] < |all| && s[i] == all[pos[i]]
    requires ValidDraws(draws, |s|, k)
    ensures |Sample<nat>(pos, draws, k)| == |Sample(s, draws, k)| == k
    ensures forall i :: 0 <= i < k ==> Sample<nat>(pos, draws, k)[i] < |all| && Sample(s, draws, k)[i] == all[Sample<nat>(pos, draws, k)[i]]
    decreases k
  {
    if k > 0 {
      var j := draws[0];
      DrawsAfterStep(draws, |s|, k);
      assert forall i :: 0 <= i < |s| - 1 ==> Remove(s, j)[i] == all[Remove(pos, j)[i]] by {
        forall i | 0 <= i < |s| - 1 ensures Remove(s, j)[i] == all[Remove(pos, j)[i]] && Remove(pos, j)[i] < |all| {
          if i < j {
            assert Remove(s, j)[i] == s[i] && Remove(pos, j)[i] == pos[i];
          } else {
            assert Remove(s, j)[i] == s[i + 1] && Remove(pos, j)[i] == pos[i + 1];
          }
        }
      }
      SampleTracksPositions(all, Remove(s, j), Remove(pos, j), draws[1..], k - 1);
    }
  }

  /** Each value occurs at most once. */
  ghost predicate NoRepeats<T>(s: seq<T>)
  {
    forall x | x in multiset(s) :: multiset(s)[x] <= 1
  }

  /** A value occurring at most once cannot sit at two positions. */
  lemma NoRepeatsDistinct<T>(s: seq<T>)
    requires NoRepeats(s)
    ensures Distinct(s)
  {
    forall i, j | 0 <= i < j < |s| ensures s[i] != s[j] {
      assert s == s[..j] + s[j..];
      assert s[..j][i] == s[i] && s[j..][0] == s[j];
      assert multiset(s[..j])[s[i]] >= 1;
      assert multiset(s)[s[i]] == multiset(s[..j])[s[i]] + multiset(s[j..])[s[i]];
      assert s[i] in multiset(s);
      assert multiset(s[j..])[s[i]] == 0;
    }
  }

  /** Every position occurs once in the list of positions. */
  lemma {:induction false} PositionsNoRepeats(n: nat)
    ensures NoRepeats(Positions(n))
  {
    if n > 0 {
      PositionsNoRepeats(n - 1);
      assert Positions(n) == Positions(n - 1) + [n - 1];
      assert n - 1 !in Positions(n - 1);
    }
  }

  /** Picking from values without repeats gives values without repeats. */
  lemma SampleNoRepeats<T>(copy: seq<T>, draws: seq<nat>, k: nat)
    requires NoRepeats(copy)
    requires ValidDraws(draws, |copy|, k)
    ensures NoRepeats(Sample(copy, draws, k))
  {
    SampleSubMultiset(copy, draws, k);
  }

  /**
   * No position of the input is picked twice: the picks are the input's
   * items at distinct positions.
   */
  lemma PicksDistinctPositions<T>(all: seq<T>, draws: seq<nat>, k: nat)
    requires ValidDraws(draws, |all|, k)
    ensures |Sample<nat>(Positions(|all|), draws, k)| == |Sample(all, draws, k)| == k
    ensures Distinct(Sample<nat>(Positions(|all|), draws, k))
    ensures forall i :: 0 <= i < k ==>
              Sample<nat>(Positions(|all|), draws, k)[i] < |all|
              && Sample(all, draws, k)[i] == all[Sample<nat>(Positions(|all|), draws, k)[i]]
  {
    SampleTracksPositions(all, all, Positions(|all|), draws, k);
    PositionsNoRepeats(|all|);
    SampleNoRepeats(Positions(|all|), draws, k);
    NoRepeatsDistinct(Sample<nat>(Positions(|all|), draws, k));
  }

  /**
   * One turn of the loop keeps its invariant: the drawn item moves from the
   * copy to the end of the picks, and the rest of the draws stay valid for the
   * spliced copy.
   */
  lemma LoopStep<T>(all: seq<T>, draws: seq<nat>, numToShow: nat, picked: seq<T>, copy: seq<T>, i: nat)
    requires ValidDraws(draws, |all|, numToShow)
    requires i < numToShow && i <= |draws| && ValidDraws(draws[i..], |copy|, numToShow - i)
    requires picked + Sample(copy, draws[i..], numToShow - i) == Sample(all, draws, numToShow)
    ensures draws[i] < |copy|
    ensures ValidDraws(draws[i + 1..], |copy| - 1, numToShow - (i + 1))
    ensures (picked + [copy[draws[i]]]) + Sample(Remove(copy, draws[i]), draws[i + 1..], numToShow - (i + 1))
            == Sample(all, draws, numToShow)
  {
    assert draws[i..][0] == draws[i];
    DrawsAfterStep(draws[i..], |copy|, numToShow - i);
    assert draws[i..][1..] == draws[i + 1..];
    var tail := Sample(Remove(copy, draws[i]), draws[i + 1..], numToShow - (i + 1));
    assert Sample(copy, draws[i..], numToShow - i) == [copy[draws[i]]] + tail;
    assert (picked + [copy[draws[i]]]) + tail == picked + ([copy[draws[i]]] + tail);
  }

  /**
   * The sampling loop of `fetchItems`: it copies the catalogue and, `min(5, n)`
   * times, moves the item at a drawn index of the copy to the picks.
   */
  method PickFeatured<T>(all: seq<T>, draws: seq<nat>) returns (picked: seq<T>)
    requires ValidDraws(draws, |all|, Min(MaxFeatured, |all|))
    ensures picked == Sample(all, draws, Min(MaxFeatured, |all|))
  {
    picked := [];
    if |all| > 0 {
      var numToShow := Min(MaxFeatured, |all|);
      var copy := all;
      var i := 0;
      assert draws[0..] == draws;
      while i < numToShow
        invariant 0 <= i <= numToShow
        invariant |copy| == |all| - i
        invariant ValidDraws(draws[i..], |copy|, numToShow - i)
        invariant picked + Sample(copy, draws[i..], numToShow - i) == Sample(all, draws, numToShow)
      {
        LoopStep(all, draws, numToShow, picked, copy, i);
        var randomIndex := draws[i];
        picked := picked + [copy[randomIndex]];
        copy := Remove(copy, randomIndex);
        i := i + 1;
      }
    }
  }

  /** The answer of `GET /api/card-item-all` (`status`, `data`), or a request or parse that threw. */
  datatype ItemsResponse<T> = Answered(status: string, data: Option<seq<T>>) | Thrown

  /** The items shown once the fetch settles. */
  function Featured<T>(resp: ItemsResponse<T>, draws: seq<nat>): (r: seq<T>)
    requires resp.Answered? && resp.status == "success" && resp.data.Some? ==>
               ValidDraws(draws, |resp.data.value|, Min(MaxFeatured, |resp.data.value|))
    ensures |r| <= MaxFeatured
    ensures !(resp.Answered? && resp.status == "success" && resp.data.Some?) ==> r == []
    ensures resp.Answered? && resp.status == "success" && resp.data.Some? ==> |r| == Min(MaxFeatured, |resp.data.value|)
  {
    if resp.Answered? && resp.status == "success" && resp.data.Some? then
      Sample(resp.data.value, draws, Min(MaxFeatured, |resp.data.value|))
    else []
  }

  /**
   * A success shows `min(5, n)` items of the catalogue, each at its own
   * position; a non-success, a throw, or an empty or missing list shows none.
   */
  lemma FeaturedShape<T>(resp: ItemsResponse<T>, draws: seq<nat>)
    requires resp.Answered? && resp.status == "success" && resp.data.Some? ==>
               ValidDraws(draws, |resp.data.value|, Min(MaxFeatured, |resp.data.value|))
    ensures !(resp.Answered? && resp.status == "success") ==> Featured(resp, draws) == []
    ensures resp.Answered? && resp.status == "success" && (resp.data.None? || resp.data.value == []) ==>
              Featured(resp, draws) == []
    ensures resp.Answered? && resp.status == "success" && resp.data.Some? ==>
              |Featured(resp, draws)| == Min(MaxFeatured, |resp.data.value|)
              && multiset(Featured(resp, draws)) <= multiset(resp.data.value)
    ensures |Featured(resp, draws)| <= MaxFeatured
  {
    if resp.Answered? && resp.status == "success" && resp.data.Some? {
      SampleSubMultiset(resp.data.value, draws, Min(MaxFeatured, |resp.data.value|));
    }
  }

  /** The page's state. */
  class LandingPage<T> {
    var items: seq<T>
    var loading: bool
    var showScrollTop: bool

    constructor ()
      ensures items == [] && loading && !showScrollTop
    {
      items := [];
      loading := true;
      showScrollTop := false;
    }

    /** The fetch effect settling: the items become the featured sample or none, and loading ends. */
    method FetchItems(resp: ItemsResponse<T>, draws: seq<nat>)
      requires resp.Answered? && resp.status == "success" && resp.data.Some? ==>
                 ValidDraws(draws, |resp.data.value|, Min(MaxFeatured, |resp.data.value|))
      modifies this
      ensures items == Featured(resp, draws)
      ensures !loading
      ensures showScrollTop == old(showScrollTop)
    {
      loading := true;
      match resp {
        case Answered(status, data) =>
          if status == "success" {
            var allProducts := if data.Some? then data.value else [];
            var randomProducts := PickFeatured(allProducts, draws);
            items := randomProducts;
          } else {
            items := [];
          }
        case Thrown =>
          items := [];
      }
      loading := false;
    }

    /** A scroll event: the button shows exactly when the page is scrolled past the threshold. */
    method OnScroll(scrollY: real)
      modifies this
      ensures showScrollTop <==> scrollY > ScrollThreshold
      ensures items == old(items) && loading == old(loading)
    {
      showScrollTop := scrollY > 400.0;
    }
  }
}
