/** Rust's `iter().filter_map(f).collect()` over a sequence, and what it preserves:
    the result is `f`'s value at exactly the entries `f` keeps, in their original order. */
module FilterMaps {
  import opened Prelude

  /** The collected results of `f` on the entries of `s`, dropping every `None`.
      Defined from the back, as `collect` pushes one element after another. */
  function FilterMap<A, B>(s: seq<A>, f: A -> Option<B>): (r: seq<B>)
    ensures |r| <= |s|
  {
    if s == [] then []
    else
      var init := FilterMap(s[..|s| - 1], f);
      match f(s[|s| - 1])
      case Some(y) => init + [y]
      case None => init
  }

  /** The positions of `s` whose entry `f` keeps, in increasing order. */
  function KeptIndices<A, B>(s: seq<A>, f: A -> Option<B>): (idx: seq<nat>)
    ensures forall k :: 0 <= k < |idx| ==> idx[k] < |s| && f(s[idx[k]]).Some?
    ensures forall k, l :: 0 <= k < l < |idx| ==> idx[k] < idx[l]
    ensures forall i :: 0 <= i < |s| && f(s[i]).Some? ==> i in idx
  {
    if s == [] then []
    else
      var init := KeptIndices(s[..|s| - 1], f);
      if f(s[|s| - 1]).Some? then init + [|s| - 1] else init
  }

  /** The k-th collected value is `f`'s value at the k-th kept position: nothing is
      added, nothing kept is lost, and the relative order is the input's. */
  lemma {:induction false} FilterMapIsKeptImage<A, B>(s: seq<A>, f: A -> Option<B>)
    ensures |FilterMap(s, f)| == |KeptIndices(s, f)|
    ensures forall k :: 0 <= k < |FilterMap(s, f)| ==>
      f(s[KeptIndices(s, f)[k]]) == Some(FilterMap(s, f)[k])
  {
    if s != [] {
      var init := s[..|s| - 1];
      FilterMapIsKeptImage(init, f);
      assert forall i :: 0 <= i < |init| ==> init[i] == s[i];
    }
  }

  /** Filtering a concatenation filters each part and concatenates the results. */
  lemma {:induction false} FilterMapAppend<A, B>(s: seq<A>, t: seq<A>, f: A -> Option<B>)
    ensures FilterMap(s + t, f) == FilterMap(s, f) + FilterMap(t, f)
  {
    if t == [] {
      assert s + t == s;
    } else {
      var init := t[..|t| - 1];
      FilterMapAppend(s, init, f);
      assert (s + t)[..|s + t| - 1] == s + init;
      assert (s + t)[|s + t| - 1] == t[|t| - 1];
    }
  }

  /** Nothing is dropped exactly when `f` keeps every entry; so every entry `f` drops
      makes the result shorter than the input. */
  lemma {:induction false} FilterMapKeepsAll<A, B>(s: seq<A>, f: A -> Option<B>)
    ensures |FilterMap(s, f)| == |s| <==> forall i :: 0 <= i < |s| ==> f(s[i]).Some?
  {
    if s != [] {
      var init := s[..|s| - 1];
      FilterMapKeepsAll(init, f);
      assert forall i :: 0 <= i < |init| ==> init[i] == s[i];
    }
  }
}
