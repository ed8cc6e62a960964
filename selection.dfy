/** The selected entries of a list, kept in list order: what `for i, p := range ps { if sel[i] {...} }` visits. */
module Selection {
  import opened Text

  /** The elements of xs whose flag in sel is set, in their original order. */
  function Chosen<T>(xs: seq<T>, sel: seq<bool>): (r: seq<T>)
    requires |xs| <= |sel|
    ensures |r| <= |xs|
  {
    if xs == [] then []
    else Chosen(xs[..|xs| - 1], sel) + (if sel[|xs| - 1] then [xs[|xs| - 1]] else [])
  }

  /** The positions below n whose flag is set, in ascending order. */
  function SelectedIndices(sel: seq<bool>, n: nat): (idx: seq<nat>)
    requires n <= |sel|
    ensures forall k :: 0 <= k < |idx| ==> idx[k] < n && sel[idx[k]]
    ensures forall j, k :: 0 <= j < k < |idx| ==> idx[j] < idx[k]
    ensures forall i :: 0 <= i < n && sel[i] ==> i in idx
  {
    if n == 0 then [] else SelectedIndices(sel, n - 1) + (if sel[n - 1] then [n - 1] else [])
  }

  /** One more iteration of the range loop. */
  lemma ChosenStep<T>(xs: seq<T>, sel: seq<bool>, i: nat)
    requires i < |xs| <= |sel|
    ensures Chosen(xs[..i + 1], sel) == Chosen(xs[..i], sel) + (if sel[i] then [xs[i]] else [])
  {
    assert xs[..i + 1][..i] == xs[..i];
  }

  /** Chosen keeps exactly the selected elements, in catalog order: its k-th element is the
      element at the k-th selected position. */
  lemma {:induction false} ChosenInOrder<T>(xs: seq<T>, sel: seq<bool>)
    requires |xs| <= |sel|
    ensures |Chosen(xs, sel)| == |SelectedIndices(sel, |xs|)|
    ensures forall k :: 0 <= k < |Chosen(xs, sel)| ==>
              Chosen(xs, sel)[k] == xs[SelectedIndices(sel, |xs|)[k]]
  {
    if xs != [] {
      var n := |xs|;
      ChosenInOrder(xs[..n - 1], sel);
      assert forall i :: 0 <= i < n - 1 ==> xs[..n - 1][i] == xs[i];
    }
  }

  /** Nothing selected, nothing chosen. */
  lemma {:induction false} ChosenNone<T>(xs: seq<T>, sel: seq<bool>)
    requires |xs| <= |sel|
    requires forall i :: 0 <= i < |xs| ==> !sel[i]
    ensures Chosen(xs, sel) == []
  {
    if xs != [] {
      ChosenNone(xs[..|xs| - 1], sel);
    }
  }

  /** One more iteration of a `for i, p := range ps { if sel[i] { sb.WriteString(f(p)) } }` loop. */
  lemma ChosenTextStep<T>(f: T -> string, xs: seq<T>, sel: seq<bool>, i: nat)
    requires i < |xs| <= |sel|
    ensures ConcatMap(f, Chosen(xs[..i + 1], sel)) ==
              ConcatMap(f, Chosen(xs[..i], sel)) + (if sel[i] then f(xs[i]) else "")
  {
    ChosenStep(xs, sel, i);
    if sel[i] {
      ConcatMapSnoc(f, Chosen(xs[..i], sel), xs[i]);
    } else {
      assert Chosen(xs[..i + 1], sel) == Chosen(xs[..i], sel);
      AppendEmpty(ConcatMap(f, Chosen(xs[..i], sel)));
    }
  }
}
