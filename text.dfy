/** String building shared by the renderers: a text that is the concatenation of one piece per element. */
module Text {

  /** The pieces f(xs[0]), f(xs[1]), ... written one after another, as a range loop or a
      `{{ range }}` block emits them. */
  function ConcatMap<T>(f: T -> string, xs: seq<T>): string
  {
    if xs == [] then "" else f(xs[0]) + ConcatMap(f, xs[1..])
  }

  lemma {:induction false} ConcatMapAppend<T>(f: T -> string, xs: seq<T>, ys: seq<T>)
    ensures ConcatMap(f, xs + ys) == ConcatMap(f, xs) + ConcatMap(f, ys)
  {
    if xs == [] {
      assert xs + ys == ys;
    } else {
      assert (xs + ys)[0] == xs[0];
      assert (xs + ys)[1..] == xs[1..] + ys;
      ConcatMapAppend(f, xs[1..], ys);
    }
  }

  /** Appending one element appends its piece: the step of a builder loop. */
  lemma {:induction false} ConcatMapSnoc<T>(f: T -> string, xs: seq<T>, x: T)
    ensures ConcatMap(f, xs + [x]) == ConcatMap(f, xs) + f(x)
  {
    ConcatMapAppend(f, xs, [x]);
    assert [x][1..] == [];
  }

  /** Splitting the list at element k splits the text at its piece. */
  lemma {:induction false} ConcatMapSplit<T>(f: T -> string, xs: seq<T>, k: nat)
    requires k < |xs|
    ensures ConcatMap(f, xs) == ConcatMap(f, xs[..k]) + f(xs[k]) + ConcatMap(f, xs[k + 1..])
  {
    assert xs == xs[..k] + ([xs[k]] + xs[k + 1..]);
    ConcatMapAppend(f, xs[..k], [xs[k]] + xs[k + 1..]);
    assert ([xs[k]] + xs[k + 1..])[1..] == xs[k + 1..];
  }

  /** Inside a text head + pieces + tail, the piece of element k stands between the pieces of
      the elements before it and those after it. */
  lemma {:induction false} PieceBetween<T>(head: string, f: T -> string, xs: seq<T>, tail: string, k: nat)
    requires k < |xs|
    ensures head + ConcatMap(f, xs) + tail ==
              head + ConcatMap(f, xs[..k]) + f(xs[k]) + ConcatMap(f, xs[k + 1..]) + tail
  {
    ConcatMapSplit(f, xs, k);
    Regroup(head, ConcatMap(f, xs[..k]), f(xs[k]), ConcatMap(f, xs[k + 1..]), tail);
  }

  /** The same without a tail. */
  lemma {:induction false} PieceAt<T>(head: string, f: T -> string, xs: seq<T>, k: nat)
    requires k < |xs|
    ensures head + ConcatMap(f, xs) ==
              head + ConcatMap(f, xs[..k]) + f(xs[k]) + ConcatMap(f, xs[k + 1..])
  {
    ConcatMapSplit(f, xs, k);
  }

  /** An element whose piece is known, inserted anywhere, puts that piece at its place. */
  lemma {:induction false} ConcatMapInsert<T>(f: T -> string, pre: seq<T>, x: T, post: seq<T>, piece: string)
    requires f(x) == piece
    ensures ConcatMap(f, pre + [x] + post) == ConcatMap(f, pre) + piece + ConcatMap(f, post)
  {
    ConcatMapAppend(f, pre + [x], post);
    ConcatMapSnoc(f, pre, x);
  }

  /** Concatenation is associative, for the regroupings the renderers need. */
  lemma Assoc(a: string, b: string, c: string)
    ensures a + (b + c) == a + b + c
  {
  }

  /** A text head + middle + tail starts with head and ends with tail. */
  lemma Framed(head: string, middle: string, tail: string)
    ensures head <= head + middle + tail
    ensures |tail| <= |head + middle + tail| && (head + middle + tail)[|head + middle + tail| - |tail|..] == tail
  {
  }

  /** Texts that share their head and their tail are equal exactly when their middles are. */
  lemma MiddleDetermined(head: string, a: string, b: string, mid: string, x: string, y: string)
    ensures head + a + mid + x + y == head + b + mid + x + y <==> a == b
  {
    if head + a + mid + x + y == head + b + mid + x + y {
      var ta, tb := head + a + mid + x + y, head + b + mid + x + y;
      var tail := mid + x + y;
      assert ta == head + a + tail && tb == head + b + tail;
      assert |a| == |b|;
      assert a == ta[|head|..|head| + |a|] == tb[|head|..|head| + |b|] == b;
    }
  }

  /** An empty tail adds nothing. */
  lemma AppendEmpty(a: string)
    ensures a + "" == a
  {
  }

  /** A text head + (pieces) + tail is the same text without the parentheses. */
  lemma Regroup(a: string, b: string, c: string, d: string, e: string)
    ensures a + (b + c + d) + e == a + b + c + d + e
  {
  }

  /** An element whose piece is empty, inserted anywhere, leaves the text unchanged. */
  lemma {:induction false} ConcatMapSkipEmpty<T>(f: T -> string, pre: seq<T>, x: T, post: seq<T>)
    requires f(x) == ""
    ensures ConcatMap(f, pre + [x] + post) == ConcatMap(f, pre + post)
  {
    ConcatMapInsert(f, pre, x, post, "");
    ConcatMapAppend(f, pre, post);
  }

  /** Moving a separator across a list: when every piece of f followed by sep equals sep
      followed by the matching piece of g, the whole texts relate the same way. */
  lemma {:induction false} ShiftSeparator<A, B>(f: A -> string, xs: seq<A>, g: B -> string, ys: seq<B>, sep: string)
    requires |xs| == |ys|
    requires forall i :: 0 <= i < |xs| ==> f(xs[i]) + sep == sep + g(ys[i])
    ensures ConcatMap(f, xs) + sep == sep + ConcatMap(g, ys)
  {
    if xs != [] {
      ShiftSeparator(f, xs[1..], g, ys[1..], sep);
      calc {
        ConcatMap(f, xs) + sep;
        f(xs[0]) + (ConcatMap(f, xs[1..]) + sep);
        f(xs[0]) + (sep + ConcatMap(g, ys[1..]));
        (f(xs[0]) + sep) + ConcatMap(g, ys[1..]);
        (sep + g(ys[0])) + ConcatMap(g, ys[1..]);
        sep + ConcatMap(g, ys);
      }
    }
  }
}
