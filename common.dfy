/**
 * Shared vocabulary of the audio pipeline model: optional values, the
 * integer widths the source works with, and concatenation of chunk lists.
 */
module Common {

  datatype Option<+T> = None | Some(value: T) {
    /** The wrapped value, or `default` when there is none (Python's `dict.get(key, default)`). */
    function GetOr(default: T): T {
      match this
      case Some(v) => v
      case None => default
    }
  }

  /** An unsigned 8-bit value: one byte of a `bytes`/`bytearray`, or a NumPy `uint8`. */
  type byte = x: int | 0 <= x < 256

  /** A signed 16-bit value: one element of a JavaScript `Int16Array`. */
  type int16 = x: int | -0x8000 <= x < 0x8000

  /** The in-order concatenation of a list of chunks (`b"".join`, `torch.cat`). */
  function Flatten<T>(pieces: seq<seq<T>>): seq<T>
    decreases |pieces|
  {
    if pieces == [] then [] else Flatten(pieces[..|pieces| - 1]) + pieces[|pieces| - 1]
  }

  /** The summed lengths of a list of chunks (`sum(c.size(0) for c in ...)`, `reduce`). */
  function TotalLength<T>(pieces: seq<seq<T>>): nat
    decreases |pieces|
  {
    if pieces == [] then 0 else TotalLength(pieces[..|pieces| - 1]) + |pieces[|pieces| - 1]|
  }

  lemma FlattenAppend<T>(pieces: seq<seq<T>>, p: seq<T>)
    ensures Flatten(pieces + [p]) == Flatten(pieces) + p
    ensures TotalLength(pieces + [p]) == TotalLength(pieces) + |p|
  {
    assert (pieces + [p])[..|pieces|] == pieces;
  }

  lemma {:induction false} FlattenConcat<T>(xs: seq<seq<T>>, ys: seq<seq<T>>)
    ensures Flatten(xs + ys) == Flatten(xs) + Flatten(ys)
    decreases |ys|
  {
    if ys == [] {
      assert xs + ys == xs;
    } else {
      var init := ys[..|ys| - 1];
      var last := ys[|ys| - 1];
      assert xs + ys == (xs + init) + [last];
      assert ys == init + [last];
      FlattenAppend(xs + init, last);
      FlattenAppend(init, last);
      FlattenConcat(xs, init);
    }
  }

  /** Concatenation is associative: Dafny proves it alone, and a call keeps the proofs that use it cheap. */
  lemma ConcatAssoc<T>(a: seq<T>, b: seq<T>, c: seq<T>)
    ensures a + b + c == a + (b + c)
  {
  }

  /** Concatenating a first piece and the rest. */
  lemma FlattenCons<T>(p: seq<T>, rest: seq<seq<T>>)
    ensures Flatten([p] + rest) == p + Flatten(rest)
  {
    FlattenConcat([p], rest);
    assert [p] == [] + [p];
    FlattenAppend([], p);
  }

  /** The length of a concatenation is the summed length of its pieces. */
  lemma {:induction false} FlattenLength<T>(pieces: seq<seq<T>>)
    ensures |Flatten(pieces)| == TotalLength(pieces)
    decreases |pieces|
  {
    if pieces != [] {
      FlattenLength(pieces[..|pieces| - 1]);
    }
  }

  /** Piece k of a concatenation starts at the summed lengths of pieces 0..k-1. */
  lemma {:induction false} FlattenAt<T>(pieces: seq<seq<T>>, k: nat, i: nat)
    requires k < |pieces| && i < |pieces[k]|
    ensures TotalLength(pieces[..k]) + i < |Flatten(pieces)|
    ensures Flatten(pieces)[TotalLength(pieces[..k]) + i] == pieces[k][i]
    decreases |pieces|
  {
    var n := |pieces| - 1;
    var init := pieces[..n];
    assert pieces == init + [pieces[n]];
    FlattenLength(init);
    if k == n {
      assert pieces[..k] == init;
    } else {
      assert init[..k] == pieces[..k];
      FlattenAt(init, k, i);
    }
  }

  /** Concatenating chunks that all have length `size` gives `size` times as many elements. */
  lemma {:induction false} FlattenUniform<T>(pieces: seq<seq<T>>, size: nat)
    requires forall i :: 0 <= i < |pieces| ==> |pieces[i]| == size
    ensures |Flatten(pieces)| == size * |pieces|
    decreases |pieces|
  {
    if pieces != [] {
      var n := |pieces| - 1;
      FlattenUniform(pieces[..n], size);
      assert size * |pieces| == size * n + size;
    }
  }

  /** A prefix of the chunks is no longer than all of them. */
  lemma {:induction false} TotalLengthPrefix<T>(pieces: seq<seq<T>>, k: nat)
    requires k <= |pieces|
    ensures TotalLength(pieces[..k]) <= TotalLength(pieces)
    decreases |pieces|
  {
    if k < |pieces| {
      var init := pieces[..|pieces| - 1];
      assert init[..k] == pieces[..k];
      TotalLengthPrefix(init, k);
    } else {
      assert pieces[..k] == pieces;
    }
  }
}
