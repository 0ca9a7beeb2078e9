/**
 * The browser's `RecorderProcessor` audio worklet (src/recorder-processor.js):
 * each call of `process` converts the first channel of the input to 16-bit
 * PCM and keeps it; once 20 pieces are kept it copies them, one after the
 * other, into one `Int16Array`, posts that on its port and starts over.
 */
module Recorder {
  import opened Common

  /** The number of kept pieces that triggers a post. */
  const FLUSH_THRESHOLD: nat := 20

  /** Truncation toward zero, as storing a number into an `Int16Array` does. */
  function Truncate(v: real): int {
    if v >= 0.0 then v.Floor else -((-v).Floor)
  }

  /**
   * One Float32 sample as stored: clamped to [-1, 1], scaled by 0x8000 below
   * zero and by 0x7FFF otherwise, and truncated toward zero. Both products are
   * exact in double precision, so the model on reals is exact (NaN aside).
   */
  function ToInt16(x: real): (r: int16)
    ensures x <= -1.0 ==> r == -0x8000
    ensures x >= 1.0 ==> r == 0x7FFF
    ensures r < 0 <==> x <= -1.0 / 32768.0
    ensures r == 0 <==> -1.0 / 32768.0 < x < 1.0 / 32767.0
  {
    var s := if x < -1.0 then -1.0 else if x > 1.0 then 1.0 else x;
    var scaled := if s < 0.0 then s * 32768.0 else s * 32767.0;
    Truncate(scaled)
  }

  /** Storing is monotone: a larger sample never gives a smaller 16-bit value. */
  lemma ToInt16Monotone(x: real, y: real)
    requires x <= y
    ensures ToInt16(x) <= ToInt16(y)
  {
    var sx := if x < -1.0 then -1.0 else if x > 1.0 then 1.0 else x;
    var sy := if y < -1.0 then -1.0 else if y > 1.0 then 1.0 else y;
    var vx := if sx < 0.0 then sx * 32768.0 else sx * 32767.0;
    var vy := if sy < 0.0 then sy * 32768.0 else sy * 32767.0;
    assert vx <= vy;
    if vx >= 0.0 {
      FloorMonotone(vx, vy);
    } else if vy < 0.0 {
      FloorMonotone(-vy, -vx);
    }
  }

  lemma FloorMonotone(a: real, b: real)
    requires a <= b
    ensures a.Floor <= b.Floor
  {
    assert a.Floor as real <= a <= b < b.Floor as real + 1.0;
  }

  /** A channel converted sample by sample. */
  function Quantise(pcm: seq<real>): (q: seq<int16>)
    ensures |q| == |pcm|
  {
    seq(|pcm|, i requires 0 <= i < |pcm| => ToInt16(pcm[i]))
  }

  /**
   * The `reduce` and the `combined.set(arr, offset)` loop: one array as long
   * as all pieces together, holding them one after the other (by
   * `Common.FlattenAt`, piece k starts at the summed length of the pieces
   * before it).
   */
  method Combine(pieces: seq<seq<int16>>) returns (combined: array<int16>)
    ensures combined.Length == TotalLength(pieces)
    ensures combined[..] == Flatten(pieces)
  {
    var totalLength := TotalLength(pieces);
    combined := new int16[totalLength];
    var offset := 0;
    for k := 0 to |pieces|
      invariant offset == TotalLength(pieces[..k]) <= totalLength
      invariant combined[..offset] == Flatten(pieces[..k])
    {
      var arr := pieces[k];
      assert pieces[..k + 1] == pieces[..k] + [arr];
      FlattenAppend(pieces[..k], arr);
      TotalLengthPrefix(pieces, k + 1);
      for i := 0 to |arr|
        invariant combined[..offset + i] == Flatten(pieces[..k]) + arr[..i]
      {
        combined[offset + i] := arr[i];
        assert combined[..offset + i + 1] == combined[..offset + i] + [arr[i]];
        assert arr[..i + 1] == arr[..i] + [arr[i]];
      }
      assert arr[..|arr|] == arr;
      offset := offset + |arr|;
    }
    assert pieces[..|pieces|] == pieces;
    FlattenLength(pieces);
  }

  class RecorderProcessor {
    /** `this.buffer`: the converted pieces kept since the last post. */
    var buffer: seq<seq<int16>>
    /** The messages posted on `this.port`, oldest first. */
    var posted: seq<seq<int16>>

    /** Between calls fewer than 20 pieces are kept. */
    ghost predicate Valid()
      reads this
    {
      |buffer| < FLUSH_THRESHOLD
    }

    constructor ()
      ensures Valid()
      ensures buffer == [] && posted == []
    {
      buffer := [];
      posted := [];
    }

    /**
     * One render quantum. `inputs[0]` is the worklet's only input, one
     * Float32 array per channel; only the first channel is recorded.
     */
    method Process(inputs: seq<seq<seq<real>>>) returns (keepAlive: bool)
      requires |inputs| >= 1
      requires Valid()
      modifies this
      ensures Valid()
      ensures keepAlive
      ensures |inputs[0]| == 0 ==> buffer == old(buffer) && posted == old(posted)
      ensures |inputs[0]| > 0 && |old(buffer)| + 1 < FLUSH_THRESHOLD ==>
                buffer == old(buffer) + [Quantise(inputs[0][0])] && posted == old(posted)
      ensures |inputs[0]| > 0 && |old(buffer)| + 1 >= FLUSH_THRESHOLD ==>
                buffer == [] && posted == old(posted) + [Flatten(old(buffer) + [Quantise(inputs[0][0])])]
      ensures |posted| > |old(posted)| ==>
                |inputs[0]| > 0 && |old(buffer)| + 1 == FLUSH_THRESHOLD
                && |posted[|posted| - 1]| == TotalLength(old(buffer)) + |inputs[0][0]|
    {
      var input := inputs[0];
      if |input| > 0 {
        var pcmData := input[0];
        var int16Array := new int16[|pcmData|];
        for i := 0 to |pcmData|
          modifies int16Array
          invariant forall j :: 0 <= j < i ==> int16Array[j] == ToInt16(pcmData[j])
        {
          int16Array[i] := ToInt16(pcmData[i]);
        }
        assert int16Array[..] == Quantise(pcmData);
        FlattenAppend(buffer, int16Array[..]);
        buffer := buffer + [int16Array[..]];
        if |buffer| >= FLUSH_THRESHOLD {
          var combined := Combine(buffer);
          posted := posted + [combined[..]];
          buffer := [];
        }
      }
      keepAlive := true;
    }
  }
}
