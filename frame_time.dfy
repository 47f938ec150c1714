/** Frame deltas: the engine supplies the time since the previous frame on
    every tick. Deltas are exact reals here; engine float rounding is not
    modelled. */
module FrameTime {

  /** Total time covered by a run of frames. */
  function Sum(dts: seq<real>): real
  {
    if dts == [] then 0.0 else dts[0] + Sum(dts[1..])
  }

  /** The engine never reports a negative frame delta. */
  predicate NonNegative(dts: seq<real>)
  {
    forall i :: 0 <= i < |dts| ==> dts[i] >= 0.0
  }

  lemma {:induction false} SumNonNegative(dts: seq<real>)
    requires NonNegative(dts)
    ensures Sum(dts) >= 0.0
  {
    if dts != [] {
      assert NonNegative(dts[1..]) by {
        forall i | 0 <= i < |dts[1..]| ensures dts[1..][i] >= 0.0 {
          assert dts[1..][i] == dts[i + 1];
        }
      }
      SumNonNegative(dts[1..]);
    }
  }
}
