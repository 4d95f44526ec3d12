/** The duplicate filter of sub-strategy B over a run of ticks. */
module Ticks {
  import opened Outcomes
  import opened Signals
  import opened SubStrategyB

  /** The signals `process` returns over successive ticks whose cascades gave
      `candidates` (`None` for a tick without one, a tick with too few
      candles included), starting from the retained signal `last`. */
  function Emitted(last: Option<Signal>, candidates: seq<Option<Signal>>, baseTime: BaseTime): seq<Signal>
    decreases |candidates|
  {
    if candidates == [] then []
    else
      var d := Dedup(last, candidates[0], baseTime);
      (if d.emitted.Some? then [d.emitted.value] else []) + Emitted(d.last, candidates[1..], baseTime)
  }

  /** Over any run of ticks, no emitted signal shares its slot with the one
      emitted before it, nor the first one with the signal retained at the
      start, and no tick emits more than one signal. */
  lemma {:induction false} EmittedNeverRepeats(last: Option<Signal>, candidates: seq<Option<Signal>>, baseTime: BaseTime)
    ensures var out := Emitted(last, candidates, baseTime);
      && |out| <= |candidates|
      && (forall i :: 0 <= i < |out| - 1 ==> !SameSlot(out[i], out[i + 1], baseTime))
      && (last.Some? && |out| > 0 ==> !SameSlot(out[0], last.value, baseTime))
    decreases |candidates|
  {
    if candidates != [] {
      var d := Dedup(last, candidates[0], baseTime);
      var rest := Emitted(d.last, candidates[1..], baseTime);
      EmittedNeverRepeats(d.last, candidates[1..], baseTime);
      if d.emitted.Some? {
        var out := [d.emitted.value] + rest;
        assert Emitted(last, candidates, baseTime) == out;
        forall i | 0 <= i < |out| - 1
          ensures !SameSlot(out[i], out[i + 1], baseTime)
        {
          if i > 0 {
            assert out[i] == rest[i - 1] && out[i + 1] == rest[i];
          }
        }
      }
    }
  }
}
