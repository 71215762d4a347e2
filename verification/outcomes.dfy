/**
 * The product loops that end at the first product that cannot be scraped: a
 * step is the row one product adds or the reason it stops the loop (an
 * exception, or a page that never settles), and the loop's result is every
 * row, or the first stop.
 */
module Outcomes {
  /** What one product contributes: its row, or why the loop stops there. */
  datatype Step<R, S> = Row(record: R) | Stop(reason: S)

  /** The index of the first step that stops the loop, or `|steps|`. */
  function FirstStop<R, S>(steps: seq<Step<R, S>>): (k: nat)
    ensures k <= |steps|
    ensures forall i | 0 <= i < k :: steps[i].Row?
    ensures k < |steps| ==> steps[k].Stop?
  {
    if steps == [] || steps[0].Stop? then 0
    else
      var k := FirstStop(steps[1..]);
      assert forall i | 1 <= i < k + 1 :: steps[i] == steps[1..][i - 1];
      1 + k
  }

  /** The rows of steps none of which stopped the loop, in order. */
  function RecordsOf<R, S>(steps: seq<Step<R, S>>): (records: seq<R>)
    requires forall i | 0 <= i < |steps| :: steps[i].Row?
    ensures |records| == |steps|
  {
    if steps == [] then []
    else RecordsOf(steps[..|steps| - 1]) + [steps[|steps| - 1].record]
  }

  /** Each row of `RecordsOf` is its own step's record. */
  lemma {:induction false} RecordsOfIndex<R, S>(steps: seq<Step<R, S>>)
    requires forall i | 0 <= i < |steps| :: steps[i].Row?
    ensures forall i | 0 <= i < |steps| :: RecordsOf(steps)[i] == steps[i].record
  {
    if steps != [] {
      RecordsOfIndex(steps[..|steps| - 1]);
    }
  }

  /** The loop at step `i` either stops there, at the first stop, or extends the rows by one. */
  lemma StepOfLoop<R, S>(steps: seq<Step<R, S>>, i: nat)
    requires i < |steps| && i <= FirstStop(steps)
    ensures steps[i].Stop? ==> FirstStop(steps) == i
    ensures steps[i].Row? ==> i < FirstStop(steps) && RecordsOf(steps[..i + 1]) == RecordsOf(steps[..i]) + [steps[i].record]
  {
    if steps[i].Row? {
      assert steps[..i + 1][..i] == steps[..i];
    }
  }
}
