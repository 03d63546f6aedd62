/**
  The pre-fill rule of the data-entry page: the gaps the preprocessor found
  become failure entries; with fewer than three of them the data is treated
  as censored and one suspension, from the last instant until now, is added.
 */
module Prefill {
  import opened Wrappers
  import opened Rounding
  import opened DataEntry

  datatype EntryState = F | S

  /**
    The time of an entry as the page receives it: a failure carries the whole
    hours of a kept gap, the suspension the float `round(hours, 0)`.
   */
  datatype EntryTime = WholeHours(whole: int) | FloatHours(hours: real)

  datatype Entry = Entry(state: EntryState, time: EntryTime)

  /** Fewer failures than this are treated as censored data. */
  const CensorBelow: nat := 3

  /** One failure entry per kept gap, in order. */
  function FailureEntries(fs: seq<int>): (es: seq<Entry>)
    ensures |es| == |fs|
    ensures forall k :: 0 <= k < |fs| ==> es[k] == Entry(F, WholeHours(fs[k]))
  {
    if fs == [] then []
    else FailureEntries(fs[..|fs| - 1]) + [Entry(F, WholeHours(fs[|fs| - 1]))]
  }

  /** Hours from the instant `last` (whole seconds) to `now` (seconds). */
  function SuspensionHours(now: real, last: int): real {
    (now - last as real) / 3600.0
  }

  /** The added suspension: the hours since the last instant, rounded half to even. */
  function SuspensionEntry(now: real, last: int): (e: Entry)
    ensures e.state == S && e.time.FloatHours?
    ensures Abs(e.time.hours - SuspensionHours(now, last)) <= 0.5
    ensures e.time.hours.Floor as real == e.time.hours
    ensures Abs(e.time.hours - SuspensionHours(now, last)) == 0.5 ==> e.time.hours.Floor % 2 == 0
  {
    Entry(S, FloatHours(RoundHalfEven(SuspensionHours(now, last)) as real))
  }

  /** A suspension of exactly 100.5 hours rounds to the even neighbour, 100. */
  lemma HalfHourTie(last: int)
    ensures SuspensionEntry(last as real + 361800.0, last) == Entry(S, FloatHours(100.0))
  {
    assert SuspensionHours(last as real + 361800.0, last) == 100.5;
    RoundHalfEvenUnique(100.5, 100);
  }

  /** What the rule does to the session besides producing the entries. */
  datatype PrefillOutcome = PrefillOutcome(
    entries: seq<Entry>,
    forcedMode: Option<string>,   // the new input_method, if the rule sets one
    dropsInstants: bool)          // whether original_datetimes is popped

  /**
    The rule applied to the popped `pre_filled_failures` and the stored
    `original_datetimes` (sorted instants), at time `now`.
   */
  function PrefillRule(pre: Option<seq<int>>, instants: Option<seq<int>>, now: real): (r: PrefillOutcome)
    ensures pre.None? || pre.value == [] ==> r == PrefillOutcome([], None, false)
    ensures pre.Some? && 0 < |pre.value| < CensorBelow ==>
      && r.forcedMode == Some(CensoredMode) && r.dropsInstants
      && var withS := instants.Some? && instants.value != [];
      && |r.entries| == |pre.value| + (if withS then 1 else 0)
      && r.entries[..|pre.value|] == FailureEntries(pre.value)
      && (withS ==> r.entries[|pre.value|] == SuspensionEntry(now, instants.value[|instants.value| - 1]))
    ensures pre.Some? && |pre.value| >= CensorBelow ==>
      r == PrefillOutcome(FailureEntries(pre.value), Some(FailureMode), false)
    ensures forall k :: 0 <= k < |r.entries| ==> (r.entries[k].state == S <==> k == |pre.value|)
  {
    if pre.None? || pre.value == [] then PrefillOutcome([], None, false)
    else if |pre.value| < CensorBelow then
      var suspension :=
        if instants.Some? && instants.value != [] then [SuspensionEntry(now, instants.value[|instants.value| - 1])]
        else [];
      assert (FailureEntries(pre.value) + suspension)[..|pre.value|] == FailureEntries(pre.value);
      PrefillOutcome(FailureEntries(pre.value) + suspension, Some(CensoredMode), true)
    else PrefillOutcome(FailureEntries(pre.value), Some(FailureMode), false)
  }

  /** Two failures and a last instant exactly 100 hours ago: F, F and S at 100 hours. */
  lemma TwoFailuresHundredHours(f1: int, f2: int, first: int, last: int)
    ensures PrefillRule(Some([f1, f2]), Some([first, last]), last as real + 360000.0).entries
      == [Entry(F, WholeHours(f1)), Entry(F, WholeHours(f2)), Entry(S, FloatHours(100.0))]
  {
    assert SuspensionHours(last as real + 360000.0, last) == 100.0;
    RoundWhole(100);
    var es := PrefillRule(Some([f1, f2]), Some([first, last]), last as real + 360000.0).entries;
    assert es[..2] == FailureEntries([f1, f2]);
  }
}
