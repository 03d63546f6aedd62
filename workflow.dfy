/**
  The session and its stage handlers. Each handler of the web application
  is a method on the session: it reads the request's fields as parameters,
  updates the session, and names the stage it sends the user to.
 */
module Workflow {
  import opened Wrappers
  import opened Timestamps
  import opened Prefill
  import opened DataEntry
  import opened Fits
  import opened Scorer
  import opened Derivation

  /**
    The stages of the workflow, in order; PreprocessStage and SetTarget are
    optional. RequestFailed is no page: an uncaught exception ends the request.
   */
  datatype Stage = ChooseMethod | PreprocessStage | EnterData | CompareFits | SetTarget | ViewResults | RequestFailed

  const DefaultMode: string := FailureMode
  const DefaultChoice: string := "mle"
  const DefaultReliability: string := "0.8"

  /** `session.get("input_method", "failure")` */
  function ModeOf(m: Option<string>): string {
    if m.Some? then m.value else DefaultMode
  }

  /** The per-user session; an absent key is None. */
  class Session {
    var inputMethod: Option<string>
    var preFilledFailures: Option<seq<int>>
    var originalDatetimes: Option<seq<int>>
    var failures: Option<seq<real>>
    var censored: Option<seq<real>>
    var resultsMle: Option<FitRecord>
    var resultsRr: Option<FitRecord>
    var chosenMethod: Option<string>
    var reliabilityLevel: Option<string>

    /**
      What the handlers keep true of the session: pre-filled gaps are
      plausible whole hours, the stored instants are sorted, the data and
      both fit records are stored together, and a fitted rank-regression
      record has a numeric AICc.
     */
    ghost predicate Valid()
      reads this
    {
      && (preFilledFailures.Some? ==>
            && preFilledFailures.value != []
            && forall k :: 0 <= k < |preFilledFailures.value| ==> 168 <= preFilledFailures.value[k] <= 30681)
      && (originalDatetimes.Some? ==> |originalDatetimes.value| >= 2 && Sorted(originalDatetimes.value))
      && (failures.Some? <==> censored.Some?)
      && (failures.Some? ==> |failures.value| >= 1 && resultsMle.Some? && resultsRr.Some?)
      && (resultsRr.Some? && resultsRr.value.FitOk? ==> resultsRr.value.aicc.AiccValue?)
    }

    /** A new, empty session. */
    constructor ()
      ensures Valid()
      ensures inputMethod == None && preFilledFailures == None && originalDatetimes == None
      ensures failures == None && censored == None && resultsMle == None && resultsRr == None
      ensures chosenMethod == None && reliabilityLevel == None
    {
      inputMethod, preFilledFailures, originalDatetimes := None, None, None;
      failures, censored, resultsMle, resultsRr := None, None, None, None;
      chosenMethod, reliabilityLevel := None, None;
    }

    /** Step 1, on submit: clear the session and store the input method (default "failure"). */
    method Start(choice: Option<string>) returns (next: Stage)
      modifies this
      ensures Valid()
      ensures inputMethod == Some(ModeOf(choice))
      ensures preFilledFailures == None && originalDatetimes == None
      ensures failures == None && censored == None && resultsMle == None && resultsRr == None
      ensures chosenMethod == None && reliabilityLevel == None
      ensures next == EnterData
    {
      inputMethod, preFilledFailures, originalDatetimes := None, None, None;
      failures, censored, resultsMle, resultsRr := None, None, None, None;
      chosenMethod, reliabilityLevel := None, None;
      inputMethod := Some(ModeOf(choice));
      next := EnterData;
    }

    /**
      The timestamp converter, on submit. On success the kept gaps and the
      sorted instants go into the session; on any error the session is left
      as it was. The two handled errors show the converter page again; a
      timestamp that strptime rejects raises, and the request fails.
     */
    method Preprocess(raw: string) returns (outcome: Result<Prepared, PreprocessError>, next: Stage)
      modifies this
      ensures outcome == Prepare(raw)
      ensures outcome.Err? ==> unchanged(this)
      ensures outcome == Err(MalformedTimestamp) ==> next == RequestFailed
      ensures outcome == Err(InsufficientData) || outcome == Err(NoPlausibleFailures) ==> next == PreprocessStage
      ensures outcome.Ok? ==>
        && preFilledFailures == Some(outcome.value.failures)
        && originalDatetimes == Some(outcome.value.instants)
        && inputMethod == old(inputMethod) && failures == old(failures) && censored == old(censored)
        && resultsMle == old(resultsMle) && resultsRr == old(resultsRr)
        && chosenMethod == old(chosenMethod) && reliabilityLevel == old(reliabilityLevel)
        && next == EnterData
      ensures old(Valid()) ==> Valid()
    {
      outcome := PreprocessText(raw);
      if outcome.Err? {
        next := if outcome.error == MalformedTimestamp then RequestFailed else PreprocessStage;
        return;
      }
      StorePrepared(outcome.value);
      next := EnterData;
    }

    /** Store the kept gaps and the sorted instants of a successful preprocessing. */
    method StorePrepared(prepared: Prepared)
      requires prepared.failures != [] && forall k :: 0 <= k < |prepared.failures| ==> 168 <= prepared.failures[k] <= 30681
      requires |prepared.instants| >= 2 && Sorted(prepared.instants)
      modifies this
      ensures preFilledFailures == Some(prepared.failures) && originalDatetimes == Some(prepared.instants)
      ensures inputMethod == old(inputMethod) && failures == old(failures) && censored == old(censored)
      ensures resultsMle == old(resultsMle) && resultsRr == old(resultsRr)
      ensures chosenMethod == old(chosenMethod) && reliabilityLevel == old(reliabilityLevel)
      ensures old(Valid()) ==> Valid()
    {
      preFilledFailures, originalDatetimes := Some(prepared.failures), Some(prepared.instants);
    }

    /**
      Step 2, on page load: pop the pre-filled gaps and apply the pre-fill
      rule at time `now`, returning the entries and the mode the page shows.
     */
    method PrefillEntryForm(now: real) returns (entries: seq<Entry>, mode: string)
      modifies this
      ensures
        var rule := PrefillRule(old(preFilledFailures), old(originalDatetimes), now);
        && entries == rule.entries
        && preFilledFailures == None
        && inputMethod == (if rule.forcedMode.Some? then rule.forcedMode else old(inputMethod))
        && originalDatetimes == (if rule.dropsInstants then None else old(originalDatetimes))
      ensures mode == ModeOf(inputMethod)
      ensures failures == old(failures) && censored == old(censored)
      ensures resultsMle == old(resultsMle) && resultsRr == old(resultsRr)
      ensures chosenMethod == old(chosenMethod) && reliabilityLevel == old(reliabilityLevel)
      ensures old(Valid()) ==> Valid()
    {
      entries := [];
      var pre := preFilledFailures;
      preFilledFailures := None;
      if pre.Some? && pre.value != [] {
        var fs := pre.value;
        if |fs| < CensorBelow {
          inputMethod := Some(CensoredMode);
          entries := FailureRows(fs);
          if originalDatetimes.Some? {
            var instants := originalDatetimes.value;
            originalDatetimes := None;
            if instants != [] {
              entries := entries + [SuspensionEntry(now, instants[|instants| - 1])];
            }
          }
        } else {
          inputMethod := Some(FailureMode);
          entries := FailureRows(fs);
        }
      }
      mode := ModeOf(inputMethod);
    }

    /**
      Step 2, on submit: read the 25 rows, refuse too little data, otherwise
      store the data and both fit records.
     */
    method SubmitData(rows: seq<FormRow>, parse: string -> Option<real>, fit: Fitter) returns (next: Stage)
      modifies this
      ensures
        var mode := ModeOf(old(inputMethod));
        var rs := Readings(mode, rows, parse);
        var fs, cs := Failures(rs), Suspensions(rs);
        if Insufficient(mode, fs) then
          unchanged(this) && next == EnterData
        else
          && failures == Some(fs) && censored == Some(cs)
          && resultsMle == Some(DualFit(fs, cs, fit).0) && resultsRr == Some(DualFit(fs, cs, fit).1)
          && inputMethod == old(inputMethod)
          && preFilledFailures == old(preFilledFailures) && originalDatetimes == old(originalDatetimes)
          && chosenMethod == old(chosenMethod) && reliabilityLevel == old(reliabilityLevel)
          && next == CompareFits
      ensures old(Valid()) ==> Valid()
    {
      var mode := ModeOf(inputMethod);
      var fs, cs := ReadForm(mode, rows, parse);
      if Insufficient(mode, fs) {
        return EnterData;
      }
      StoreData(fs, cs, fit);
      next := CompareFits;
    }

    /** Store the accepted data, then the two fit records, each from its own fitter call. */
    method StoreData(fs: seq<real>, cs: seq<real>, fit: Fitter)
      requires |fs| >= 1
      modifies this
      ensures failures == Some(fs) && censored == Some(cs)
      ensures resultsMle == Some(DualFit(fs, cs, fit).0) && resultsRr == Some(DualFit(fs, cs, fit).1)
      ensures inputMethod == old(inputMethod)
      ensures preFilledFailures == old(preFilledFailures) && originalDatetimes == old(originalDatetimes)
      ensures chosenMethod == old(chosenMethod) && reliabilityLevel == old(reliabilityLevel)
      ensures old(Valid()) ==> Valid()
    {
      failures, censored := Some(fs), Some(cs);
      var n := |fs| + |cs|;
      resultsMle := Some(Record(Mle, fit(fs, cs, Mle), n));
      resultsRr := Some(Record(Ls, fit(fs, cs, Ls), n));
    }

    /**
      Step 3, on page load: the recommendation between the two stored fits.
      After data entry the page fails exactly when the maximum-likelihood
      fit raised and the rank-regression fit did not.
     */
    method CompareFitsPage() returns (r: Result<Recommendation, ScoreError>)
      ensures r.Err? <==> Scored(resultsMle, resultsRr).Err?
      ensures r.Ok? ==>
        r.value.tally == Scored(resultsMle, resultsRr).value && r.value.choice == Recommended(r.value.tally)
      ensures Valid() && failures.Some? ==>
        (r.Err? <==> resultsMle.value.FitError? && resultsRr.value.FitOk?)
    {
      r := Recommend(resultsMle, resultsRr);
      ScoreErrors(resultsMle, resultsRr);
    }

    /**
      Step 3, on submit: store the chosen method (default "mle"); go on to the
      reliability level exactly when the chosen fit is an age-related failure.
     */
    method ChooseFit(choice: Option<string>) returns (next: Stage)
      modifies this
      ensures chosenMethod == Some(if choice.Some? then choice.value else DefaultChoice)
      ensures
        var rec := ChosenRecord(chosenMethod.value, resultsMle, resultsRr);
        next == if rec.Some? && rec.value.FitOk? && rec.value.pattern == Classifier.AgeRelated then SetTarget else ViewResults
      ensures inputMethod == old(inputMethod) && preFilledFailures == old(preFilledFailures)
      ensures originalDatetimes == old(originalDatetimes)
      ensures failures == old(failures) && censored == old(censored)
      ensures resultsMle == old(resultsMle) && resultsRr == old(resultsRr)
      ensures reliabilityLevel == old(reliabilityLevel)
      ensures old(Valid()) ==> Valid()
    {
      var c := if choice.Some? then choice.value else DefaultChoice;
      chosenMethod := Some(c);
      var rec := ChosenRecord(c, resultsMle, resultsRr);
      if rec.Some? && rec.value.FitOk? && rec.value.pattern == Classifier.AgeRelated {
        next := SetTarget;
      } else {
        next := ViewResults;
      }
    }

    /** Step 3b, on submit: store the level as typed (default "0.8"). */
    method SetReliability(level: Option<string>) returns (next: Stage)
      modifies this
      ensures reliabilityLevel == Some(if level.Some? then level.value else DefaultReliability)
      ensures inputMethod == old(inputMethod) && preFilledFailures == old(preFilledFailures)
      ensures originalDatetimes == old(originalDatetimes)
      ensures failures == old(failures) && censored == old(censored)
      ensures resultsMle == old(resultsMle) && resultsRr == old(resultsRr)
      ensures chosenMethod == old(chosenMethod)
      ensures old(Valid()) ==> Valid()
      ensures next == ViewResults
    {
      reliabilityLevel := Some(if level.Some? then level.value else DefaultReliability);
      next := ViewResults;
    }

    /** Step 4: the results page, from the session as it stands. */
    method ShowResults(parse: string -> Option<real>, math: Math) returns (page: ResultsPage)
      ensures page == ResultsView(chosenMethod, resultsMle, resultsRr, reliabilityLevel, parse, math)
    {
      page := ResultsView(chosenMethod, resultsMle, resultsRr, reliabilityLevel, parse, math);
    }
  }

  /**
    The body of the timestamp converter, step by step: find, parse, sort,
    take the gaps, keep the plausible ones.
   */
  method PreprocessText(raw: string) returns (outcome: Result<Prepared, PreprocessError>)
    ensures outcome == Prepare(raw)
  {
    var found := FindAll(raw);
    if |found| < 2 {
      return Err(InsufficientData);
    }
    var parsed := ParseAll(found);
    if parsed.None? {
      return Err(MalformedTimestamp);
    }
    assert Prepare(raw) == FromInstants(parsed.value);
    var instants := Sort(parsed.value);
    var hours := HourDeltas(instants);
    var kept := Retained(hours);
    if kept == [] {
      return Err(NoPlausibleFailures);
    }
    outcome := Ok(Prepared(kept, instants));
  }

  /** The pre-fill loop: each pre-filled gap becomes an F row with that whole number of hours. */
  method FailureRows(fs: seq<int>) returns (entries: seq<Entry>)
    ensures entries == FailureEntries(fs)
  {
    entries := [];
    var i := 0;
    while i < |fs|
      invariant 0 <= i <= |fs|
      invariant entries == FailureEntries(fs[..i])
    {
      assert fs[..i + 1][..i] == fs[..i];
      entries := entries + [Entry(F, WholeHours(fs[i]))];
      i := i + 1;
    }
    assert fs[..|fs|] == fs;
  }

  /** The loop of the data-entry step over the 25 form rows. */
  method ReadForm(mode: string, rows: seq<FormRow>, parse: string -> Option<real>) returns (fs: seq<real>, cs: seq<real>)
    ensures fs == Failures(Readings(mode, rows, parse))
    ensures cs == Suspensions(Readings(mode, rows, parse))
  {
    fs, cs := [], [];
    var i := 0;
    while i < RowCount
      invariant 0 <= i <= RowCount
      invariant fs == Failures(ReadingsUpTo(mode, rows, parse, i))
      invariant cs == Suspensions(ReadingsUpTo(mode, rows, parse, i))
    {
      var reading := ReadRow(mode, RowAt(rows, i), parse);
      ReadingsSnoc(ReadingsUpTo(mode, rows, parse, i), reading);
      fs, cs := Keep(reading, fs, cs);
      i := i + 1;
    }
  }

  /** The loop body's append: a failure time to one list, a suspension time to the other. */
  method Keep(reading: Reading, fs: seq<real>, cs: seq<real>) returns (fs': seq<real>, cs': seq<real>)
    ensures fs' == fs + (if reading.Failed? then [reading.hours] else [])
    ensures cs' == cs + (if reading.Suspended? then [reading.hours] else [])
  {
    fs', cs' := fs, cs;
    match reading {
      case Failed(t) => fs' := fs + [t];
      case Suspended(t) => cs' := cs + [t];
      case Dropped =>
    }
  }

  /** The pre-filled gaps are consumed once: loading the page again pre-fills nothing. */
  method PrefillOnce(s: Session, now1: real, now2: real) returns (again: seq<Entry>)
    modifies s
    ensures again == []
  {
    var first, mode1 := s.PrefillEntryForm(now1);
    var mode2;
    again, mode2 := s.PrefillEntryForm(now2);
  }
}
