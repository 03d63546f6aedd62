/**
  Reading the 25 rows of the data-entry form. In failure mode each row is a
  time to failure; in any other mode a row is a state (F or S, in either
  case) and a time. Rows that are empty, do not parse, or carry another
  state are dropped without a message.
 */
module DataEntry {
  import opened Wrappers
  import opened Text

  const RowCount: nat := 25
  /** The input modes: failure times only, or states with times. */
  const FailureMode: string := "failure"
  const CensoredMode: string := "censored"

  /**
    The fields of one form row (`time_failed_i`, `state_i`, `time_i`); a
    field that is not in the form reads as the empty string.
   */
  datatype FormRow = FormRow(timeFailed: string, state: string, time: string)

  const BlankRow := FormRow("", "", "")

  /** Row i of the form (0-based), blank beyond the submitted ones. */
  function RowAt(rows: seq<FormRow>, i: nat): FormRow {
    if i < |rows| then rows[i] else BlankRow
  }

  datatype Reading = Failed(hours: real) | Suspended(hours: real) | Dropped

  /**
    What the loop body makes of one row. `parse` is Python's `float` on
    a string, None where it raises ValueError.
   */
  function ReadRow(mode: string, row: FormRow, parse: string -> Option<real>): Reading
  {
    if mode == FailureMode then ReadTime(row.timeFailed, parse)
    else ReadStateTime(row.state, row.time, parse)
  }

  /** Failure mode: the stripped `time_failed_i`, when it is non-empty and parses. */
  function ReadTime(field: string, parse: string -> Option<real>): Reading
  {
    var t := Strip(field);
    if t == "" then Dropped
    else
      match parse(t)
      case Some(v) => Failed(v)
      case None => Dropped
  }

  /** Any other mode: the stripped time, with the state code deciding the list. */
  function ReadStateTime(state: string, time: string, parse: string -> Option<real>): Reading
  {
    var code := StateCode(state);
    var t := Strip(time);
    if t == "" || code == NoCode then Dropped
    else
      match parse(t)
      case Some(v) => if code == CodeF then Failed(v) else Suspended(v)
      case None => Dropped
  }

  datatype Code = CodeF | CodeS | NoCode

  /** The state field, stripped and upper-cased, read as F, S or neither. */
  function StateCode(state: string): Code
  {
    var st := Upper(Strip(state));
    if st == "F" then CodeF else if st == "S" then CodeS else NoCode
  }

  /**
    A row is kept exactly when its stripped time is non-empty and parses (and,
    outside failure mode, its code is F or S); the kept value is the parsed one.
   */
  lemma ReadRowMeaning(mode: string, row: FormRow, parse: string -> Option<real>)
    ensures mode == FailureMode ==>
      && !ReadRow(mode, row, parse).Suspended?
      && (ReadRow(mode, row, parse).Failed? <==> Strip(row.timeFailed) != "" && parse(Strip(row.timeFailed)).Some?)
      && (ReadRow(mode, row, parse).Failed? ==> parse(Strip(row.timeFailed)) == Some(ReadRow(mode, row, parse).hours))
    ensures mode != FailureMode ==>
      var st := Upper(Strip(row.state));
      var t := Strip(row.time);
      && (ReadRow(mode, row, parse).Failed? <==> st == "F" && t != "" && parse(t).Some?)
      && (ReadRow(mode, row, parse).Suspended? <==> st == "S" && t != "" && parse(t).Some?)
      && (!ReadRow(mode, row, parse).Dropped? ==> parse(t) == Some(ReadRow(mode, row, parse).hours))
  {
    if mode == FailureMode {
      TimeMeaning(row.timeFailed, parse);
    } else {
      StateTimeMeaning(row.state, row.time, parse);
    }
  }

  lemma TimeMeaning(field: string, parse: string -> Option<real>)
    ensures !ReadTime(field, parse).Suspended?
    ensures ReadTime(field, parse).Failed? <==> Strip(field) != "" && parse(Strip(field)).Some?
    ensures ReadTime(field, parse).Failed? ==> parse(Strip(field)) == Some(ReadTime(field, parse).hours)
  {
  }

  lemma StateTimeMeaning(state: string, time: string, parse: string -> Option<real>)
    ensures
      var st := Upper(Strip(state));
      var t := Strip(time);
      && (ReadStateTime(state, time, parse).Failed? <==> st == "F" && t != "" && parse(t).Some?)
      && (ReadStateTime(state, time, parse).Suspended? <==> st == "S" && t != "" && parse(t).Some?)
      && (!ReadStateTime(state, time, parse).Dropped? ==> parse(t) == Some(ReadStateTime(state, time, parse).hours))
  {
    assert "F" != "S";
  }

  /** A row's state matters only through its stripped, upper-cased code. */
  lemma StateCaseInsensitive(mode: string, x: string, a: string, b: string, t: string, parse: string -> Option<real>)
    requires Upper(Strip(a)) == Upper(Strip(b))
    ensures ReadRow(mode, FormRow(x, a, t), parse) == ReadRow(mode, FormRow(x, b, t), parse)
  {
  }

  /** So "f" and " s " are read as F and S. */
  lemma LowerCaseCodes()
    ensures Upper(Strip("f")) == "F" && Upper(Strip(" s ")) == "S"
  {
    assert SkipSpace("f", 0) == 0 && TrimSpace("f", 0, 1) == 1;
    assert SkipSpace(" s ", 0) == 1 && TrimSpace(" s ", 1, 3) == 2;
    assert " s "[1..2] == "s";
    assert Upper("f") == "F" && Upper("s") == "S";
  }

  /** The readings of the first n form rows, in order. */
  function ReadingsUpTo(mode: string, rows: seq<FormRow>, parse: string -> Option<real>, n: nat): (rs: seq<Reading>)
    ensures |rs| == n
  {
    if n == 0 then [] else ReadingsUpTo(mode, rows, parse, n - 1) + [ReadRow(mode, RowAt(rows, n - 1), parse)]
  }

  /** The readings of all the form rows, in order. */
  function Readings(mode: string, rows: seq<FormRow>, parse: string -> Option<real>): (rs: seq<Reading>)
    ensures |rs| == RowCount
  {
    ReadingsUpTo(mode, rows, parse, RowCount)
  }

  /** Reading k is what ReadRow makes of row k. */
  lemma {:induction false} ReadingAt(mode: string, rows: seq<FormRow>, parse: string -> Option<real>, n: nat, k: nat)
    requires k < n
    ensures ReadingsUpTo(mode, rows, parse, n)[k] == ReadRow(mode, RowAt(rows, k), parse)
  {
    if k < n - 1 {
      ReadingAt(mode, rows, parse, n - 1, k);
    }
  }

  /** The failure times among the readings, in row order. */
  function Failures(rs: seq<Reading>): (fs: seq<real>)
    ensures |fs| <= |rs|
  {
    if rs == [] then []
    else Failures(rs[..|rs| - 1]) + (if rs[|rs| - 1].Failed? then [rs[|rs| - 1].hours] else [])
  }

  /** The suspension times among the readings, in row order. */
  function Suspensions(rs: seq<Reading>): (ss: seq<real>)
    ensures |ss| <= |rs|
  {
    if rs == [] then []
    else Suspensions(rs[..|rs| - 1]) + (if rs[|rs| - 1].Suspended? then [rs[|rs| - 1].hours] else [])
  }

  /** One more reading adds at most its own time to one of the lists. */
  lemma ReadingsSnoc(rs: seq<Reading>, x: Reading)
    ensures Failures(rs + [x]) == Failures(rs) + (if x.Failed? then [x.hours] else [])
    ensures Suspensions(rs + [x]) == Suspensions(rs) + (if x.Suspended? then [x.hours] else [])
  {
    assert (rs + [x])[..|rs|] == rs;
  }

  /** Each row lands in at most one of the two lists. */
  lemma {:induction false} KeptAtMostOnce(rs: seq<Reading>)
    ensures |Failures(rs)| + |Suspensions(rs)| <= |rs|
  {
    if rs != [] {
      KeptAtMostOnce(rs[..|rs| - 1]);
    }
  }

  /** Reading works row by row: the lists of a split form are the joined lists. */
  lemma {:induction false} ReadingsAppend(a: seq<Reading>, b: seq<Reading>)
    ensures Failures(a + b) == Failures(a) + Failures(b)
    ensures Suspensions(a + b) == Suspensions(a) + Suspensions(b)
    decreases |b|
  {
    if b == [] {
      assert a + b == a;
    } else {
      var b' := b[..|b| - 1];
      assert (a + b)[..|a + b| - 1] == a + b';
      ReadingsAppend(a, b');
    }
  }

  /** In failure mode nothing is censored. */
  lemma FailureModeNoSuspensions(rows: seq<FormRow>, parse: string -> Option<real>)
    ensures Suspensions(Readings(FailureMode, rows, parse)) == []
  {
    NoSuspensionsUpTo(rows, parse, RowCount);
  }

  lemma {:induction false} NoSuspensionsUpTo(rows: seq<FormRow>, parse: string -> Option<real>, n: nat)
    ensures Suspensions(ReadingsUpTo(FailureMode, rows, parse, n)) == []
  {
    if n > 0 {
      NoSuspensionsUpTo(rows, parse, n - 1);
      var row := RowAt(rows, n - 1);
      TimeMeaning(row.timeFailed, parse);
      ReadingsSnoc(ReadingsUpTo(FailureMode, rows, parse, n - 1), ReadRow(FailureMode, row, parse));
    }
  }

  /**
    The submission is refused when it has fewer than two failures in failure
    mode or no failure at all in any other mode.
   */
  predicate Insufficient(mode: string, failures: seq<real>) {
    (mode == FailureMode && |failures| < 2) || (mode != FailureMode && |failures| < 1)
  }
}
