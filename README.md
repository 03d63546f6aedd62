# Weibull reliability workflow — a Dafny model

The application is a small web workflow for reliability engineers. The user
enters failure times in one of two ways. One is a list of times to failure
("failure" mode). The other is rows of state `F` (failed) or `S` (suspended)
with a time ("censored" mode). The times can also be derived from a pasted
log of timestamps. The application then fits a two-parameter Weibull
distribution twice, once by maximum likelihood (MLE) and once by rank
regression (least squares). It recommends one of the two fits from three
goodness-of-fit statistics, classifies the failure pattern from the shape
parameter beta, and derives a mission time or an MTBF (mean time between
failures) with its maintenance intervals. Durations are shown in hours and
also as days, months and years.

The model follows the module structure of `app.py`:

- `Wrappers`: the Option and Result types.
- `Rounding`: Python's `round` on exact reals, with ties going to the even neighbour.
- `Classifier`: `get_weibull_pattern`.
- `Units`: `convert_hours`.
- `Text`: `str.strip` and `str.upper` as the form fields use them.
- `Timestamps`: the timestamp converter `preprocess_dates`. This covers the regular-expression scan, `strptime`, calendar arithmetic, the sort, the gaps and the plausibility band.
- `Prefill`: the pre-fill rule on the data-entry page.
- `DataEntry`: reading the 25 form rows.
- `Fits`: the two stored fit records.
- `Scorer`: the step-3 scorer.
- `Derivation`: the step-4 results.
- `Workflow`: the session as a class whose fields are the session keys (an absent key is `None`). Every route handler is a method on the session. A handler that takes a form submission updates those fields and returns the next stage, or `RequestFailed` where an uncaught exception ends the request. The pre-fill of the data-entry page returns the entries and the mode it shows. The comparison and results pages change nothing and return what the page shows.

Some behaviours of the code are modelled as they are written:

- **The AICc check can crash.** When the MLE fit raised and the rank-regression fit did not, the scorer reads `results_mle["AICc"]` from an error record. The page then fails with a `KeyError`. `Scorer.Scored` yields `Err(MissingMleAicc)` for this case.
- **The results page can crash on the stored level.** It fails with a `ValueError` when the stored reliability level is not a number. `Derivation.ResultsView` yields `ServerError` for this case.
- **The timestamp converter can crash.** It fails when a timestamp has the right shape but is not a real date (for example `2023-02-30 …`). `Timestamps.Prepare` yields `Err(MalformedTimestamp)` for this case.
- **The upper plausibility bound.** It is written as `3.5 * 365.25 * 24`, which is exactly 30681 hours.
- **Julian months.** `convert_hours` divides by 30.4375 days per month. One year of 8766 hours is therefore exactly 12 months.

## Model

| member | source | states |
|---|---|---|
| Classifier.PatternOf | app.py:12-16 | beta absent gives no pattern; age-related exactly when beta > 1.1; infant mortality exactly when beta < 0.9; random failure exactly when 0.9 <= beta <= 1.1 |
| Classifier.Label | app.py:14-16 | the three strings the classifier returns: "Age-related failure", "Infant mortality (RCA Required)" and "Random failure"; LabelsDistinct proves them distinct |
| Classifier.LabelsDistinct | app.py:14-16 | the three pattern labels are distinct strings, so comparing labels compares patterns |
| Classifier.BandEdges | app.py:14-16 | both band edges 0.9 and 1.1 are random failure; values just outside them are infant mortality or age-related |
| Rounding.RoundHalfEven | app.py:64 | the result is within 0.5 of x, and on a tie it is even |
| Rounding.RoundHalfEvenUnique | app.py:64 | any integer within 0.5 of x that is even on a tie equals the rounding, so the rounding is determined |
| Rounding.RoundWhole | app.py:64 | rounding a whole number gives that number |
| Rounding.RoundTo | app.py:26 | `round(x, d)` for scale 10^d: within 0.5/10^d of x, and the scaled result is the half-even rounding of the scaled x |
| Units.ExactUnits | app.py:22-25 | days times 24 is the hours; months times 30.4375 and years times 365.25 are the days; months are 12 times years |
| Units.ConvertHours | app.py:18-26 | a non-number gives no conversion; otherwise each of days, months and years is the exact conversion rounded half to even to four decimal places (so within 0.00005 of it) |
| Units.OneJulianYear | app.py:18-26 | 8766 hours converts to exactly 365.25 days, 12 months and 1 year |
| Text.SkipSpace | app.py:92 | the first non-space index at or after i; everything skipped is white space in the sense of `str.isspace` |
| Text.TrimSpace | app.py:92 | the end of s[lo..j] after dropping trailing white space; everything dropped is white space |
| Text.IsSpace | app.py:92 | the characters `str.isspace` holds for, which `strip()` removes from both ends: the C0 separators 0x09-0x0D and 0x1C-0x20, U+0085, U+00A0, U+1680, U+2000-U+200A, U+2028, U+2029, U+202F, U+205F and U+3000 |
| Text.Strip | app.py:92 | `strip()`: the slice between the first and the last character that is not white space; its meaning is stated by StripTrims and StripEmpty |
| Text.StripTrims | app.py:92 | `strip()` keeps one contiguous slice that neither starts nor ends with white space, and every character it drops is white space |
| Text.StripEmpty | app.py:93 | a field strips to the empty string exactly when it is all white space |
| Text.Upper | app.py:97 | upper-casing keeps the length and maps each character by UpperChar |
| Timestamps.MatchesFrom | app.py:47 | the start positions of the greedy left-to-right scan of `findall`, resuming behind each match; characterised by MatchesSound, MatchesApart and MatchesCover |
| Timestamps.ShapeAt | app.py:47 | the regular expression `\d{4}-\d{2}-\d{2} \d{2}:\d{2}:\d{2}` matches the 19 characters starting at a position (with `\d` as an ASCII digit) |
| Timestamps.MatchesSound | app.py:47 | every position `findall` reports lies at or after the scan start and starts a text of the shape `dddd-dd-dd dd:dd:dd` |
| Timestamps.MatchesApart | app.py:47 | reported matches do not overlap: consecutive positions are at least 19 characters apart |
| Timestamps.MatchesCover | app.py:47 | the scan is greedy: every occurrence of the shape at or after the start overlaps a reported match |
| Timestamps.FindAll | app.py:47 | one string per reported position, in order; each is the 19 characters of the text at that position and has the timestamp shape |
| Timestamps.FindAllEmpty | app.py:47-49 | nothing is found exactly when no position of the text starts the timestamp shape |
| Timestamps.ParseTimestamp | app.py:53 | `strptime` succeeds exactly on a 19-character string of the shape whose fields form a real date and time (month lengths and leap years included) |
| Timestamps.ParseAll | app.py:53 | all timestamps parse exactly when each does, and then parsing keeps their order and count |
| Timestamps.Fields | app.py:53 | the six numeric fields `%Y-%m-%d %H:%M:%S` read from a string of the timestamp shape |
| Timestamps.ValidDateTime | app.py:53 | what `strptime` and the `datetime` constructor accept: year 1 to 9999, month 1 to 12, a day within the month's length (leap years included), hour below 24, minute and second below 60; seconds 60 and 61 pass the `%S` format but the constructor rejects them |
| Timestamps.Before | app.py:54 | the order `sort()` uses on `datetime`s: by year, then month, day, hour, minute and second |
| Timestamps.ToSeconds | app.py:53 | the instant of a date-time, in seconds since 0001-01-01 00:00:00; its order is stated by ToSecondsOrder and its day length by NextDayGap |
| Timestamps.DayNumberOrder | app.py:53-54 | a strictly earlier calendar date has a strictly smaller day number |
| Timestamps.ToSecondsOrder | app.py:53-54 | the instant of a date-time is strictly increasing in the date-time's lexicographic order, so sorting instants sorts the datetimes |
| Timestamps.NextDayGap | app.py:58-59 | the next calendar day, across month ends, year ends and leap days, is a valid later date-time exactly 86400 seconds on, so differences of instants are timedeltas in seconds |
| Timestamps.LeapDayGap | app.py:58-59 | 2024-02-28 to 2024-03-01 is two days: leap days count in the gaps |
| Timestamps.Insert | app.py:54 | inserting into a sorted sequence keeps it sorted and adds exactly that element |
| Timestamps.Sort | app.py:54 | the result is sorted and a permutation of the input |
| Timestamps.SortedUnique | app.py:54 | two sorted permutations of each other are equal, so the sorted order is unique |
| Timestamps.SortOrderIndependent | app.py:54 | sorting two permutations of the same instants gives the same sequence |
| Timestamps.Deltas | app.py:56-60 | the gap in hours from each instant to the next, one per consecutive pair; its properties are stated by DeltasNonNegative, DeltasTelescope and DeltasCons |
| Timestamps.DeltasNonNegative | app.py:56-60 | on sorted instants every gap is non-negative |
| Timestamps.DeltasTelescope | app.py:56-60 | the gaps add up to the span from the first instant to the last, in hours |
| Timestamps.DeltasCons | app.py:57-60 | the gap list is the first gap followed by the gaps of the rest |
| Timestamps.HourDeltas | app.py:56-60 | the loop yields the gaps between consecutive instants in hours, one per pair |
| Timestamps.BandLimits | app.py:43-44 | the band is 168 hours (one week) to 30681 hours (3.5 Julian years) |
| Timestamps.Plausible | app.py:66 | a gap is plausible when it lies strictly between 168 and 30681 hours |
| Timestamps.Retained | app.py:63-67 | at most one kept value per gap; each kept value is a whole number of hours in [168, 30681]; nothing is kept exactly when no gap lies strictly inside the band |
| Timestamps.RetainedAppend | app.py:63-67 | the filter works gap by gap: filtering a concatenation concatenates the results |
| Timestamps.RetainedCons | app.py:63-67 | the first gap is kept, rounded half to even, exactly when it is plausible |
| Timestamps.RetainedAllPlausible | app.py:63-67 | when every gap is plausible, each is kept in order, as its rounded value |
| Timestamps.FromInstants | app.py:54-71 | the instants come back sorted, as a permutation; the kept gaps are exactly `Retained` of the gaps of the sorted instants, between 1 and one fewer than the instants, all within the band; the only error is "no plausible failures", exactly when no gap lies inside the band |
| Timestamps.Prepare | app.py:46-71 | fewer than two matches is the "at least two timestamps" error; a match that fails to parse is a crash; "no plausible failures" exactly when all parse and no gap of the sorted instants lies inside the band; on success the instants are the parsed timestamps sorted (a sorted permutation) and the kept gaps are exactly `Retained` of their gaps, 1 to n-1 of them within the band |
| Timestamps.PrepareOrderIndependent | app.py:46-71 | two pastes holding the same instants, in any order and amid any other text, preprocess to the same result |
| Prefill.FailureEntries | app.py:144-146 | one F entry per kept gap, in order, carrying that gap's whole hours |
| Prefill.SuspensionHours | app.py:152-155 | the hours from the last stored instant to now (`total_seconds() / 3600`) |
| Prefill.SuspensionEntry | app.py:152-156 | an S entry whose time is a whole number within 0.5 of the hours since the last instant, and even on a tie: `round(hours, 0)` half to even |
| Prefill.HalfHourTie | app.py:156 | a suspension of exactly 100.5 hours is entered as 100 |
| Prefill.PrefillRule | app.py:136-163 | no gaps: no entries and no change; 1 or 2 gaps: censored mode, the F entries, then one S entry when instants are stored, which are popped; 3 or more: failure mode with only the F entries; the S entry appears only after the failures |
| Prefill.TwoFailuresHundredHours | app.py:140-156 | two gaps with the last instant 100 hours ago pre-fill F, F and S at 100 hours |
| DataEntry.ReadRowMeaning | app.py:90-104 | in failure mode a row is read from its time-failed field only; in any other mode from its state and time fields only |
| DataEntry.TimeMeaning | app.py:92-95 | a time field yields a failure exactly when it is non-empty after stripping and parses as a float, with that value; it never yields a suspension |
| DataEntry.StateTimeMeaning | app.py:97-104 | a row is kept exactly when its stripped time parses and its stripped, upper-cased state is F or S; F gives a failure and S a suspension with that time |
| DataEntry.StateCaseInsensitive | app.py:97 | states that agree after strip and upper give the same reading |
| DataEntry.LowerCaseCodes | app.py:97 | "f" reads as F and " s " as S |
| DataEntry.ReadRow | app.py:91-104 | the reading of one row in a mode; its meaning is stated by ReadRowMeaning |
| DataEntry.ReadTime | app.py:92-95 | the reading of a failure-mode row from its time-failed field; its meaning is stated by TimeMeaning |
| DataEntry.ReadStateTime | app.py:97-104 | the reading of a censored-mode row from its state and time fields; its meaning is stated by StateTimeMeaning |
| DataEntry.StateCode | app.py:97-99 | the state code after `strip()` and `upper()`: F, S, or neither |
| DataEntry.ReadingsUpTo | app.py:90 | one reading per row index up to n |
| DataEntry.Readings | app.py:90-104 | one reading for each of the 25 rows, `range(1, 26)`; each is the reading of its row (ReadingAt) |
| DataEntry.ReadingAt | app.py:90-104 | reading k is the reading of row k (a missing row reads as all-empty fields) |
| DataEntry.RowAt | app.py:92-98 | the fields of row i; a row the form did not send reads as empty strings, as `request.form.get(..., "")` does |
| DataEntry.Failures | app.py:94 | at most one failure time per reading |
| DataEntry.Suspensions | app.py:103 | at most one suspension time per reading |
| DataEntry.ReadingsSnoc | app.py:90-104 | one more row appends its time to at most one of the two lists and leaves the other unchanged |
| DataEntry.KeptAtMostOnce | app.py:90-104 | the failure and suspension lists together hold no more times than there are rows |
| DataEntry.ReadingsAppend | app.py:90-104 | both lists are read row by row: reading a concatenation concatenates the lists, in row order |
| DataEntry.NoSuspensionsUpTo | app.py:91-95 | in failure mode a prefix of the rows yields no suspensions |
| DataEntry.FailureModeNoSuspensions | app.py:91-95 | in failure mode the censored list is always empty |
| DataEntry.Insufficient | app.py:106-108 | the submission is refused exactly when there are fewer than 2 failures in "failure" mode, or fewer than 1 in any other mode |
| Fits.Record | app.py:113-127 | a raised fit gives an error record with the exception's message; otherwise beta and alpha are the fitter's values rounded half to even to four places, log-likelihood, AD and AICc to two places; the pattern is the classifier's on the rounded beta; AICc is "N/A" exactly for MLE with 3 or fewer data points |
| Fits.DualFit | app.py:113-127 | each record is an error, with the message, exactly when its own fitter call raised; a fitted record's beta is that call's beta rounded to four places and its pattern that beta's; rank regression always has an AICc, MLE has "N/A" exactly for 3 or fewer data points |
| Fits.FitsIndependent | app.py:113-127 | a failure of one fit does not affect the other record |
| Fits.RankRegressionAiccAvailable | app.py:125 | a successful rank-regression record always has a numeric AICc |
| Scorer.Compare | app.py:194-212 | a compared metric is even exactly when the values are equal; MLE wins exactly when its value is better (higher likelihood, lower AD or AICc) |
| Scorer.Truthy | app.py:192-200 | the truthiness guard of the log-likelihood and AD checks: the value is present and not zero |
| Scorer.Loglik | app.py:192 | `.get("loglik")` on a record: its value for a fitted record, None for an error record or a missing one (`{}`) |
| Scorer.Ad | app.py:200 | `.get("AD")` on a record: its value for a fitted record, None for an error record or a missing one |
| Scorer.AiccOf | app.py:208-210 | `.get("AICc")` on a record: a number or "N/A" for a fitted record, None for an error record or a missing one; None on the MLE side is where `results_mle["AICc"]` raises the `KeyError` |
| Scorer.LoglikPoint | app.py:192-197 | the log-likelihood comparison, made only when both values are truthy, higher wins |
| Scorer.AdPoint | app.py:200-205 | the Anderson-Darling comparison, made only when both values are truthy, lower wins |
| Scorer.AiccPoint | app.py:208-213 | the AICc comparison behind its guard, lower wins, with the `KeyError` and `TypeError` it can raise; its error cases are stated by ScoreErrors |
| Scorer.Scored | app.py:187-213 | the three comparisons tallied into the two scores and the count of metrics; its properties are stated by ScoreBounds, ScoreErrors and ScoredStoredRecords |
| Scorer.ScoreBounds | app.py:187-213 | each score is at most the number of metrics counted, which is at most 3, and the two scores sum to at most that number |
| Scorer.ScoreErrors | app.py:208-213 | scoring fails exactly when the rank-regression record has an AICc and either the MLE record has none (a `KeyError`) or the MLE value is a number while the rank-regression one is "N/A" (a `TypeError`) |
| Scorer.ScoredStoredRecords | app.py:113-127 | for stored records the crash happens exactly when the MLE fit raised and the rank-regression fit succeeded |
| Scorer.Recommended | app.py:215-224 | rank regression is recommended exactly when its score is strictly higher, otherwise MLE, ties included |
| Scorer.Recommend | app.py:183-224 | the counting loop fails exactly when the scoring does; otherwise it returns the tally and the recommendation for it |
| Scorer.TwoOfThree | app.py:191-224 | an MLE fit better on log-likelihood and AICc but worse on AD scores 2 to 1 out of 3 |
| Scorer.NothingComparable | app.py:187-224 | with two error records no metric is counted and MLE is recommended by default |
| Derivation.MeasureOf | app.py:257-259 | a derived duration is shown rounded half to even to two decimal places (so within 0.005 hours), and its unrounded value is converted to days, months and years |
| Derivation.MissionTimeHours | app.py:256 | `alpha * (-ln(R)) ** (1 / beta)`, the age at which reliability falls to R; its meaning is stated by MissionTimeInverts |
| Derivation.MtbfHours | app.py:262 | `alpha * gamma(1 + 1 / beta)`, the mean of the Weibull distribution |
| Derivation.MissionTimeInverts | app.py:256 | the mission time is the inverse of the Weibull reliability: the reliability at that time is the requested level |
| Derivation.Derive | app.py:248-275 | an absent or errored record, or a zero beta, gives the error page with the record's message or "Could not fit model."; otherwise beta, alpha and the pattern are shown; a mission time exactly for age-related fits with a non-zero level; the MTBF with 4% and 2% intervals exactly for random failure |
| Derivation.ReliabilityLevel | app.py:245 | an absent or empty stored level is no level; otherwise it is parsed, and a level that does not parse is an error |
| Derivation.ChosenRecord | app.py:246 | `results_{chosen}`: "mle" and "rr" name the two stored records, any other choice the empty record |
| Derivation.ResultsView | app.py:243-277 | the results page is a crash exactly when the stored level does not parse; otherwise it is the derivation for the chosen record, "mle" by default |
| Workflow.ModeOf | app.py:86 | `session.get("input_method", "failure")` |
| Workflow.Session.Valid | app.py:73-127 | what the handlers keep true of the session: stored gaps are non-empty whole hours within the band, stored instants are at least two and sorted, the data lists and both records are stored together, and a fitted rank-regression record has a numeric AICc; CompareFitsPage relies on it |
| Workflow.Session.Start | app.py:31-36 | clears every key and stores the chosen input method ("failure" by default), then goes to data entry |
| Workflow.Session.Preprocess | app.py:40-78 | returns the preprocessing result; on every error the session is unchanged; fewer than two timestamps or no plausible gap shows the converter page again, and a timestamp `strptime` rejects fails the request; on success the kept gaps and sorted instants are stored and nothing else changes |
| Workflow.Session.StorePrepared | app.py:73-76 | stores the kept gaps and the sorted instants, changes nothing else, and keeps the session invariant |
| Workflow.Session.PrefillEntryForm | app.py:133-167 | pops the pre-filled gaps, applies the pre-fill rule to the session as it was, sets or keeps the mode and pops the instants as the rule says; shows the resulting mode |
| Workflow.Session.SubmitData | app.py:85-129 | with too little data (fewer than 2 failures in failure mode, fewer than 1 otherwise) the session is unchanged; otherwise it stores the read lists and both fit records and goes to step 3 |
| Workflow.Session.StoreData | app.py:110-127 | stores the data and both records, each from its own fitter call, and changes nothing else |
| Workflow.Session.CompareFitsPage | app.py:183-230 | the recommendation for the two stored records, or the scorer's crash; once data has been entered in a valid session, the page fails exactly when the MLE fit raised and the rank-regression fit did not |
| Workflow.Session.ChooseFit | app.py:173-180 | stores the chosen method ("mle" by default); goes to the reliability level exactly when the chosen record is an age-related fit, otherwise to the results |
| Workflow.Session.SetReliability | app.py:236-239 | stores the level as typed ("0.8" by default) and goes to the results |
| Workflow.Session.ShowResults | app.py:243-277 | the results page for the session as it stands |
| Workflow.PreprocessText | app.py:46-71 | the step-by-step converter computes the preprocessing result |
| Workflow.FailureRows | app.py:144-146 | the loop builds one F entry per gap |
| Workflow.ReadForm | app.py:88-104 | the loop over the 25 rows yields the failure and suspension lists of the row readings |
| Workflow.Keep | app.py:94-103 | a failure time is appended to the failures, a suspension time to the censored list, and a dropped row to neither |
| Workflow.PrefillOnce | app.py:136 | the pre-filled gaps are consumed: loading the page a second time pre-fills nothing |

## Left out

- Flask itself is not modelled: routing by URL, templates, the `flash` warning and `redirect`. A handler's outcome is the next `Stage` (or the page's data), and the GET handlers that only render a template are not modelled.
- The client-side script of the data-entry table is not part of this model.
- The Weibull fitter (`Fit_Weibull_2P`) is a parameter `Fitter`. Its outcome is either the five statistics or a raised exception with its message.
- `np.log`, `**` and `scipy.special.gamma` are the parameters of `Derivation.Math`. The exponential is a parameter of `MissionTimeInverts`, whose preconditions state the inverse laws it needs.
- `float(...)` on form fields and on the stored level is a parameter `parse`, which fails where `float` raises.
- `datetime.now()` is a parameter `now`, in seconds on the same scale as the instants.
- Floats are exact reals. There is no NaN, infinity, binary rounding or overflow, and `round` acts on the exact value.
- Rounding.RoundTo: states the rounding of the exact value at scale 10^d. Binary floating point can round a decimal tie differently.
- Text.Upper: exact only for a-z and U+017F, which are all the characters whose upper case can become "F" or "S". Other characters are left as they are, which does not change whether a state reads as F or S.
- Timestamps.FindAll: `\d` is modelled as the ASCII digits only. Python's `\d` also matches other Unicode decimal digits, so the code also finds timestamps written with them. Depending on where such digits stand, `strptime` then parses the timestamp or raises. The model skips such text instead.
- Timestamps.ParseTimestamp: years 0001 to 9999 only, as `datetime` allows. Instants are whole seconds from 0001-01-01 00:00:00, not `datetime` objects.
- The instants are stored as those numbers, not as ISO strings. The `fromisoformat` round trip in step 2 is taken to give back the same instant.
- Timestamps.Sort: a function, insertion sort, rather than the in-place `list.sort`. Only the sorted result matters to the code.
- The uncaught exceptions modelled as outcomes (`MalformedTimestamp`, `MissingMleAicc`, `ServerError`) do not model the HTTP 500 page itself.
- The recommendation sentence is not modelled, only its scores, count and chosen method.
- The four separate session reads in step 4 are one read of the session's fields.
- The non-numeric case of `convert_hours` cannot arise from the derivation, whose durations are always numbers. It is kept in `Units.ConvertHours` as `None`.
- The session is one object per user. Concurrent requests and cookie signing are not modelled.
