# Mon Odyssée Musicale — a verified model of the schedule generator and the tracker rules

The repository is a personal album-listening diary for 2026. A generator script
(`generateur_json.py`) builds a catalogue of (artiste, album) pairs with no duplicates.
It shuffles the catalogue, cuts or pads it to exactly 365 entries and keys entry `i`
by the date 2026-01-01 + `i` days. A Streamlit page (`app.py`) then shows the first
album not yet listened to and the one after it. It records a rating and a review on
that row and colours every day of a calendar as listened, overdue or upcoming.

This project models that logic in Dafny and proves what it promises:

- `wrappers.dfy`: `Option`, Python's `None` or a value.
- `decimal.dfy`: decimal text as Python prints it. `Digits` is the zero-padded form
  of `str(date)`'s fields and `NatToString` is `str(n)`. `LexLess` is Python's `<` on
  `str`.
- `calendar.dfy`: the proleptic Gregorian calendar of `datetime.date`. It covers leap
  years, the ordinal day number, `date + timedelta(days=n)` (`AddDays`) and `str(date)`
  (`IsoDate`).
- `generator.dfy`: `generateur_json.py`. The global list `DATABASE` is the class
  `Catalogue` with a `seq` field `entries` that `Add`, `BuildLibrary`, `Shuffle` and
  `FitToTarget` update in place. `BuildPlanning` is the `enumerate` loop that fills
  `planning`. `GenerateSchedule` is `generer_json_final` without the file output.
- `tracker.dfy`: the logic of `app.py` without the page. The DataFrame is a sequence
  of `Row`s, and the form submission is a method that updates an `array<Row>` in place.
  The choice of the current and next album, the rating rule and the calendar colour are
  functions. The calendar events are built by a loop.

Facts about the code that the model keeps:
- A new entry has `ecoute = False`, `note = None` and `avis = ""`.
- Padding entries are `Journée Libre k` / `Choisis un album !`, with genre `Joker` and tag `Libre`.
- The table is read from the generated JSON file, one row per date key.
- "Current" and "next" are the first and second rows with `ecoute == False` in table
  order. For a generated file this is date order (`DayKeysOrdered`).

## Model

| member | source | states |
|---|---|---|
| Decimal.NatToStringInjective | generateur_json.py:193 | distinct counters `k` give distinct `str(k)`, so distinct placeholder names |
| Decimal.DigitsOrder | app.py:191 | for zero-padded numbers of equal width, string `<` is numeric `<` and string equality is numeric equality |
| Calendar.OrdinalOrder | generateur_json.py:204 | valid dates are ordered by, and determined by, their ordinal day number |
| Calendar.NextDay | generateur_json.py:204 | the day after a valid date is a valid date whose ordinal is one greater (month and year roll-over, leap years) |
| Calendar.AddDays | generateur_json.py:204 | `date + timedelta(days=n)` is a valid date exactly `n` ordinal days later, up to 9999-12-31 |
| Calendar.IsoDateOrder | app.py:186-191 | on `str(date)` strings, Python's `<` agrees with chronological order, and distinct dates give distinct strings |
| Generator.Added | generateur_json.py:12-21 | after `add` the pair is present, earlier entries are kept as a prefix, at most one entry is appended, and no duplicate pair is created |
| Generator.AddedCases | generateur_json.py:14-21 | a pair already present leaves the list unchanged; otherwise one record with `ecoute=False`, `note=None`, `avis=""` is appended at the end |
| Generator.AddedIdempotent | generateur_json.py:14-17 | calling `add` twice with the same pair gives the state of one call |
| Generator.AddAllNoDuplicates | generateur_json.py:12-21 | after any sequence of `add` calls, no two entries share an (artiste, album) pair |
| Generator.AddAllContents | generateur_json.py:23-173 | every requested pair is in the catalogue, and every new entry is the record of some call |
| Generator.Catalogue.constructor | generateur_json.py:10 | `DATABASE` starts empty and free of duplicates |
| Generator.Catalogue.Add | generateur_json.py:12-21 | the scan-then-append method computes `Added` (default tag "Découverte") and keeps the no-duplicate invariant |
| Generator.Catalogue.BuildLibrary | generateur_json.py:23-173 | the seed `add` calls, in order, leave `DATABASE` equal to `AddAll` of them |
| Generator.Catalogue.Shuffle | generateur_json.py:180 | the list is reordered by the given permutation and stays free of duplicates |
| Generator.PermutedKeepsEntries | generateur_json.py:180 | shuffling keeps the length and the set of entries, and preserves the no-duplicate invariant |
| Generator.PlaceholdersShrink | generateur_json.py:191-195 | a skipped placeholder `add` removes its number from the finite set of pending placeholder names, so the padding loop terminates |
| Generator.Catalogue.FitToTarget | generateur_json.py:183-195 | 365 entries; at least 365 (`>=`) gives the first 365 and leaves `DATABASE` as is; fewer keeps the list as a prefix and appends "Journée Libre k" entries with strictly increasing k >= 1 to `DATABASE` itself |
| Generator.DayKeysOrdered | generateur_json.py:203-205 | later entries get strictly later dates, and their keys are greater and pairwise distinct |
| Generator.DayKeysConsecutive | generateur_json.py:203-205 | entry `i+1` falls on the day after entry `i`: no date is skipped |
| Generator.ScheduleEndsOnNewYearsEve | generateur_json.py:211 | the 365th date is 2026-12-31 and every scheduled date lies in 2026 |
| Generator.ScheduleCoversYear | generateur_json.py:201-205 | the first key is "2026-01-01" and the 365th is "2026-12-31" |
| Generator.Put | generateur_json.py:205 | a dict assignment with a new key appends it; with an existing key it replaces that slot's value in place and changes nothing else |
| Generator.BuildPlanning | generateur_json.py:200-205 | one slot per entry, in list order, slot `i` keyed by `str(2026-01-01 + i days)` |
| Generator.SelectYear | generateur_json.py:177-195 | exactly 365 entries with no duplicate pair: the first 365 of the shuffled catalogue when it has at least 365, otherwise the whole shuffled catalogue followed by `Journée Libre k` placeholders with strictly increasing k >= 1 |
| Generator.GenerateSchedule | generateur_json.py:176-205 | 365 slots keyed by the days from "2026-01-01" to "2026-12-31", with no duplicate pair; their entries are the shuffled catalogue cut to 365, or the shuffled catalogue followed by numbered placeholders |
| Tracker.ToDo | app.py:94 | exactly the rows with `ecoute == False`, in increasing table order |
| Tracker.WatchedCount | app.py:77-78 | the listened count never exceeds the number of rows |
| Tracker.WatchedPlusToDo | app.py:78 | listened rows plus rows still to do make up the whole table |
| Tracker.CurrentAlbum | app.py:122-126 | the lowest-index row with `ecoute == False`, or none (the completion branch) exactly when every row is listened |
| Tracker.UpNext | app.py:94-115 | the second row to do when there are two or more, the "last album" message for exactly one, "Liste terminée !" for none |
| Tracker.FinalNote | app.py:169 | the star index plus one, or exactly 3 when no star is chosen; a 0..4 index yields a rating in 1..5 |
| Tracker.MarkListened | app.py:170-172 | only the active row changes, and only its `ecoute`, `note` and `avis` columns |
| Tracker.Submit | app.py:168-173 | in place on the table: the active row gets `ecoute=True`, the final note and the review; with no active row nothing changes |
| Tracker.SubmitAdvances | app.py:122-126 | after a submission the active album is the one the sidebar showed as next, or none is left |
| Tracker.SubmitCountsOne | app.py:78 | a submission raises the listened count by exactly one |
| Tracker.ClassifyByDate | app.py:188-196 | listened rows are green; otherwise a row is red exactly when its date is chronologically before today, else grey |
| Tracker.BuildEvents | app.py:184-205 | one event per row in row order, starting on the row's date, all-day, with the status colour as background and border |
| Tracker.ScheduledRowStatus | app.py:191 | on a generated schedule, a row is overdue exactly when it is still to do and its day comes before today |

## Left out

- The `if not df.empty:` guard (app.py:76) is not modelled: on an empty table the page renders nothing, neither "Liste terminée !" nor the completion message. The model's `CurrentAlbum` and `UpNext` still give `None` and `ListFinished` on an empty table, which the page never shows.
- The Streamlit page is rendering only and is not modelled: `st.*` calls, layout, balloons, `st.rerun`, the calendar widget and its options, and the tag badge at app.py:143-148.
- `load_data` / `save_data` and the final `json.dump` are file I/O. The table is modelled as a sequence of rows in date-key order.
- `get_album_infos` is not modelled. It makes iTunes and Wikipedia network calls with caching and catch-all fallbacks.
- The progress ratio and mean rating (app.py:79, 85) use floating-point arithmetic and are not modelled.
- `random.shuffle` is a permutation passed in as a parameter. `date.today()` is a `Date` parameter.
- The seed contents of `construire_bibliotheque` are static data. They are abstracted as an arbitrary sequence of `add` calls.
- `test_gsheets.py` is not part of this model. It is a connection smoke test with no logic of its own.
- Calendar.AddDays: Python raises OverflowError past 9999-12-31. Here that is a precondition, not an error result; the generator never gets near it.
- Generator.PermutedKeepsEntries: states equal length and equal sets of entries, not multiset equality. The permutation is a bijection, so no entry is dropped or repeated.
- Generator.Catalogue.Shuffle: assigns the permuted list in one step, where `random.shuffle` swaps elements in place.
- Generator.BuildPlanning: the `planning` dict is an ordered sequence of (key, entry) slots. Insertion order is the dict's iteration order, and the keys are proved distinct.
