# chronologicon, modelled in Dafny

chronologicon is a command-line time tracker. `chron -s <discipline>
<project> [<note>]` starts a log and keeps it in the one-entry slot
`temp.json`. The cancel command discards it. The status command reports it.
The stop command finishes it: the finished entry is appended in place to the JSON array in
`logs.json`, the slot is emptied, and `stat.json` is rewritten from a fold
over every entry. That fold gives totals, a floor average, time per
discipline, per project and per project and discipline, and an
hour-of-day histogram.

The model follows the module `chronologicon/__init__.py`:

- `wrappers.dfy`: `Option`.
- `entries.dfy` (module `Entries`): the six-key log record, its initial
  value `CUR_LOG`, and `Finish`, which stamps the end time and the
  floor-divided length in seconds.
- `logs_file.dfy` (module `LogsFile`): `logs.json` as text. It holds the
  truncate-then-append edit (`AppendedText`) and the text of a
  well-formed collection (`CollectionText`). It proves that the edit turns
  the text of a collection into the text of the collection with one more
  entry.
- `local_time.dfy` (module `LocalTime`): the twenty-four hour labels; a
  fixed-offset hour lookup and the property every hour lookup must have.
- `maps.dfy` (module `Maps`): `dict.get(k, 0)`, the increment of one
  counter, and the sum of a map's values.
- `statistics.dfy` (module `Statistics`): `CUR_STATS` as a class `Stats`
  whose methods update its fields in place, as the loop of `SaveStats`
  does. The loop is proved against `Fold`, a recursive function over the
  collection. Lemmas then say what `Fold` computes, per key and in total.
- `chronologicon.dfy` (module `Chronologicon`): the class `Chron`, one
  process of the command. Its fields are `CUR_LOG`, `CUR_STATS`, the slot,
  `logs.json` and `stat.json`. Its methods are `StartLog`, `CancelLog`,
  `Status`, `StopLog` and `SaveStats`.

Inputs from outside the program are parameters:

- The clock is `nowMs`, the `int(time.time() * 1000)` of the call.
- The hour lookup `strftime("%H", localtime(ms / 1000))` is a function
  `hourOf` from epoch milliseconds to a label, required to answer one of
  "00" … "23". `LocalTime.FixedOffsetClock` builds one for a zone at a
  fixed offset from UTC.
- `json.dumps(log)` and `json.dumps(log, indent=4)` are the opaque
  functions `dumps` and `dumpsIndented`. The model needs only that their
  outputs are longer than ten and eight characters, which every
  serialization of the six-key dict is.
- Whether `temp.json` can be written is the flag `tempWritable`.
- Whether an existing `logs.json` can be opened for update (`'rb+'`) is
  the flag `logsWritable`. When it cannot, the stop command fails and
  changes nothing, as when the file is missing or empty.

`temp.json` is modelled by its size in bytes, which `StartLog` tests, and by
the log `json.load` finds in it, which `Status` and `StopLog` read. A
missing file has size 0 and holds no log. A slot that holds a log is
always larger than ten bytes (`Chronologicon.WellSized`), since every
serialization of the six-key dict is; so the size test of `StartLog`
never lets a start overwrite a log in progress. `logs.json` is its text, empty
when the file is empty or missing, together with the entries that text
encodes.

The model keeps these behaviours of the code:

- `StartLog` checks only that there are at least two arguments, not that
  the discipline and the project are non-empty.
- A log counts as in progress when `temp.json` is larger than ten bytes,
  not by an explicit flag.
- `SaveStats` never resets `CUR_STATS`, so running it twice in one process
  does not give the same snapshot. It adds the collection again
  (`Statistics.RepeatedFoldAccumulates`). Each command is one process and
  `StopLog` calls `SaveStats` once, so the file written by one stop is the
  fold from the initial values (`Chronologicon.StopCommand`).
- When the slot cannot be emptied after a successful append, `StopLog`
  still recomputes the statistics and leaves the log in the slot. A later
  stop would then append it a second time.

## Model

| member | source | states |
|---|---|---|
| Entries.Finish | chronologicon/__init__.py:162-168 | the entry keeps the start stamp, discipline, project and note of the slot's log; its end is the clock; its length is the elapsed milliseconds divided by 1000, rounded down (`length*1000 <= end-start < length*1000+1000`) |
| Entries.FloorDivRoundsDown | chronologicon/__init__.py:168 | floor division by a positive divisor `q = a // b` satisfies `q*b <= a < q*b + b` |
| LogsFile.AppendedText | chronologicon/__init__.py:172-179 | the new text keeps the old text minus its last character, then has a comma exactly when that kept text is longer than ten bytes, then a newline and the serialized entry, and ends in `]` |
| LogsFile.AppendToEmptyArray | chronologicon/__init__.py:172-179 | appending to the initial `[]` writes `[` newline entry `]`, with no comma |
| LogsFile.EmptyCollection | chronologicon/__init__.py:18 | the text of the empty collection `LOGS_DEFAULT` is `[]` |
| LogsFile.AppendExtendsCollection | chronologicon/__init__.py:172-179 | when every serialized entry is longer than eight characters, the edit turns the text of a collection into the text of that collection with the new entry at the end |
| LocalTime.HourOf | chronologicon/__init__.py:224 | the hour of an instant in a fixed-offset zone is one of the labels "00" … "23" |
| LocalTime.FixedOffsetClock | chronologicon/__init__.py:224-228 | the fixed-offset lookup only ever answers an hour label |
| Maps.MapSumAt | chronologicon/__init__.py:213-229 | the sum of a map's values is the value at any key plus the sum of the rest |
| Maps.MapSumUpdate | chronologicon/__init__.py:213-229 | overwriting one counter changes the sum by the difference of the new and old values, or by the new value for a new key |
| Maps.MapSumBump | chronologicon/__init__.py:213-216 | `m[k] = m.get(k, 0) + v` raises the sum of the values by `v` |
| Maps.RowSumsUpdate | chronologicon/__init__.py:218-220 | replacing one project's row changes only that project's row total |
| Statistics.WithKeyMembers | chronologicon/__init__.py:213-220 | the logs filtered by a label are exactly the logs that carry it |
| Statistics.TallyAt | chronologicon/__init__.py:212-216 | after the loop, `discbytime[d]` (`projbytime[p]`) is its start value plus the sum of TIME_LENGTH over the logs with discipline d (project p) |
| Statistics.TallyKeys | chronologicon/__init__.py:212-216 | the keys of `discbytime` (`projbytime`) are the start keys plus exactly the labels that occur |
| Statistics.TallyTotal | chronologicon/__init__.py:212-216 | the values of `discbytime` (`projbytime`) grow in sum by the total time of the logs |
| Statistics.NestedAt | chronologicon/__init__.py:218-220 | `projbydisc[p][d]` is its start value plus the time of the logs with project p and discipline d |
| Statistics.NestedKeys | chronologicon/__init__.py:218-220 | the projects of `projbydisc` are the start ones plus exactly the projects that occur |
| Statistics.NestedRowKeys | chronologicon/__init__.py:218-220 | the disciplines under project p are the start ones plus exactly those its logs carry |
| Statistics.NestedTotal | chronologicon/__init__.py:218-220 | all inner values of `projbydisc` together grow by the total time |
| Statistics.BumpAllAt | chronologicon/__init__.py:223-229 | incrementing a list of hour labels adds to each bucket the number of times its label occurs |
| Statistics.BumpAllTotal | chronologicon/__init__.py:223-229 | incrementing a list of labels raises the histogram total by the list's length |
| Statistics.BumpAllKeys | chronologicon/__init__.py:223-229 | incrementing a list of labels adds exactly those labels as keys |
| Statistics.EntrySlots | chronologicon/__init__.py:223-229 | a log shorter than 3601 s increments only its starting hour; a longer one increments TIME_LENGTH // 3600 + 1 hours, the h-th being the hour of TIME_START + 3600000·h |
| Statistics.HourTallyAt | chronologicon/__init__.py:223-229 | each `workbyhour` bucket is its start value plus the number of slots of all logs that fall in that hour |
| Statistics.TouchedHoursLength | chronologicon/__init__.py:223-229 | the hour slots of a collection number the sum of its logs' slot counts |
| Statistics.HourTallyTotal | chronologicon/__init__.py:223-229 | the histogram total grows by the sum of the logs' slot counts |
| Statistics.HourTallyKeySet | chronologicon/__init__.py:223-229 | the keys of `workbyhour` are its start keys plus exactly the hours the logs touch |
| Statistics.HourTallyKeys | chronologicon/__init__.py:223-229 | only the twenty-four hour labels ever become keys of `workbyhour` |
| Statistics.FreshTotals | chronologicon/__init__.py:200-210 | from the initial CUR_STATS, `totallogs` is the number of logs, `totaltime` the sum of their lengths and `avgloglength` the floor average; an empty collection leaves all three 0 |
| Statistics.FreshPerKey | chronologicon/__init__.py:200-229 | from the initial CUR_STATS, each per-discipline, per-project, per-project-and-discipline and per-hour value is the matching sum over the logs |
| Statistics.FreshKeys | chronologicon/__init__.py:212-229 | from the initial CUR_STATS, the keys of `discbytime`, `projbytime` and `projbydisc` are exactly the disciplines and projects that occur, and those of `workbyhour` exactly the hours the logs touch |
| Statistics.FreshSums | chronologicon/__init__.py:200-229 | from the initial CUR_STATS, the values of `discbytime`, of `projbytime` and of `projbydisc` each add up to `totaltime`, and those of `workbyhour` to the number of hour slots |
| Statistics.RepeatedFoldAccumulates | chronologicon/__init__.py:200-208 | for any collection, a second pass over it without a reset doubles `totaltime` and keeps `totallogs` at the collection size |
| Statistics.TwoLogExample | chronologicon/__init__.py:200-216 | 60 s of A on X and 7200 s of B on X give 2 logs, 7260 s, an average of 3630, `discbytime` {A: 60, B: 7200} and `projbytime` {X: 7260} |
| Statistics.LateNightExample | chronologicon/__init__.py:226-229 | a two-hour log starting at 23:00 UTC, read at offset 0, increments hours 23, 00 and 01 |
| Statistics.Stats.constructor | chronologicon/__init__.py:29-37 | CUR_STATS starts with four empty maps and three zeros |
| Statistics.Stats.CoverHours | chronologicon/__init__.py:223-229 | the single-hour branch and the `for h` loop increment exactly the log's slot hours |
| Statistics.Stats.AddTime | chronologicon/__init__.py:203-210 | `totallogs` becomes the collection size, `totaltime` grows by the log's length, `avgloglength` is the floor of their quotient |
| Statistics.Stats.AddLabels | chronologicon/__init__.py:212-220 | the log's time is added under its discipline, under its project, and under its project and discipline |
| Statistics.Stats.AddLog | chronologicon/__init__.py:201-229 | one iteration of the loop takes CUR_STATS one step of the fold |
| Statistics.Stats.Accumulate | chronologicon/__init__.py:200-229 | the loop over the parsed collection leaves CUR_STATS equal to the fold of the collection from its previous value |
| Chronologicon.Chron.constructor | chronologicon/__init__.py:21-37 | loading the module sets CUR_LOG to the zero log and CUR_STATS to the initial snapshot; the files are as found, a slot holding a log being larger than ten bytes |
| Chronologicon.Chron.Status | chronologicon/__init__.py:148-155 | a log is reported in progress exactly when the slot holds one, with that log's discipline and project |
| Chronologicon.Chron.StartLog | chronologicon/__init__.py:106-131 | with fewer than two arguments, or a slot larger than ten bytes, nothing changes, so a log already in the slot is never altered; otherwise CUR_LOG gets the start stamp, the labels and the note (the old note when none is given), and is written to the slot when it is writable |
| Chronologicon.Chron.CancelLog | chronologicon/__init__.py:135-144 | the slot is emptied exactly when it is writable and is otherwise unchanged |
| Chronologicon.Chron.AppendToLogsFile | chronologicon/__init__.py:171-179 | the truncate-then-append edit, failing and leaving the file unchanged when the file cannot be opened for update or has no last byte |
| Chronologicon.Chron.SaveStats | chronologicon/__init__.py:195-235 | with a readable collection, CUR_STATS becomes the fold of the collection from its previous value and is written to `stat.json`; otherwise neither changes |
| Chronologicon.Chron.StopLog | chronologicon/__init__.py:159-191 | with no log in the slot nothing changes; when the append fails (`logs.json` not openable for update, missing or empty) the slot, the collection and the statistics are unchanged; otherwise the finished entry is appended to the collection and its text, the slot is emptied when writable, and the statistics become the fold of the new collection |
| Chronologicon.StopCommand | chronologicon/__init__.py:21-37 | one process of the stop command writes statistics equal to the fold of the whole new collection from the initial CUR_STATS |

## Left out

- File I/O, path joining via the save-directory preference, and exception types. Files are fields of `Chron`, and each failure the core handles is an explicit outcome or flag.
- `Preflights`, `ChangeSaveDir`, the `EasySettings` preferences, `Backup`, `Export`, `LoadStats` and `LoadLogs`. They are existence checks, file creation, byte copies and thin `json.load` wrappers.
- JSON formatting. `json.dumps` is opaque, and `json.load` of `logs.json` is modelled only for texts the program itself wrote (`[]` and its appends). A `logs.json` edited by hand into other text is not modelled.
- The `.lower()` of the written statistics text. The field `statsFile` is `CUR_STATS` as it was before its text is lower-cased. The written file has lower-cased labels, so labels such as "A" and "a" end up with the same key there.
- A failure to write `stat.json`. `SaveStats` fails in the model only when `logs.json` cannot be read.
- Crashes on a slot that parses to JSON without the expected keys, on entries without them, and files left half-written by an exception between the truncate and the append.
- Time zones with daylight saving, and the float in `localtime(ms / 1000)`. The hour lookup is the parameter `hourOf`, and `FixedOffsetClock` is the only concrete lookup given.
- Every `print`. The `quietly` argument of `CancelLog` changes only what is printed, so it has no parameter.
