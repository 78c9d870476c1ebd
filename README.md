# Compile-MOR reconciliation rules, modelled in Dafny

Compile-MOR assembles the monthly operating report ("MOR") of a print and mail
shop from four domains:

- **production**: meter totals per production machine, two waste figures, and
  the accuracy, timeliness and job-count statistics;
- **fleet**: the black-and-white and colour volumes taken from an executive
  summary PDF;
- **MPS**: device counts carried forward from last month's report, plus
  equipment adds and moves;
- **mail**: the postage spend and five mail volumes.

Each domain either reads its figures from a spreadsheet or PDF or asks for
them at the console. The four per-domain mappings are then merged into one.
That mapping is written into the output workbook, under a "Date Compiled"
cell, and appended to a plain-text log.

This project models the rules that decide:

- which figures are read;
- how loosely typed console text becomes numbers;
- when the program falls back to asking;
- how the four results are merged and written out.

## How the model is built

- **Console.** The console is a script of lines, `lines: seq<string>`. Every
  operation that reads input also returns how many lines it consumed, `used`.
  Running out of lines is Python's `EOFError`.
- **Exceptions.** A Python exception that escapes an operation is the value
  `Raised(e)` of `Outcome<T>` (`Builtins`). An operation that catches one
  models the `try` branch by branch.
- **Python values and parsers.** `Builtins` gives:
  - `PyValue`, the value stored in a cell or a dict: `None`, an int, a float
    (as `real`) or a string;
  - ASCII models of `int()`, `float()` and `str.isnumeric()`;
  - `str.strip(chars)` and `str.replace`.
- **Dicts.** A Python dict is a history of assignments, `Dict(writes)`
  (`Dicts`):
  - the keys are the distinct keys written, in order of first assignment,
    which is the insertion order of a Python dict;
  - a lookup returns the last value written.

  A `dict` that the source changes in place is a `DataDict` object whose
  `items` the methods reassign.
- **Workbooks.**
  - An open workbook that is only read is a function from lookups to cell
    values, a `Sheet` (`Xlsx`).
  - The workbook written at the end is a `Workbook` object recording the
    requests made to it.
- **State-changing code.** Each Python function that changes state is a
  Dafny method, proved equal to a specification function. The lemmas are
  stated about those functions. For example:
  - `MailCalc.AddLoop` is proved equal to `MailCalc.Added`;
  - `MpsCalc.CheckForUpdates` is proved equal to `MpsCalc.Updates`.

## Behaviour modelled as the code has it

In several places the code does something narrower than its prompts and
messages suggest. The model follows the code:

- **Job count.** It is read with `.strip("Total Jobs: ")`, which strips a
  *set of characters* from both ends, not a prefix. An absent cell (`None`)
  has no `.strip` and raises `AttributeError`, which escapes. The handlers
  that record "Not Found" or "Error" on `TypeError` can never fire.
- **Statistics typed at the console.** `_get_user_input` catches only
  `TypeError`, which `float()` and `int()` on text never raise. Text that is
  not a number therefore ends the run with `ValueError` instead of
  re-prompting.
- **Meter balances.** The two balance "retry" loops in `_calculate_postage`
  never retry. A rejected entry still reaches `float()`, which raises
  `ValueError`.
- **Mail add loop.** The loop stops on any accepted entry whose value is 0,
  so `"00"` ends it as well as `"0"`.
- **Fleet search.** A regular-expression search that finds nothing makes
  `.group(2)` raise `AttributeError`, which is not caught. Only a `ValueError`
  from `int()` gives the `(0, 0)` pair.
- **Mail volumes.** Each mail volume is set to 0 before its add loop runs.
  A run that ends inside that loop leaves the key at 0.
- **MPS increments.**
  - A `+=` on an MPS key that is missing raises `KeyError`.
  - A `+=` on a value that is not a number raises `TypeError`.
  - When machines are added, "Equipment Adds" is updated before
    "Number of Ricoh Devices" fails, so the first update stays.
  - The adds count is asked for before any key is read. The moves count is
    added with `data["Equipment Moves"] += ...`, which reads the key before
    prompting, so a missing key raises `KeyError` with no line read.

## Model

| member | source | states |
|---|---|---|
| Prompt.Retry | compile-mor/modules/prodcalc.py:44-55 | a `while True` prompt either returns the converted value of the last line it read, or runs out of lines with EOFError having read them all |
| Prompt.RetrySkipsOnlyRejected | compile-mor/modules/mpscalc.py:30-37 | every line read before the accepted one was rejected by the conversion |
| Prompt.AskUntilAccepted | compile-mor/modules/mpscalc.py:49-55 | the read-try-read-again loop returns what `Retry` specifies |
| Prompt.ReadOnce | compile-mor/modules/prodcalc.py:150-155 | a prompt whose handler never fires reads exactly one line (none at end of input) |
| ProdCalc.VolumeWritesMembers | compile-mor/modules/prodcalc.py:18-29 | a meter figure is written exactly for each pair of a "machine" entry and a "total" column, under "{name} {column}", with the value looked up by serial number in the serials column from row 5 |
| ProdCalc.MachineWritesMembers | compile-mor/modules/prodcalc.py:21-29 | for one machine, exactly the "total" columns contribute, each with its looked-up value |
| ProdCalc.VolumeWritesEmpty | compile-mor/modules/prodcalc.py:18-23 | nothing is written if and only if no machine entry meets a total column |
| ProdCalc.SerialsIsNoTotal | compile-mor/modules/prodcalc.py:22 | the "serials" column never contributes |
| ProdCalc.NoContributionExtends | compile-mor/modules/prodcalc.py:19-23 | an entry that is not a machine, or a configuration with no total column, adds no figure |
| ProdCalc.ReadMachineVolumes | compile-mor/modules/prodcalc.py:21-29 | the inner loop writes one machine's figures, or raises KeyError before writing when the serials column is missing and a total column exists |
| ProdCalc.ReadProductionVolumes | compile-mor/modules/prodcalc.py:7-31 | `_read_production_volumes` leaves `data` as the volume specification says, with its KeyError case |
| ProdCalc.WasteEntry | compile-mor/modules/prodcalc.py:44-55 | an entry is accepted if and only if it is digits or "-" followed by digits; an accepted figure is never positive: digits d give -d, "-d" gives -d, "0" gives 0; empty text and anything else ("abc", "+5") are refused |
| ProdCalc.WasteExamples | compile-mor/modules/prodcalc.py:47-52 | "5" and "-5" give -5, and "0" gives 0 |
| ProdCalc.GetWasteInputFromUser | compile-mor/modules/prodcalc.py:34-55 | the waste prompt re-asks until an entry converts and returns a debit, or ends with EOFError |
| ProdCalc.AskEachWaste | compile-mor/modules/prodcalc.py:65-69 | the waste loop consumes no more lines than given |
| ProdCalc.AskEachWasteWrites | compile-mor/modules/prodcalc.py:65-69 | asking waste leaves every other key alone, and a completed run records each waste key as a debit |
| ProdCalc.AskEachWasteKeys | compile-mor/modules/prodcalc.py:65-69 | a completed waste run adds its keys after the existing ones, in order |
| ProdCalc.AskWastes | compile-mor/modules/prodcalc.py:65-69 | the waste loop changes `data` as `AskEachWaste` specifies |
| ProdCalc.GetWasteTotals | compile-mor/modules/prodcalc.py:58-69 | `_get_waste_totals` asks "Black and White Waste", then "Color Waste" |
| ProdCalc.PreviousMonth | compile-mor/modules/prodcalc.py:82-83 | the reporting month is in 1..12 and is exactly one calendar month before today |
| ProdCalc.ReportingMonthYear | compile-mor/modules/prodcalc.py:82-84 | the month returned is a calendar month name |
| ProdCalc.ReportingMonthYearCases | compile-mor/modules/prodcalc.py:82-84 | January gives ("December", year-1 + ".0"); any other month m gives (name of m-1, year + ".0") |
| ProdCalc.YearTexts | compile-mor/modules/prodcalc.py:84 | `str(year)` of 2023 and 2024 |
| ProdCalc.ReportingMonthYearExamples | compile-mor/modules/prodcalc.py:82-84 | January 2024 reports on ("December", "2023.0"); March 2024 on ("February", "2024.0") |
| ProdCalc.ReadStatsFile | compile-mor/modules/prodcalc.py:87-114 | a statistic is the cell for the reporting month and year times 100; an absent cell gives "Not Found"; text that is not a number raises ValueError |
| ProdCalc.ReadJobsFile | compile-mor/modules/prodcalc.py:117-136 | the job count is the cell stripped of the label's characters and converted to int; an absent cell raises AttributeError |
| ProdCalc.JobsStripExample | compile-mor/modules/prodcalc.py:132 | the strip is by character set: "Total Jobs: 42 Total" becomes "42" |
| ProdCalc.AsInt | compile-mor/modules/prodcalc.py:153 | `int()` of typed text gives an int when it gives anything |
| ProdCalc.UserInput | compile-mor/modules/prodcalc.py:139-155 | one line is read; bad text ends the run with ValueError rather than re-prompting |
| ProdCalc.GetUserInput | compile-mor/modules/prodcalc.py:139-155 | `_get_user_input` reads exactly one line and returns its float or int |
| ProdCalc.StatOrAsk | compile-mor/modules/prodcalc.py:178-187 | a statistic comes from its workbook when one is open (no line read), otherwise it is asked for as a float |
| ProdCalc.JobsOrAsk | compile-mor/modules/prodcalc.py:188-195 | with the jobs workbook open the count is read from it with no line read, otherwise it is asked for as an int; a recorded count is always an int, and TypeError is never raised |
| ProdCalc.AskEachStat | compile-mor/modules/prodcalc.py:174-187 | the statistics loop consumes no more lines than given |
| ProdCalc.ProductionStats | compile-mor/modules/prodcalc.py:158-195 | `_get_production_stats` consumes no more lines than given |
| ProdCalc.AskEachStatWrites | compile-mor/modules/prodcalc.py:174-187 | the statistics loop leaves every other key alone, and a completed run has recorded each of its keys |
| ProdCalc.StatsWrites | compile-mor/modules/prodcalc.py:174-195 | the statistics touch only "Job Accuracy", "Job Timeliness" and "Number of Jobs", and a completed run records all three |
| ProdCalc.StatsFromWorkbooks | compile-mor/modules/prodcalc.py:171-195 | with all three workbooks open, no console line is read |
| ProdCalc.AccuracyAskedOnce | compile-mor/modules/prodcalc.py:150-155 | without its workbook, accuracy is asked once; text that is not a number ends the run with ValueError after one line |
| ProdCalc.AccuracyFromWorkbook | compile-mor/modules/prodcalc.py:171-187 | with its workbook open, the recorded accuracy is the workbook's figure for the previous month |
| ProdCalc.JobsFromWorkbook | compile-mor/modules/prodcalc.py:188-193 | with the jobs workbook open, the recorded "Number of Jobs" is the count read from that workbook |
| ProdCalc.JobsAlwaysNumeric | compile-mor/modules/prodcalc.py:188-195 | "Number of Jobs" is never recorded as "Not Found" or "Error" |
| ProdCalc.ReadStats | compile-mor/modules/prodcalc.py:103-114 | reading a statistic returns what `ReadStatsFile` specifies |
| ProdCalc.ReadStatOrAsk | compile-mor/modules/prodcalc.py:178-187 | one loop iteration returns what `StatOrAsk` specifies |
| ProdCalc.AskEachStatIgnoresPeriod | compile-mor/modules/prodcalc.py:171-187 | without any workbook the reporting period makes no difference |
| ProdCalc.AskStats | compile-mor/modules/prodcalc.py:174-187 | the statistics loop changes `data` as `AskEachStat` specifies |
| ProdCalc.ReadJobsOrAsk | compile-mor/modules/prodcalc.py:189-193 | the job count is read or asked as `JobsOrAsk` specifies |
| ProdCalc.GetProductionStats | compile-mor/modules/prodcalc.py:158-195 | `_get_production_stats` changes `data` as `ProductionStats` specifies |
| ProdCalc.WasteThenStatsRecorded | compile-mor/modules/prodcalc.py:224-231 | after waste and statistics complete, both waste figures are debits, both statistics are recorded and the job count is an int |
| ProdCalc.ProductionTotalsRecorded | compile-mor/modules/prodcalc.py:198-231 | a completed production run holds both waste debits, both statistics and an int job count |
| ProdCalc.GetWasteThenStats | compile-mor/modules/prodcalc.py:224-231 | the waste questions and then the statistics change `data` as `WasteThenStats` specifies |
| ProdCalc.CalculateProductionTotals | compile-mor/modules/prodcalc.py:198-231 | volumes, then waste, then statistics, as `ProductionTotals` specifies |
| FleetCalc.DropCommas | compile-mor/modules/fleetcalc.py:60-61 | the reference for comma removal: no comma is left and nothing is added |
| FleetCalc.RemoveCommasDrops | compile-mor/modules/fleetcalc.py:60-61 | `.replace(",", "")` keeps every other character, in order |
| FleetCalc.DropCommasAppend | compile-mor/modules/fleetcalc.py:60-61 | comma removal distributes over concatenation |
| FleetCalc.DropCommasNone | compile-mor/modules/fleetcalc.py:60-61 | text without commas is unchanged |
| FleetCalc.DigitsValueAppend | compile-mor/modules/fleetcalc.py:62-63 | the value of joined digit strings is the first shifted by the length of the second, plus the second |
| FleetCalc.ParseIntDigits | compile-mor/modules/fleetcalc.py:62-63 | `int()` of digits is their decimal value |
| FleetCalc.DropSeparator | compile-mor/modules/fleetcalc.py:60-61 | removing a thousands separator joins the two digit groups |
| FleetCalc.ThousandsSeparator | compile-mor/modules/fleetcalc.py:60-63 | "a,bbb" reads back as a*1000 + bbb |
| FleetCalc.CommaExample | compile-mor/modules/fleetcalc.py:60-63 | "1,234" becomes 1234 |
| FleetCalc.VolumesFromText | compile-mor/modules/fleetcalc.py:43-66 | a missing capture raises AttributeError; otherwise both captures convert to the pair, or either failing gives (0, 0) |
| FleetCalc.AllOrNothing | compile-mor/modules/fleetcalc.py:59-66 | no partial pair: one capture failing to convert discards both |
| FleetCalc.AskPair | compile-mor/modules/fleetcalc.py:15-21 | manual entry returns only two consecutive lines that both convert, or ends with EOFError having read every line |
| FleetCalc.AskPairRestarts | compile-mor/modules/fleetcalc.py:15-21 | a good first figure followed by a bad second one is discarded and both are asked again |
| FleetCalc.AskPairSkips | compile-mor/modules/fleetcalc.py:17-21 | a bad first figure is skipped without asking the second |
| FleetCalc.GetTotalsFromUser | compile-mor/modules/fleetcalc.py:7-21 | `_get_totals_from_user` returns what `AskPair` specifies |
| FleetCalc.FoundVolumes | compile-mor/modules/fleetcalc.py:83-93 | an unreadable or empty page leaves (0, 0); otherwise the volumes come from the text |
| FleetCalc.FleetVolumes | compile-mor/modules/fleetcalc.py:83-96 | the user is asked exactly when both found volumes are zero; a pair with a non-zero figure is kept |
| FleetCalc.FleetTotalsWrites | compile-mor/modules/fleetcalc.py:69-100 | asking happens only when both found volumes are zero; a completed run adds exactly the two fleet keys and changes no other key; a failed run changes nothing |
| FleetCalc.FoundPairRecorded | compile-mor/modules/fleetcalc.py:95-99 | a found pair with a non-zero figure is recorded unchanged and nothing is asked |
| FleetCalc.CalculateFleetTotals | compile-mor/modules/fleetcalc.py:69-100 | `calculate_fleet_totals` changes `data` as `FleetTotals` specifies |
| MpsCalc.ReadMpsFromOutputFile | compile-mor/modules/mpscalc.py:4-11 | both device counts are read from column A/B from row 3 and recorded in order |
| MpsCalc.SetZeroStarts | compile-mor/modules/mpscalc.py:14-18 | "Equipment Adds" and "Equipment Moves" are set to 0 |
| MpsCalc.YesNo | compile-mor/modules/mpscalc.py:30-37 | an answer is accepted if and only if its first character, lower-cased, is y or n, and it means yes exactly for y |
| MpsCalc.YesNoExamples | compile-mor/modules/mpscalc.py:30-37 | "Yes" and "y" mean yes; "No" and "nope" mean no; "" and "maybe" are refused |
| MpsCalc.AskForChanges | compile-mor/modules/mpscalc.py:21-37 | the y/n prompt re-asks until an answer is accepted |
| MpsCalc.AskForNewNumbers | compile-mor/modules/mpscalc.py:40-55 | the count prompt re-asks until `int()` accepts; negative counts are accepted |
| MpsCalc.AddInt | compile-mor/modules/mpscalc.py:66-69 | `+=` adds to a number and raises TypeError on anything else |
| MpsCalc.Increment | compile-mor/modules/mpscalc.py:66-69 | `d[k] += n` updates only `k`; KeyError or TypeError leaves `d` unchanged |
| MpsCalc.AddedMachines | compile-mor/modules/mpscalc.py:64-67 | the "added" branch consumes no more lines than given |
| MpsCalc.MovedMachines | compile-mor/modules/mpscalc.py:68-69 | the "moved" branch consumes no more lines than given; with no "Equipment Moves" key it raises KeyError before prompting, reading no line |
| MpsCalc.Changes | compile-mor/modules/mpscalc.py:62-69 | the update step after both answers consumes no more lines than given |
| MpsCalc.Answers | compile-mor/modules/mpscalc.py:58-59 | "added?" is asked first and its answer is the first accepted line; the "moved?" answer is the last line read, at least two lines in; a question left unanswered raises EOFError after every line is read |
| MpsCalc.Updates | compile-mor/modules/mpscalc.py:58-69 | `_check_for_updates` consumes no more lines than given |
| MpsCalc.IncrementFrame | compile-mor/modules/mpscalc.py:66-69 | an increment changes only its own key and adds no key |
| MpsCalc.ChangesFrame | compile-mor/modules/mpscalc.py:62-69 | the update step keeps the key list and changes only the adds, the moves and the Ricoh count |
| MpsCalc.UpdatesFrame | compile-mor/modules/mpscalc.py:58-69 | `_check_for_updates` never adds a key and never changes "Number of Non-Networked Devices" |
| MpsCalc.NoChangesNoUpdates | compile-mor/modules/mpscalc.py:58-61 | two "no" answers, however many re-prompts they took, leave the figures exactly as they were |
| MpsCalc.NoChangesAfterRetry | compile-mor/modules/mpscalc.py:21-37 | a refused answer is asked again: "maybe", "n", "no" gives two "no" answers on three lines |
| MpsCalc.AddedTracksDevices | compile-mor/modules/mpscalc.py:64-67 | the "added" branch adds the count typed to both the adds and the Ricoh count and leaves the moves alone; with numeric counts it can fail only by running out of input |
| MpsCalc.MovedTracksMoves | compile-mor/modules/mpscalc.py:68-69 | the "moved" branch adds the count typed to the moves and leaves the adds and the Ricoh count alone; with a numeric moves value it can fail only by running out of input |
| MpsCalc.ChangesTrackDevices | compile-mor/modules/mpscalc.py:62-69 | from the zero starts, a completed update step holds the count typed at the adds prompt in the adds and the count typed next at the moves prompt in the moves (0 for a "no"), and the Ricoh count is the carried count plus the adds; it fails only with EOFError |
| MpsCalc.ZeroStartsLookup | compile-mor/modules/mpscalc.py:14-18 | the zero starts set the adds and the moves to 0 and leave every other key alone |
| MpsCalc.UpdatesTrackDevices | compile-mor/modules/mpscalc.py:58-69 | from the zero starts, a completed update records exactly the counts typed after the two answers, as `ChangesTrackDevices` states; it fails only with EOFError |
| MpsCalc.AddsTrackDevices | compile-mor/modules/mpscalc.py:72-81 | after the zero starts, a completed update records the adds and the moves typed, and the Ricoh count read from the workbook grows by exactly the adds; it can fail only by running out of input |
| MpsCalc.MpsTotalsRecorded | compile-mor/modules/mpscalc.py:72-81 | a completed run holds the four MPS keys after the existing ones, and the non-networked count as read |
| MpsCalc.IncrementKey | compile-mor/modules/mpscalc.py:66-69 | `data[k] += n` changes `data` as `Increment` specifies |
| MpsCalc.AddMachines | compile-mor/modules/mpscalc.py:64-67 | the "added" branch changes `data` as `AddedMachines` specifies |
| MpsCalc.MoveMachines | compile-mor/modules/mpscalc.py:68-69 | `data["Equipment Moves"] += count` reads the key before prompting, then changes `data` as `MovedMachines` specifies |
| MpsCalc.ApplyChanges | compile-mor/modules/mpscalc.py:62-69 | the update step changes `data` as `Changes` specifies |
| MpsCalc.CheckForUpdates | compile-mor/modules/mpscalc.py:58-69 | `_check_for_updates` changes `data` as `Updates` specifies |
| MpsCalc.CalculateMpsTotals | compile-mor/modules/mpscalc.py:72-81 | read, zero starts, then updates, as `MpsTotals` specifies |
| MailCalc.Accepted | compile-mor/modules/mailcalc.py:11-14 | the accepted entries are no more than the lines read |
| MailCalc.Added | compile-mor/modules/mailcalc.py:1-16 | the add loop consumes no more lines than given and fails only with EOFError after reading them all |
| MailCalc.SumCons | compile-mor/modules/mailcalc.py:16 | `sum` of a list is its head plus the sum of its tail |
| MailCalc.AddedIsSumOfAccepted | compile-mor/modules/mailcalc.py:6-16 | a completed add loop returns the sum of the numeric entries it read, non-numeric entries counting for nothing |
| MailCalc.AddedStopsAtFirstZero | compile-mor/modules/mailcalc.py:6-16 | a completed add loop stops at the first numeric entry equal to 0: the last line read is 0 and no earlier numeric entry is |
| MailCalc.AddedSkips | compile-mor/modules/mailcalc.py:11-13 | an entry that is not numeric is skipped and the total is unchanged |
| MailCalc.AddedStops | compile-mor/modules/mailcalc.py:9-14 | an accepted 0 ends the loop |
| MailCalc.AddedAdds | compile-mor/modules/mailcalc.py:9-14 | an accepted non-zero entry is added and the loop goes on |
| MailCalc.AddedSumExample | compile-mor/modules/mailcalc.py:6-16 | 3, 4, 0 gives 7 |
| MailCalc.AddedZeroExample | compile-mor/modules/mailcalc.py:6-16 | a first entry of 0 gives 0 |
| MailCalc.AddedRejectsExample | compile-mor/modules/mailcalc.py:11-13 | "-2", "1.5" and "" are skipped |
| MailCalc.AddLoop | compile-mor/modules/mailcalc.py:1-16 | `_add_loop` returns what `Added` specifies |
| MailCalc.Balance | compile-mor/modules/mailcalc.py:43-47 | a balance prompt reads at most one line; a rejected entry raises ValueError |
| MailCalc.ReadBalance | compile-mor/modules/mailcalc.py:43-47 | the balance loop returns what `Balance` specifies |
| MailCalc.PostageFrom | compile-mor/modules/mailcalc.py:49-58 | the part after the starting balance consumes no more lines than given |
| MailCalc.Postage | compile-mor/modules/mailcalc.py:32-58 | `_calculate_postage` consumes no more lines than given |
| MailCalc.PostageSpend | compile-mor/modules/mailcalc.py:58 | "Postage Spend" is the starting balance plus the postage added, less the ending balance |
| MailCalc.PostageFromSpend | compile-mor/modules/mailcalc.py:49-58 | the same, once the starting balance is read |
| MailCalc.AddedPrefix | compile-mor/modules/mailcalc.py:9-14 | the add loop reads nothing after its terminating 0 |
| MailCalc.PostageWrites | compile-mor/modules/mailcalc.py:32-58 | the postage step writes only "Postage Spend", as a float, and a failed step writes nothing |
| MailCalc.BalanceNeverRetries | compile-mor/modules/mailcalc.py:43-47 | a starting balance that is not a number ends the run at once with ValueError |
| MailCalc.CalculatePostageFrom | compile-mor/modules/mailcalc.py:49-58 | changes `data` as `PostageFrom` specifies |
| MailCalc.CalculatePostage | compile-mor/modules/mailcalc.py:32-58 | `_calculate_postage` changes `data` as `Postage` specifies |
| MailCalc.AddOne | compile-mor/modules/mailcalc.py:75-76 | one mail type consumes no more lines than given |
| MailCalc.AddEach | compile-mor/modules/mailcalc.py:67-76 | the mail-type loop consumes no more lines than given |
| MailCalc.AddOneWrites | compile-mor/modules/mailcalc.py:75-76 | one mail type changes only its own key and keeps the key order |
| MailCalc.AddOneSum | compile-mor/modules/mailcalc.py:75-76 | the mail type's key holds the sum its add loop returns, or 0 when that loop runs out of input |
| MailCalc.AddEachWrites | compile-mor/modules/mailcalc.py:67-76 | keys that are not mail types are unchanged, and a completed run leaves a whole number under each mail type |
| MailCalc.AddEachSums | compile-mor/modules/mailcalc.py:67-76 | each mail type gets its own add loop, run one after the other: the run completes exactly when every loop does, reads the lines they read, and each mail type holds the sum of its own loop |
| MailCalc.Sums | compile-mor/modules/mailcalc.py:67-76 | successive add loops, one per mail type: when all complete there is one sum per loop, and together they read no more lines than given |
| MailCalc.AddEachKeys | compile-mor/modules/mailcalc.py:67-76 | the mail types are added after the existing keys, in listed order |
| MailCalc.AddOneVolume | compile-mor/modules/mailcalc.py:75-76 | changes `data` as `AddOne` specifies |
| MailCalc.AddVolumes | compile-mor/modules/mailcalc.py:67-76 | the loop changes `data` as `AddEach` specifies |
| MailCalc.GetMailVolumesInput | compile-mor/modules/mailcalc.py:61-76 | `_get_mail_volumes_input` changes `data` as `MailVolumes` specifies |
| MailCalc.MailTotalsRecorded | compile-mor/modules/mailcalc.py:79-84 | a completed run holds the postage spend as a float and the five volumes as whole numbers, adds no other key and changes no other key |
| MailCalc.CalculateMailTotals | compile-mor/modules/mailcalc.py:79-84 | postage, then volumes, as `MailTotals` specifies |
| Totals.CompileTotalsKeys | compile-mor/main.py:58-59 | the merged keys are the union of the four domains' keys, in order of first appearance across mail, fleet, MPS, production |
| Totals.CompileTotalsLookup | compile-mor/main.py:58-59 | last writer wins, in the order mail, fleet, MPS, production |
| Totals.CompileTotalsDisjoint | compile-mor/main.py:58-59 | a key that no later domain has keeps the value of the domain that has it, for each of production, MPS, fleet and mail |
| Totals.CompileTotalsEmpty | compile-mor/main.py:58-59 | four empty domains merge to an empty mapping |
| FileOutput.WriteRequests | compile-mor/modules/fileoutput.py:17-34 | the first request writes the date to "Date Compiled" (F to G, row 3); then each key once, in order, with its value (A to B, row 3); then exactly one save, last |
| FileOutput.EachKeyWrittenOnce | compile-mor/modules/fileoutput.py:25-32 | no key is written twice |
| FileOutput.WriteOutputFile | compile-mor/modules/fileoutput.py:8-34 | the workbook receives exactly the requests `WriteRequests` lists |
| FileOutput.LogEntry | compile-mor/modules/fileoutput.py:47-49 | the appended block is the date, a newline, the formatted mapping, then a blank line |
| FileOutput.OutputPy | compile-mor/modules/fileoutput.py:37-49 | the log only grows: the old contents are a prefix, followed by the block |
| DropFile.CleanCharacters | compile-mor/utils/dropfile.py:22-35 | the cleaned path is never longer than the dropped one |
| DropFile.StripStep | compile-mor/utils/dropfile.py:32 | the strip step gives a slice of the input with no space, `&`, `'` or `"` at either end |
| DropFile.CleanUnchanged | compile-mor/utils/dropfile.py:32-34 | a path with no edge character, no backslash-space and no `''` is returned unchanged |
| DropFile.StripExample | compile-mor/utils/dropfile.py:32 | the quotes and the trailing space of a dragged path are cut |
| DropFile.UnescapeExample | compile-mor/utils/dropfile.py:33 | a backslash-space becomes a space |
| DropFile.NoDoubledQuoteExample | compile-mor/utils/dropfile.py:34 | without a doubled quote the last step changes nothing |
| DropFile.CleanExample | compile-mor/utils/dropfile.py:22-35 | `'My\ Docs' ` is cleaned to `My Docs` |

## Left out

- **PDF reading and regular expressions.** Reading the PDF and searching it
  with regular expressions (compile-mor/modules/fleetcalc.py:24-40, 57-61) is
  foreign library code. The page text and each expression's group-2 capture
  are inputs, and `None` stands for no text or no match.
- **Workbook internals.** `classes/xlclass.py` is not part of this model. Its
  lookups are uninterpreted functions, and its writes and save are a
  recorded trace.
- **Floating point.** Floats are `real`: no rounding is modelled. This
  covers meter balances, postage spend and the ×100 statistics scaling.
- **Python conversions.** `int()`, `float()` and `isnumeric()` are ASCII
  digit parsers. `int()` and `float()` accept an optional leading `-`, and
  `float()` accepts one decimal point. Surrounding whitespace, underscores,
  exponents, `inf`/`nan` and Unicode digits are not modelled.
- **Case and characters.** Lower-casing is ASCII only.
- **Console text.** Console prompts and printed messages are not modelled.
  Console input is a list of lines.
- **Configuration, files and console glue.** Configuration loading, file
  discovery, path checks, the first-run message, screen clearing, opening
  the output file, and `get_dropped_file` are I/O around the core.
- **Orchestration.** The `__main__` block of main.py and its `calculate_*`
  wrappers only forward arguments.
- **Log formatting.** `pformat` is a parameter (`Dict -> string`); what it
  prints is not modelled.
- **Python's dict representation.** A dict is the history of its
  assignments. Two histories with the same keys in the same order and the
  same last values stand for the same Python dict.
- **Missing configuration keys.** The production configuration is typed: each
  machine entry has a name and a serial number. The KeyError that
  compile-mor/modules/prodcalc.py:20-27 raises for a missing "meter columns",
  "name" or "serial number" key is not modelled. The KeyError for a missing
  "serials" column is modelled.
- **Today's date.** The date of a run is a parameter (`ProdCalc.Date`), not
  read from a clock.
- Totals.CompileTotals: that the four domain mappings are not modified needs
  no lemma, because the model is a pure function.
- ProdCalc.ReadStatsFile: the ×100 is exact on `real`, not IEEE rounding.
- MailCalc.PostageSpend: the spend is exact on `real`, not IEEE rounding.
