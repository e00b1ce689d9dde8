# gocachelogstat, modelled in Dafny

gocachelogstat reads the log of the Go build cache and prints how much of the
cache gets reused and how long after creation. Every log line is a timestamp,
an event kind and keys. A `put` line registers an action record (154 bytes
each) and the data blob it points to. The first write of a key wins. A `get` or
`miss` line credits the first reuse of the action record and of its data blob,
and records for each how many seconds after creation it was reused. One
malformed line aborts the whole run. At the end both latency lists are sorted.
For each cache (action, data) the tool then prints its byte totals and the
latencies at the 10th to 90th, 95th, 99th and 99.9th percentile, plus the
maximum.

The project is organised as follows:

- `wrappers.dfy`: the `Option` and `Result` datatypes.
- `decimal.dfy`: the contract of `strconv.ParseInt(s, 10, 64)`: an optional
  sign, at least one decimal digit, and the signed 64-bit range.
- `tokens.dfy`: `bytes.Split` on newlines and `strings.Fields`, which splits
  on Go's `unicode.IsSpace` characters.
- `cachelog.dfy`: the `entry` record, the registry (one map from
  `<id>-a`/`<id>-d` keys to entries) and the scan.
  - `Step` and `Run` are the meaning of one line and of a whole log.
  - `Put` and `Reuse` are the two kinds of event.
  - The class `Scanner` holds the tool's local accumulators and updates them
    in place.
  - `ScanLog` is the scan loop, proved to compute `Run`.
  - An action's pointer to its data entry is modelled as the data entry's key.
    This is faithful because no entry is ever replaced or removed.
- `accounting.dfy`: the invariant that holds after every accepted line.
  - Each of the four byte totals is the sum of sizes over the matching
    (reused) entries of one role.
  - Action entries weigh 154 bytes, and every action links to a data entry.
  - The two sample lists have equal length.
- `logfacts.dfy`: what a scanned log means, stated from the log alone.
  - Which line stops the scan.
  - The time range.
  - The registry: the keys the `put` lines name, each entry as its first `put`
    made it, marked reused exactly when some line reused it.
  - The sample lists, in log order.
- `report.dfy`: `sort.Ints` (an in-place insertion sort proved to give the
  unique sorted permutation), the percentile index arithmetic of `printCache`,
  the summary, and the tool end to end (`Analyze`).
- `scenarios.dfy`: three small logs worked through the model.

## Model

| member | source | states |
|---|---|---|
| Decimal.ParseInt | main.go:68-71 | An accepted timestamp or size is within the signed 64-bit range. It is a sign followed by at least one digit, or digits only; anything else is an error. |
| Decimal.ParseFormatInt | main.go:68 | Every 64-bit integer written in decimal parses back to itself. |
| Decimal.ParseIntNeedsDigit | main.go:68 | A bare sign, or a sign followed by a non-digit, is an error. |
| Tokens.Fields | main.go:61 | Every field `strings.Fields` returns is non-empty and free of white space. |
| Tokens.FieldsOfJoin | main.go:61 | Splitting space-joined fields gives back exactly those fields. |
| Tokens.FieldsKeepText | main.go:61 | The fields concatenated are exactly the line's non-space characters, in order. |
| Tokens.SplitLines | main.go:60 | `bytes.Split` always yields at least one piece. |
| Tokens.SplitLinesNoNewline | main.go:60 | No piece contains a newline. |
| Tokens.JoinSplitLines | main.go:60 | Joining the pieces with newlines restores the text. |
| Tokens.SplitJoinLines | main.go:60 | Splitting newline-joined, newline-free lines gives back those lines. |
| Tokens.TokenizeOfJoin | main.go:60-61 | Splitting into lines and then into fields inverts writing field lists one per line: a log made of well-formed field lists tokenises back to exactly those lists. |
| CacheLog.Key | main.go:82-101 | A registry key carries its id as a prefix. It is an action key exactly for role `Action` and a data key exactly for role `Data`. |
| CacheLog.Put | main.go:77-98 | First write wins. Existing entries and their totals are unchanged. The data key and the action key are added. A new data entry holds the line's time and size. A new action entry weighs 154 bytes and links to the data key, whether that entry is new or existed. Reuse totals, samples and times are unchanged. The registry stays linked. |
| CacheLog.Reuse | main.go:100-114 | The `get`/`miss` branch. The registry keys are unchanged. Each sample list grows by one latency when the action is known and stays the same when it is not. `CacheLog.ReuseFacts` states the rest. |
| CacheLog.ReuseFacts | main.go:100-115 | A reuse of an unknown action changes nothing. Otherwise the action entry and its linked data entry are marked reused. Each sample list grows by `t - created` of its entry. All other entries, the byte totals and the times are unchanged. Keys are unchanged, entries only grow, and the registry stays linked. |
| CacheLog.Step | main.go:61-115 | A line fails exactly when it is not well formed: not empty, and either fewer than 3 fields, a `put` without exactly 5 fields, a bad time, or a bad `put` size. An accepted line keeps the registry linked. |
| CacheLog.Run | main.go:60-116 | A successful scan ends with a linked registry. A failed scan names a line of the log. |
| CacheLog.RunStopsAt | main.go:65-81 | Once a prefix of the log fails, the whole log fails with the same error. |
| CacheLog.RunExtend | main.go:60-116 | Scanning one more line: that line's outcome decides the longer prefix's outcome. |
| CacheLog.Scanner.constructor | main.go:55-59 | The accumulators start at zero and empty. |
| CacheLog.Scanner.PutEntry | main.go:82-98 | The in-place `put` branch leaves the accumulators equal to `Put` of their old value. |
| CacheLog.Scanner.ReuseEntry | main.go:101-114 | The in-place `get`/`miss` branch leaves the accumulators equal to `Reuse` of their old value. |
| CacheLog.Scanner.Line | main.go:61-115 | One loop iteration reports a fault exactly when `Step` fails, with the same fault. Otherwise the accumulators become `Step`'s result. |
| CacheLog.ScanLog | main.go:55-116 | The scan loop returns exactly `Run` of the log: the first fault with its line index, or the final accumulators. |
| Accounting.PutConsistent | main.go:82-98 | A `put` preserves the accounting invariant. |
| Accounting.ReuseConsistent | main.go:100-114 | A `get`/`miss` preserves the accounting invariant. Credit is given only on the false-to-true change of `reused`. |
| Accounting.StepConsistent | main.go:61-115 | Every accepted line preserves the accounting invariant. |
| Accounting.RunConsistent | main.go:55-116 | After any successful scan, every action links to a data entry. Action entries weigh 154 bytes. `totalA`, `totalD`, `totalReusedA` and `totalReusedD` are the size sums over the action, data, reused-action and reused-data entries. The sample lists have equal length. |
| Accounting.ActionTotalsCount | main.go:94-97 | `totalA` is 154 times the number of action entries. `totalReusedA` is 154 times the number of reused ones. It lies between 0 and `totalA`. |
| LogFacts.RunFailsAtFirstBadLine | main.go:62-81 | The scan succeeds exactly when every line is well formed. Otherwise the error names the first malformed line. |
| LogFacts.StepFaults | main.go:65-81 | The complaint a bad line draws: field count first, then timestamp, then `put` size. |
| LogFacts.StepTimes | main.go:62-75 | An empty line changes nothing. Any other accepted line sets `lastTime` to its time. It sets `firstTime` only while that is 0. |
| LogFacts.RunTimeRange | main.go:72-75 | After a scan, `lastTime` is the time of the last non-empty line, and `firstTime` is the time of the first non-empty line with a non-zero time. Both are 0 if there is no such line. |
| LogFacts.StepOnlyTimes | main.go:62-104 | An unknown kind and a reuse of a never-put action change only the time range. |
| LogFacts.ReuseCreditedOnce | main.go:105-114 | A second reuse of the same action credits no more bytes and leaves the registry alone, yet each sample list still grows by one latency per reuse. |
| LogFacts.StepGrows | main.go:82-112 | No line removes or replaces an entry, and a reused flag, once set, stays set. |
| LogFacts.RunGrows | main.go:60-116 | Every entry some prefix of the log registers is still there at the end, with the same time, size and link, and stays reused once reused. |
| LogFacts.EverHitNeedsPut | main.go:101-104 | An entry can be reused only if some earlier `put` created it. |
| LogFacts.StepExplained | main.go:61-115 | One accepted line keeps the scan state equal to the log's description: keys, entries, reused flags and samples. |
| LogFacts.RunExplained | main.go:55-116 | A successful scan's registry holds exactly the keys the `put` lines name. Each entry is the one its first `put` made, reused exactly when a later line hit it. The sample lists are the reuse latencies in log order. |
| Report.Sorted | main.go:118-119 | The result is ascending and a permutation of the samples. |
| Report.SortedUnique | main.go:118-119 | Two ascending permutations of the same samples are equal, so the order `sort.Ints` produces is unique. |
| Report.SortInts | main.go:118-119 | Sorting in place leaves the slice as the ascending permutation of its old contents. |
| Report.SortSamples | main.go:118-119 | The sorted copy is the ascending permutation of the samples. |
| Report.PercentilesValid | main.go:136-142 | Every listed percentile is a fraction with a positive denominator, below 100%. |
| Report.PercentilesAscend | main.go:136-142 | The listed percentiles ascend. |
| Report.SampleIndex | main.go:137-142 | `n * p` is rounded down. For a non-empty list and a percentile below 100%, the index is in range. |
| Report.IndexMonotone | main.go:136-142 | A larger percentile never selects an earlier index. |
| Report.Summarize | main.go:132-143 | An empty list takes the "no reuse" branch, and only an empty list does. Otherwise there are 12 percentile values and a maximum, each taken from the samples. |
| Report.SummaryOrdered | main.go:136-143 | On sorted samples the reported values ascend, and the reported maximum is the largest sample. |
| Report.SummaryRanks | main.go:136-142 | Each reported value is a true percentile. More than the fraction p of the samples are at most that value, and at most the fraction p are below it. |
| Report.SummaryOfSamples | main.go:118-143 | Summarizing the sorted latencies reports "no reuse" exactly when there are none. Otherwise every reported value is one of the latencies, and the reported maximum is the largest latency. |
| Report.ReportOf | main.go:118-127 | The report of a finished scan. The age is `lastTime - firstTime`. Each cache carries its byte total and reused total. Its summary describes its own latency list in the sense of `Report.SummaryOfSamples`. |
| Report.PrintCache | main.go:130-145 | The percentile loop over 10%–90%, then 95%, 99%, 99.9% and the maximum, yields the summary of the samples. |
| Report.Summaries | main.go:118-127 | Sorting both lists and summarising each cache gives the report of the final scan state. |
| Report.Analyze | main.go:55-127 | End to end: a failed scan reports only its error. A successful one reports the age, totals and summaries of `Run` of the tokenised log. |
| Scenarios.PutThenTwoGets | main.go:77-114 | One `put` and two `get`s: totals 154/500, both credited once, samples [10, 20], time range 1000–1020. |
| Scenarios.OrphanGet | main.go:100-104 | A lone `get` of an unknown action leaves everything empty but the time range. |
| Scenarios.PutWithoutSize | main.go:65-66 | A `put` with four fields aborts at its line with the field-count complaint. |

## Left out

- Asking `go env GOCACHE` for the cache directory and its three error cases (main.go:38-48): a subprocess call into the environment.
- Reading `log.txt` (main.go:50-53): file I/O. The model starts from the log's text (`Analyze`) or from its tokenised lines (`ScanLog`).
- All printed text: the banner, the fences and the report lines (main.go:121-143), and the `log.Fatalf` messages for a bad line, time or size (main.go:66, 70, 80). A fatal line is a `ScanError` holding the line's index and the kind of complaint, not the printed line.
- The conversion to days, `float64(...)/86400` (main.go:125, 138-143): floating point. `Report.age` and the summaries hold integer seconds.
- Go's silent int64 wrap-around in the four accumulators and in `t - created` (main.go:88, 97, 107, 111, 113-114): the model uses unbounded integers.
- The algorithm inside `sort.Ints`: the model sorts by insertion. `Report.SortedUnique` shows that any sort yields the same result.
- Decoding the log's bytes as UTF-8 before `strings.Fields` (main.go:61): the model takes the log as a sequence of characters. Splitting uses Go's full `unicode.IsSpace` set, not only ASCII space, tab and carriage return, because that is what `strings.Fields` does.
- `firstTime` follows the code, not the simple description "the first non-empty line's time". The tool sets `firstTime` only while it is 0. A first line stamped 0 therefore leaves it unset, and the next line with a non-zero time sets it (`LogFacts.RunTimeRange`).
