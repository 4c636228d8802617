# Flower dashboard core, modelled in Dafny

This project models the logic of `dashboard/app.py`, the FastAPI dashboard of
the Flower-on-OpenNebula appliance. The dashboard has three parts.

- **Log parser** (`RunParser`, on top of `Patterns`, `Scans` and `Text`).
  `collect_training_logs` splits the SuperLink container log into lines and
  runs several left-to-right passes over them:
  - run id and `num_rounds=` (the last match wins);
  - the per-round table, with its `current_round` cursor;
  - the loss/accuracy history, with its two section flags;
  - sorting and counting of the rounds;
  - completion, using a `for ... else`;
  - the model-information lookup.

  `collect_connected_nodes` counts the distinct `[Fleet.PullMessages] node_id=` ids.
  - Each pass is a fold over the lines, and a method runs the Python loop of dashboard/app.py and is proved to compute that fold.
  - Every regular expression is a list of pieces: literal text, `(\d+)`, `([\d.]+)` and `c?`.
  - A greedy matcher (`Patterns.MatchAt`) and a search (`Patterns.Search`) stand in for `re.search`. The matcher is proved to agree with the backtracking meaning of the same expression.
- **Inventory** (`Inventory`, `Dashboard`, `FrameworkScan`).
  - `collect_nodes` maps the decoded `onevm list -j` document to `NodeInfo` records. It handles:
    - the keyword filter;
    - the role rule;
    - the LCM state table;
    - the dict-or-list normalisation of `VM` and `NIC`.
  - `collect_container_info` updates a `NodeInfo` object in place from the `docker inspect` answer.
  - `get_cluster_state` enriches every node and selects the SuperLink address and the framework. Both loops are modelled; the last qualifying node wins.
  - `get_frameworks` scans the running SuperNodes until the first one reveals its framework.
- **Training controller** (`Training`).
  - The globals `_active_training` and `_last_completed` become the fields of a `TrainingController` class. Its methods are `Start`, `Status`, `Stop` and one pass of the log stream (`StreamPoll`).
  - The subprocess is a `Process` value: `Alive` or `Exited(code)`.
  - The reader thread is an explicit `Append` to an `OutputLines` buffer that keeps the newest 500 lines.
  - The `--run-config` string is built by a loop that is proved equal to a function. That function reads back as the settings it was built from, whenever the strategy has no space and every extra setting is plain: its key has no `=` or space and its value has no space.

What the code does, and so what the model does:
- `collect_training_logs` parses the whole container log, including earlier runs;
- the run id and `num_rounds_configured` come from the *last* `Starting run` and `num_rounds=` lines;
- there is no reset endpoint;
- nothing watches the run once its subprocess exits; the next status request records it;
- `start_training` launches the run directly in the framework's directory.

Quirks of the code are kept as written:
- **The unused `node_ids` set.** It is still computed over `lines[-200:]` (`RunParser.ScanNodeIds` inside `RunParser.CollectTrainingLogs`) and never used.
- **The connected-node count uses the stricter pattern.** It is taken from `[Fleet.PullMessages] node_id=` only.
- **The stream cursor stalls.** `seen` is compared with the length of a `deque(maxlen=500)`. Once the deque is full, later lines are never streamed (`Training.StreamStallsWhenFull`).

## Model

| member | source | states |
|---|---|---|
| Patterns.MatchAtIsRegexMatch | dashboard/app.py:289 | For every pattern of the dashboard's kind, the greedy matcher succeeds at a position exactly when the regular expression matches there, and its captures are ones the regular expression allows |
| Patterns.MatchAtSound | dashboard/app.py:289 | Whatever the greedy matcher returns is a backtracking match of the regular expression |
| Patterns.MatchAtComplete | dashboard/app.py:289 | Wherever the regular expression matches a well-formed pattern, the greedy matcher succeeds |
| Patterns.Search | dashboard/app.py:289 | `re.search`: the result is the match at the leftmost position where the pattern matches, or no match when it matches nowhere |
| Patterns.MatchRendered | dashboard/app.py:289 | On the text a pattern describes, followed by anything that cannot extend a final run, the matcher reads back exactly the captures |
| Patterns.SearchRendered | dashboard/app.py:289 | A search finds the described text after any prefix free of the pattern's first character |
| Patterns.PatternsWellFormed | dashboard/app.py:289-383 | All nine patterns of the dashboard are well formed, so the greedy matcher decides each of them exactly |
| RunParser.RunIdLine | dashboard/app.py:288-291 | A `Starting run <digits>` line yields those digits as the run id, whenever the text before it has no `S` and the text after it does not start with a digit or `.` |
| RunParser.RoundMarkerLine | dashboard/app.py:304 | A `[ROUND n]` line yields round n, whenever the text before it has no `[` |
| RunParser.AggregateLine | dashboard/app.py:311-320 | `aggregate_fit: received c results and f failures` (or `aggregate_evaluate`) yields the pair (c, f), whenever the text before it does not contain the head's first character |
| RunParser.HistoryLine | dashboard/app.py:335-337 | A `round n: v` line, with v a non-empty run of digits and dots, yields round n and the value text v, whenever the text before it has no `r` and the text after it does not start with a digit or `.` |
| RunParser.MarkerStep | dashboard/app.py:303-307 | A `[ROUND n]` line moves the cursor to n and creates round n only if it is absent; every other round is unchanged; a line without a marker changes nothing |
| RunParser.AggregateStep | dashboard/app.py:310-320 | An aggregate line overwrites the (clients, failures) pair of the current round only when that round exists; keys, cursor and other rounds are unchanged |
| RunParser.RoundStep | dashboard/app.py:300-320 | One line of the rounds pass adds at most the round its marker names and moves the cursor to it |
| RunParser.RecordValue | dashboard/app.py:337-343 | A history value creates round n if missing, sets its loss (or accuracy), keeps the other value and all counts, and leaves other rounds alone |
| RunParser.HistoryStep | dashboard/app.py:323-343 | A loss header sets loss on and accuracy off, a metrics/accuracy header the reverse, both skipping the line; a value line counts only inside a section |
| RunParser.RoundKeysAreMarkers | dashboard/app.py:300-320 | After the rounds pass, the table holds exactly the round numbers announced by a `[ROUND n]` line |
| RunParser.NoMarkerNoRounds | dashboard/app.py:310-320 | Without any marker the table stays empty, so aggregate lines before any marker change nothing |
| RunParser.CursorIsLastMarker | dashboard/app.py:302-305 | The cursor is the number of the last `[ROUND n]` line, or 0 |
| RunParser.SectionsExclusive | dashboard/app.py:323-332 | The loss and accuracy flags are never both set |
| RunParser.NoHeaderNoHistory | dashboard/app.py:323-344 | Without a `History (...)` header the history pass changes nothing |
| RunParser.HistoryKeeps | dashboard/app.py:323-344 | The history pass keeps every round, adds only rounds named by a value line, and changes no client or failure count |
| RunParser.SortedRounds | dashboard/app.py:346 | The rounds come out in strictly increasing round order, each table entry exactly once |
| RunParser.HistoryKeys | dashboard/app.py:323-344 | The history pass adds exactly the rounds named by a `round n: v` line that is not a header and is read while a loss or accuracy section is open |
| RunParser.FlagsIgnoreTable | dashboard/app.py:323-332 | The section flags after any prefix do not depend on the rounds table the pass started from |
| RunParser.RoundTableKeys | dashboard/app.py:300-344 | The final table holds exactly the round numbers named by a `[ROUND n]` line or by a history value line inside a section |
| RunParser.RoundsOutput | dashboard/app.py:346-347 | The output rounds are strictly increasing, and a round number is among them exactly when a marker or a history value line inside a section names it; `num_rounds_completed` is their number, so it counts the distinct rounds seen, whatever `num_rounds` was configured |
| RunParser.ParseRunInfo | dashboard/app.py:274-371 | `collect_training_logs`: the default record without an address or a readable log; otherwise strictly increasing rounds counted by `num_rounds_completed` (further pinned down by RoundsOutput, StatusFromFinishLine, RunIdIsLastMention, NumRoundsIsLastMention and ParseErrorsAndModelInfo) |
| RunParser.ConnectedNodes | dashboard/app.py:374-386 | `collect_connected_nodes`: 0 without an address or a readable log, and never more than the number of lines (the ids themselves by IdSet and ConnectedNodesCount) |
| RunParser.FirstFinished | dashboard/app.py:350-351 | The index of the first `Run finished` line, or none when no line has it |
| RunParser.StatusFromFinishLine | dashboard/app.py:350-359 | Completed iff some line has `Run finished`; else running iff a run id was found, else idle; never failed; the duration comes only from the first such line and is absent without one |
| RunParser.RunIdIsLastMention | dashboard/app.py:288-291 | The run id is that of the last `Starting run` line, or "" when there is none |
| RunParser.NumRoundsIsLastMention | dashboard/app.py:294-297 | `num_rounds_configured` is that of the last `num_rounds=` line, or 0 |
| RunParser.ParseErrorsAndModelInfo | dashboard/app.py:278-369 | An empty address or a failed `docker logs` gives the default record with no model information; otherwise the framework's entry of `MODEL_INFO`, or the PyTorch one for an unknown framework |
| RunParser.IdSet | dashboard/app.py:381-385 | The ids collected are exactly those some line carries, and there are no more of them than lines |
| RunParser.ConnectedNodesCount | dashboard/app.py:374-386 | 0 without an address or a readable log; otherwise at most the number of lines, and 0 when no line has a `[Fleet.PullMessages] node_id=` id |
| RunParser.CollectTrainingLogs | dashboard/app.py:274-371 | The imperative passes (including the unused `node_ids` loop) return exactly the record the folds specify |
| RunParser.ScanRunId | dashboard/app.py:288-291 | The run-id loop returns the last match |
| RunParser.ScanNumRounds | dashboard/app.py:294-297 | The `num_rounds=` loop returns the last match |
| RunParser.ScanRounds | dashboard/app.py:300-320 | The rounds loop ends with the cursor and table of the rounds pass |
| RunParser.ApplyMarker | dashboard/app.py:303-307 | The marker branch performs one `MarkerStep` |
| RunParser.ApplyAggregate | dashboard/app.py:310-320 | An aggregate branch performs one `AggregateStep` |
| RunParser.ScanHistory | dashboard/app.py:323-344 | The history loop, with its `continue`s, ends with the table of the history pass |
| RunParser.ScanStatus | dashboard/app.py:350-359 | The status loop with `break` and `else` returns the completion of the first `Run finished` line, or running/idle |
| RunParser.ScanNodeIds | dashboard/app.py:362-366 | The dead `node_id=` loop computes the set of ids in the recent lines |
| RunParser.CollectConnectedNodes | dashboard/app.py:374-386 | The loop counts the distinct `[Fleet.PullMessages]` ids, as the specification function does |
| Inventory.RoleOf | dashboard/app.py:179 | The role is SuperLink exactly when the lowercased name contains `superlink` |
| Inventory.StateOf | dashboard/app.py:193-195 | LCM state 3, 5 and 36 map to running, stopped and unknown, each exactly; anything else maps to other |
| Inventory.NicListNormalised | dashboard/app.py:182-186 | A list-valued NIC reads as its first element, and an empty list as no address |
| Inventory.ViewOf | dashboard/app.py:172-210 | Every field of a record: id, name, role, NIC address, status, CPU (VCPU, else CPU, else 0), memory and SuperLink address from the VM; container status `unknown`, empty uptime, version and framework |
| Inventory.PoolNodes | dashboard/app.py:152-212 | `collect_nodes`: no nodes on a failed command or undecodable output; every record starts with container status `unknown` and no framework (which records exist: KeptOnlyFlower, KeptAllFlower, InventoryErrors, OneVmIsList) |
| Inventory.InventoryErrors | dashboard/app.py:155-167 | A failed command, undecodable output or an empty `VM_POOL` gives no nodes |
| Inventory.OneVmIsList | dashboard/app.py:169-170 | A single VM object is read as a one-element list |
| Inventory.KeptOnlyFlower | dashboard/app.py:172-176 | Every record comes from a VM whose lowercased name contains a Flower keyword, and there are never more records than VMs |
| Inventory.KeptIndices | dashboard/app.py:172-176 | The indices of the VMs the keyword filter keeps: each one kept, strictly increasing, and none missing |
| Inventory.KeptInPoolOrder | dashboard/app.py:172-210 | The records keep pool order: the k-th record is that of the k-th VM whose name has a Flower keyword, the kept indices being strictly increasing |
| Inventory.KeptAllFlower | dashboard/app.py:172-176 | Every VM whose name contains a Flower keyword gets a record |
| Inventory.CollectNodes | dashboard/app.py:152-212 | The loop builds one fresh, distinct `NodeInfo` per kept VM, in pool order, with the records the pool function specifies |
| Inventory.UptimeParts | dashboard/app.py:231-232 | Whole minutes below 60, and hours and minutes that account for the elapsed seconds to within a minute |
| Inventory.ImageTagIsSuffix | dashboard/app.py:236 | The version is the text after the last `:` of the image, or the whole image when it has no `:` |
| Inventory.FirstContained | dashboard/app.py:239-242 | The first framework name, in the order pytorch, tensorflow, sklearn, that occurs in the lowercased image |
| Inventory.ImageFramework | dashboard/app.py:238-242 | No framework exactly when none of the three names occurs in the lowercased image; otherwise the first of them, in that order, that occurs |
| Inventory.ContainerFor | dashboard/app.py:220 | `flower-superlink` exactly for a SuperLink, `flower-supernode` exactly for a SuperNode |
| Inventory.EnrichSkips | dashboard/app.py:217-218 | A node without an address or not running is left unchanged |
| Inventory.EnrichNotFound | dashboard/app.py:244-245 | A failed or silent `docker inspect` sets only the container status, to `not found` |
| Inventory.EnrichShortOutput | dashboard/app.py:224-225 | Output with fewer than three fields leaves the node unchanged |
| Inventory.Enrich | dashboard/app.py:215-246 | `collect_container_info` changes only the four container fields (status, uptime, version, framework); the cases are pinned down by EnrichSkips, EnrichNotFound, EnrichShortOutput and EnrichReadsInspect |
| Inventory.EnrichReadsInspect | dashboard/app.py:222-242 | From `<status> <started-at> <image>`: the status, the image tag, the uptime (or `unknown`), and the first framework the image names, or the old one when it names none |
| Inventory.CollectContainerInfo | dashboard/app.py:215-246 | Updating the `NodeInfo` in place leaves it equal to the enriched record |
| Dashboard.EnrichAll | dashboard/app.py:398-399 | Every node is enriched with what its own VM answered |
| Dashboard.SelectionIsLast | dashboard/app.py:401-407 | The SuperLink address is that of the last running SuperLink, or ""; the framework is that of the last SuperNode with a framework, or "" |
| Dashboard.SelectSuperlinkAndFramework | dashboard/app.py:401-407 | The selection loop over the objects returns exactly these two selections |
| Dashboard.EnrichNodes | dashboard/app.py:398-399 | The enrichment loop updates every object in place to its enriched record |
| Dashboard.NoSuperlinkNoRun | dashboard/app.py:401-410 | Without a running SuperLink the address is "", the run is the default record and no SuperNode is connected |
| Dashboard.ClusterNodes | dashboard/app.py:395-414 | The reported nodes are the inventory's, one for one, with only their container fields changed |
| Dashboard.ClusterStateOf | dashboard/app.py:393-419 | `get_cluster_state`: one node per inventory record, a run whose completed count is its number of rounds, and no run and no connected SuperNode without a SuperLink address (further: NoSuperlinkNoRun, ClusterNodes) |
| Dashboard.GetClusterState | dashboard/app.py:393-419 | The endpoint's steps compose to the cluster-state function |
| FrameworkScan.FirstDetection | dashboard/app.py:449-456 | The index of the first running SuperNode whose container reveals a framework; none before it does |
| FrameworkScan.DetectedFramework | dashboard/app.py:449-456 | `cluster_framework` is "" exactly when no running SuperNode reveals a framework; otherwise that of the first one that does |
| FrameworkScan.DetectedFrameworkKnown | dashboard/app.py:449-456 | On fresh nodes the detected framework is "", pytorch, tensorflow or sklearn, and "" exactly when no running SuperNode reveals one (the names come from lines 239-242) |
| FrameworkScan.ScanStopsAt | dashboard/app.py:449-456 | The scan stops at the first node that reveals a framework, which is reported, and only the nodes up to it are inspected |
| FrameworkScan.ScanRunsThrough | dashboard/app.py:449-456 | When no node reveals a framework, the result is "" and every node is passed |
| FrameworkScan.ScanNode | dashboard/app.py:451-456 | One step inspects a running SuperNode in place and returns the framework it reveals, touching no other node |
| FrameworkScan.DetectClusterFramework | dashboard/app.py:449-456 | The loop with `break` returns the first detected framework and leaves exactly the scanned nodes enriched |
| FrameworkScan.GetFrameworks | dashboard/app.py:433-463 | The reply carries the given framework list and defaults, the detected cluster framework and the three strategies |
| Training.DefaultRequest | dashboard/app.py:60-68 | A request giving only the framework has 3 rounds, FedAvg, 1 epoch, batch 32, 2 and 2 clients, no extras, and is valid |
| Training.ValidRequest | dashboard/app.py:60-68 | The field constraints: a known framework, 1-100 rounds, 1-50 epochs, batch 1-512, at least one client of each kind; DefaultRequest shows the defaults meet them |
| Training.SplitSetting | dashboard/app.py:484 | A `key=value` part splits at its first `=` and reassembles to itself |
| Training.SplitSettingOf | dashboard/app.py:484 | A setting whose key has no `=` reads back as itself |
| Training.RunConfigRoundTrip | dashboard/app.py:475-485 | Whenever the strategy has no space and every extra setting is plain (no `=` or space in its key, no space in its value), the run-config string splits into 6 + (number of extras) parts and reads back as the six fixed settings in order followed by the extras in insertion order |
| Training.RunConfig | dashboard/app.py:475-485 | `run_config_str`, the settings joined by single spaces; read back by RunConfigRoundTrip and built by BuildRunConfig |
| Training.SubmitCommand | dashboard/app.py:487 | Six arguments: the `flwr` binary, then `--run-config` before a string that reads back as the request's settings whenever the strategy has no space and the extras are plain |
| Training.BuildRunConfig | dashboard/app.py:475-485 | The loop appending the extras builds exactly the run-config string |
| Scans.Newest | dashboard/app.py:496 | The newest min(n, length) elements, as a suffix (also `[-20:]` at line 522 and `lines[-200:]` at line 363) |
| Scans.NewestAppend | dashboard/app.py:71-75 | Keeping the newest 500 after each append is keeping the newest 500 of everything appended (into the `deque(maxlen=500)` of line 496) |
| Training.OutputLines.Append | dashboard/app.py:74 | The buffer never holds more than 500 lines and holds the newest, each stripped of trailing newlines (`deque(maxlen=500)`, line 496) |
| Training.ReadOutput | dashboard/app.py:71-75 | The reader loop leaves the newest 500 of all stripped lines |
| Training.CompletedOf | dashboard/app.py:527-533 | The completion record keeps framework, config and exit code, with the last min(20, length) lines of the output (also lines 588-594) |
| Training.ActiveTraining.Exit | dashboard/app.py:580-586 | Ending the live process records its return code. `Stop` calls it after the SIGTERM, `kill` and `wait` of `stop_training`; an exit on its own is the same step, which the `poll()` checks at lines 516, 526, 558 and 577 observe |
| Training.TrainingController.Start | dashboard/app.py:466-508 | 409 `Training already in progress` while a run is alive, and nothing changes; otherwise a fresh alive run with the request, the submit command, the framework's directory and an empty buffer; `_last_completed` is never touched |
| Training.TrainingController.Status | dashboard/app.py:511-539 | A live run reports framework, config and its last 20 lines; an exited run is recorded into `_last_completed` and dropped, once; with no run the last record is reported unchanged |
| Training.TrainingController.Stop | dashboard/app.py:572-597 | 404 `No active training to stop` unless a run is alive, with nothing changed; otherwise the process ends, is recorded, and `_active_training` becomes None |
| Training.TrainingController.StreamPoll | dashboard/app.py:545-567 | One pass of the stream generator over the controller's state is the stream step |
| Training.LineEventsFrom | dashboard/app.py:553-555 | The loop emits one line event per buffered line past the cursor, in order |
| Training.StreamStep | dashboard/app.py:545-567 | One pass of `event_generator` finishes exactly when there is no run or its process has exited, and never moves the cursor back (further: StreamEnds, StreamDeliversBelowCapacity, StreamStallsWhenFull) |
| Training.StreamEnds | dashboard/app.py:548-566 | The stream ends, with `complete` last, exactly when there is no run or its process has exited; the cursor never moves back |
| Training.StreamDeliversBelowCapacity | dashboard/app.py:552-556 | Below 500 lines, every appended line is streamed once, in order, and the cursor reaches the new length (capacity from line 496) |
| Training.StreamStallsWhenFull | dashboard/app.py:552-556 | Once the buffer is full and the cursor is at 500, later lines are kept by the buffer but never streamed: no event, cursor stays at 500 (the `deque(maxlen=500)` of line 496) |

## Left out

- SSH and shell execution (`_run`, `_ssh`) and the `onevm` and `docker` commands. Their results are parameters: an exit status and output text, or functions from an address to them (`Inventory.Inspector`, `Dashboard.LogReader`).
- `json.loads`, `tomllib` and the demo-directory scan of `get_frameworks`. The decoded VM pool, the framework list and the defaults are parameters. JSON values are typed records whose keys may be missing.
- `int(...)` on VM fields is taken as already converted. The `ValueError` such a conversion could raise is not modelled.
- Float parsing of loss, accuracy and duration. These are kept as the matched `[\d.]+` text.
- ISO timestamp parsing and the clock. The whole seconds elapsed are a parameter, and `None` stands for an unparsable timestamp.
- The clock readings behind `elapsed_s` and `duration_s`, and their rounding. These fields are absent from the replies.
- `\d` and `str.lower()` are modelled on ASCII characters; Unicode digits and case mappings are not.
- Python values of `extra_config` are given as the text `str()` makes of them.
- Real subprocesses, signals, the wait timeouts and the reader thread's concurrency:
  - the process is `Alive` or `Exited(code)`;
  - the reader is sequential appends;
  - the exit code after SIGTERM/kill is a parameter of `Stop`;
  - the pid is a parameter of `Start`.
- The `asyncio.sleep` loop of the log stream. One pass is modelled.
- Training.TrainingController.StreamPoll: the flush reads the same buffer contents as the first read. Lines arriving between the two reads are not modelled, because appends are not concurrent here. `Training.StreamStep` does allow the two reads to differ.
- FastAPI/Pydantic validation is the precondition `ValidRequest` of `Start`; a rejected request never reaches the handler. The `framework` pattern is stated as membership in the three names.
- Inventory.NodeInfo: the fields `collect_container_info` never writes are `const`. Only the four container fields are mutable.
- Python's object identity inside `asdict` and the ISO timestamp of `ClusterState`.
- `get_training_status` and `stop_training` return dictionaries. They are modelled as the `Completed` and `StatusReply` datatypes without the duration and elapsed fields.
- The upload endpoint (`/api/upload`), the index page, `dashboard/static/app.js`, everything under `demo/` and the appliance tests. None of them is part of this model.
- RunParser.ParseRunInfo: `float(m.group(2))` (dashboard/app.py:338) and `float(m.group(1))` (dashboard/app.py:355) raise an uncaught `ValueError` on a capture such as `.` or `1.2.3`. `collect_training_logs`, and with it `/api/cluster`, then fails. The model returns the captured text instead (`Some("1.2.3")`).
