/** `collect_training_logs` and `collect_connected_nodes` of dashboard/app.py:
    the SuperLink container log, already fetched over SSH, is split into lines
    and scanned by several left-to-right passes.  Each pass is specified by a
    fold over the lines (defined on the last line, so that a loop's invariant
    is the fold of the lines already read), and the methods at the end run
    the Python loops of `collect_training_logs` and are proved to compute these folds. */
module RunParser {
  import opened Wrappers
  import opened Text
  import opened Patterns
  import opened Scans

  // ---------------------------------------------------------------------
  // Records
  // ---------------------------------------------------------------------

  /** `RunInfo.status`; `Failed` is a documented value no code path produces. */
  datatype RunStatus = Idle | Running | Completed | Failed

  /** One round of training.  Loss and accuracy are kept as the matched
      `[\d.]+` text rather than as floating-point numbers. */
  datatype RoundMetrics = RoundMetrics(
    roundNum: nat,
    loss: Option<string>,
    accuracy: Option<string>,
    fitClients: nat,
    fitFailures: nat,
    evalClients: nat,
    evalFailures: nat)

  /** `RoundMetrics(round_num=n)`: every other field at its default. */
  function NewRound(n: nat): RoundMetrics {
    RoundMetrics(n, None, None, 0, 0, 0, 0)
  }

  /** The parsed state of a run; `totalDurationS == None` stands for the default `0`. */
  datatype RunInfo = RunInfo(
    runId: string,
    status: RunStatus,
    numRoundsConfigured: nat,
    numRoundsCompleted: nat,
    totalDurationS: Option<string>,
    rounds: seq<RoundMetrics>,
    modelInfo: map<string, string>)

  /** `RunInfo()`: what is returned when no log can be read. */
  const DefaultRunInfo := RunInfo("", Idle, 0, 0, None, [], map[])

  // ---------------------------------------------------------------------
  // What one line says
  // ---------------------------------------------------------------------

  /** The id captured by `Starting run (\d+)`. */
  function RunIdOf(line: string): (id: Option<string>)
    ensures id.Some? ==> id.value != [] && AllDigits(id.value)
  {
    match Search(line, StartingRun)
    case Some(caps) => assert CaptureKinds(StartingRun) == [false]; Some(caps[0])
    case None => None
  }

  /** The number captured by `num_rounds=(\d+)`. */
  function NumRoundsOf(line: string): Option<nat> {
    match Search(line, NumRoundsSetting)
    case Some(caps) => assert CaptureKinds(NumRoundsSetting) == [false]; Some(ParseNat(caps[0]))
    case None => None
  }

  /** The round number captured by `\[ROUND (\d+)\]`. */
  function RoundMarkerOf(line: string): Option<nat> {
    match Search(line, RoundMarker)
    case Some(caps) => assert CaptureKinds(RoundMarker) == [false]; Some(ParseNat(caps[0]))
    case None => None
  }

  const FitHead := "aggregate_fit: received "
  const EvaluateHead := "aggregate_evaluate: received "

  /** The (results, failures) pair captured by `<head>(\d+) results? and (\d+) failures?`. */
  function AggregateOf(line: string, head: string): Option<(nat, nat)> {
    match Search(line, AggregatePattern(head))
    case Some(caps) =>
      AggregateKinds(head);
      Some((ParseNat(caps[0]), ParseNat(caps[1])))
    case None => None
  }

  /** The round number and value captured by `round (\d+): ([\d.]+)`. */
  function HistoryValueOf(line: string): Option<(nat, string)> {
    match Search(line, HistoryValue)
    case Some(caps) =>
      HistoryValueKinds();
      Some((ParseNat(caps[0]), caps[1]))
    case None => None
  }

  /** `round (\d+): ([\d.]+)` captures a number and then a run of digits and dots. */
  lemma HistoryValueKinds()
    ensures CaptureKinds(HistoryValue) == [false, true]
  {
    var pat := HistoryValue;
    assert pat[3..][1..] == [];
    assert pat[2..][1..] == pat[3..];
    assert pat[1..][1..] == pat[2..];
  }

  /** The duration captured by `in ([\d.]+)s`. */
  function DurationOf(line: string): Option<string> {
    match Search(line, Duration)
    case Some(caps) => assert CaptureKinds(Duration) == [true]; Some(caps[0])
    case None => None
  }

  /** The id captured by `node_id=(\d+)`. */
  function NodeIdOf(line: string): Option<string> {
    match Search(line, NodeId)
    case Some(caps) => assert CaptureKinds(NodeId) == [false]; Some(caps[0])
    case None => None
  }

  /** The id captured by `\[Fleet\.PullMessages\] node_id=(\d+)`. */
  function FleetNodeIdOf(line: string): Option<string> {
    match Search(line, FleetNodeId)
    case Some(caps) => assert CaptureKinds(FleetNodeId) == [false]; Some(caps[0])
    case None => None
  }

  lemma AggregateKinds(head: string)
    ensures CaptureKinds(AggregatePattern(head)) == [false, false]
  {
    var p := AggregatePattern(head);
    assert p[7..][1..] == [];
    assert CaptureKinds(p[7..]) == [];
    assert p[6..][1..] == p[7..];
    assert p[5..][1..] == p[6..];
    assert CaptureKinds(p[5..]) == [false];
    assert p[4..][1..] == p[5..];
    assert CaptureKinds(p[4..]) == [false];
    assert p[3..][1..] == p[4..];
    assert CaptureKinds(p[3..]) == [false];
    assert p[2..][1..] == p[3..];
    assert CaptureKinds(p[2..]) == [false];
    assert p[1..][1..] == p[2..];
    assert CaptureKinds(p[1..]) == [false, false];
  }

  // ---------------------------------------------------------------------
  // Passes over the lines
  // ---------------------------------------------------------------------

  /** The per-round table of the pass over `[ROUND n]` and aggregate lines,
      with the cursor `current_round`. */
  datatype RoundsState = RoundsState(current: nat, table: map<nat, RoundMetrics>)

  /** Every entry is stored under its own round number. */
  predicate KeysMatch(table: map<nat, RoundMetrics>) {
    forall n :: n in table ==> table[n].roundNum == n
  }

  /** A `[ROUND n]` line moves the cursor to `n` and creates round `n` only if it is absent. */
  function MarkerStep(st: RoundsState, line: string): (r: RoundsState)
    ensures RoundMarkerOf(line).None? ==> r == st
    ensures RoundMarkerOf(line).Some? ==>
      && r.current == RoundMarkerOf(line).value
      && r.table.Keys == st.table.Keys + {r.current}
      && (forall n :: n in st.table ==> r.table[n] == st.table[n])
      && (r.current !in st.table ==> r.table[r.current] == NewRound(r.current))
  {
    match RoundMarkerOf(line)
    case Some(n) => RoundsState(n, if n in st.table then st.table else st.table[n := NewRound(n)])
    case None => st
  }

  /** An aggregate line, read as `agg`, overwrites one (clients, failures)
      pair of the current round, and only when that round exists. */
  function AggregateStep(st: RoundsState, agg: Option<(nat, nat)>, evaluate: bool): (r: RoundsState)
    ensures r.current == st.current && r.table.Keys == st.table.Keys
    ensures forall n :: n in st.table && n != st.current ==> r.table[n] == st.table[n]
    ensures agg.None? || st.current !in st.table ==> r == st
    ensures agg.Some? && st.current in st.table ==>
      var old_ := st.table[st.current];
      r.table[st.current] ==
        if evaluate then old_.(evalClients := agg.value.0, evalFailures := agg.value.1)
        else old_.(fitClients := agg.value.0, fitFailures := agg.value.1)
  {
    match agg
    case Some((clients, failures)) =>
      if st.current in st.table then
        var m := st.table[st.current];
        var m' := if evaluate then m.(evalClients := clients, evalFailures := failures)
                  else m.(fitClients := clients, fitFailures := failures);
        st.(table := st.table[st.current := m'])
      else st
    case None => st
  }

  /** One line of the rounds pass: marker, then fit, then evaluate, as the three
      searches run in this order on the same line. */
  function RoundStep(st: RoundsState, line: string): (r: RoundsState)
    ensures RoundMarkerOf(line).None? ==> r.current == st.current && r.table.Keys == st.table.Keys
    ensures RoundMarkerOf(line).Some? ==>
      r.current == RoundMarkerOf(line).value && r.table.Keys == st.table.Keys + {r.current}
  {
    AggregateStep(AggregateStep(MarkerStep(st, line), AggregateOf(line, FitHead), false),
                  AggregateOf(line, EvaluateHead), true)
  }

  function RoundsPass(lines: seq<string>): RoundsState
    decreases |lines|
  {
    if lines == [] then RoundsState(0, map[])
    else RoundStep(RoundsPass(lines[..|lines| - 1]), lines[|lines| - 1])
  }

  /** The flags `loss_section` / `accuracy_section` and the table of the history pass. */
  datatype HistoryState = HistoryState(lossSection: bool, accuracySection: bool, table: map<nat, RoundMetrics>)

  predicate IsLossHeader(line: string) {
    Contains(line, "History (loss")
  }

  predicate IsAccuracyHeader(line: string) {
    Contains(line, "History (metrics") || Contains(line, "History (accuracy")
  }

  /** Two records of the same round that differ at most in loss and accuracy. */
  predicate SameCounts(a: RoundMetrics, b: RoundMetrics) {
    && a.roundNum == b.roundNum
    && a.fitClients == b.fitClients && a.fitFailures == b.fitFailures
    && a.evalClients == b.evalClients && a.evalFailures == b.evalFailures
  }

  /** `rounds[n].loss = v` (or `.accuracy`), after creating round `n` if missing. */
  function RecordValue(table: map<nat, RoundMetrics>, n: nat, v: string, isLoss: bool): (t: map<nat, RoundMetrics>)
    ensures t.Keys == table.Keys + {n}
    ensures forall k :: k in table && k != n ==> t[k] == table[k]
    ensures SameCounts(t[n], if n in table then table[n] else NewRound(n))
    ensures isLoss ==> t[n].loss == Some(v) && t[n].accuracy == (if n in table then table[n].accuracy else None)
    ensures !isLoss ==> t[n].accuracy == Some(v) && t[n].loss == (if n in table then table[n].loss else None)
  {
    var t := if n in table then table else table[n := NewRound(n)];
    if isLoss then t[n := t[n].(loss := Some(v))] else t[n := t[n].(accuracy := Some(v))]
  }

  /** One line of the history pass.  A header switches the sections and is
      skipped; inside a section, `round n: v` records `v` as the loss or the
      accuracy of round `n`, creating the round if it is missing. */
  function HistoryStep(st: HistoryState, line: string): (r: HistoryState)
    ensures IsLossHeader(line) ==> r == st.(lossSection := true, accuracySection := false)
    ensures !IsLossHeader(line) && IsAccuracyHeader(line) ==> r == st.(lossSection := false, accuracySection := true)
    ensures !IsLossHeader(line) && !IsAccuracyHeader(line) ==>
      && r.lossSection == st.lossSection && r.accuracySection == st.accuracySection
      && if (st.lossSection || st.accuracySection) && HistoryValueOf(line).Some? then
           var (n, v) := HistoryValueOf(line).value;
           r.table == RecordValue(st.table, n, v, st.lossSection)
         else r.table == st.table
  {
    if IsLossHeader(line) then st.(lossSection := true, accuracySection := false)
    else if IsAccuracyHeader(line) then st.(accuracySection := true, lossSection := false)
    else if st.lossSection || st.accuracySection then
      match HistoryValueOf(line)
      // `elif accuracy_section` always holds when `loss_section` does not: one of the flags is set
      case Some((n, v)) => st.(table := RecordValue(st.table, n, v, st.lossSection))
      case None => st
    else st
  }

  function HistoryPass(table: map<nat, RoundMetrics>, lines: seq<string>): HistoryState
    decreases |lines|
  {
    if lines == [] then HistoryState(false, false, table)
    else HistoryStep(HistoryPass(table, lines[..|lines| - 1]), lines[|lines| - 1])
  }

  // ---------------------------------------------------------------------
  // Sorting the rounds
  // ---------------------------------------------------------------------

  /** `k` is the smallest of `keys`. */
  predicate IsMin(k: nat, keys: set<nat>) {
    k in keys && forall j :: j in keys ==> k <= j
  }

  lemma {:induction false} MinExists(keys: set<nat>)
    requires keys != {}
    ensures exists k :: IsMin(k, keys)
    decreases |keys|
  {
    var x :| x in keys;
    var rest := keys - {x};
    if rest == {} {
      assert keys == {x};
      assert IsMin(x, keys);
    } else {
      MinExists(rest);
      var m :| IsMin(m, rest);
      var k := if x < m then x else m;
      forall j | j in keys
        ensures k <= j
      {
        if j != x { assert j in rest; }
      }
      assert IsMin(k, keys);
    }
  }

  function MinKey(keys: set<nat>): (k: nat)
    requires keys != {}
    ensures IsMin(k, keys)
  {
    MinExists(keys);
    var k :| IsMin(k, keys);
    k
  }

  /** `sorted(rounds.values(), key=round_num)`: the entries in strictly
      increasing round order, each exactly once. */
  function SortedRounds(table: map<nat, RoundMetrics>): (r: seq<RoundMetrics>)
    requires KeysMatch(table)
    ensures |r| == |table|
    ensures forall i, j :: 0 <= i < j < |r| ==> r[i].roundNum < r[j].roundNum
    ensures forall x :: x in r <==> x in table.Values
    decreases |table|
  {
    if |table| == 0 then []
    else
      assert |table.Keys| == |table|;
      var k := MinKey(table.Keys);
      var rest := table - {k};
      assert rest.Keys == table.Keys - {k};
      assert |rest| == |table| - 1 by {
        assert |rest.Keys| == |table.Keys| - 1;
      }
      var tail := SortedRounds(rest);
      forall i | 0 <= i < |tail|
        ensures table[k].roundNum < tail[i].roundNum
      {
        assert tail[i] in rest.Values;
        var n :| n in rest && rest[n] == tail[i];
      }
      assert forall x :: x in table.Values <==> x == table[k] || x in rest.Values by {
        forall x
          ensures x in table.Values <==> x == table[k] || x in rest.Values
        {
          if x in table.Values {
            var n :| n in table && table[n] == x;
            if n != k { assert rest[n] == x; }
          }
          if x in rest.Values {
            var n :| n in rest && rest[n] == x;
            assert table[n] == x;
          }
        }
      }
      [table[k]] + tail
  }

  // ---------------------------------------------------------------------
  // Completion and model information
  // ---------------------------------------------------------------------

  const RunFinished := "Run finished"

  /** The index of the first line reporting `Run finished`, if any. */
  function FirstFinished(lines: seq<string>): (r: Option<nat>)
    ensures r.Some? ==> r.value < |lines| && Contains(lines[r.value], RunFinished)
    ensures r.Some? ==> forall j :: 0 <= j < r.value ==> !Contains(lines[j], RunFinished)
    ensures r.None? ==> forall j :: 0 <= j < |lines| ==> !Contains(lines[j], RunFinished)
    decreases |lines|
  {
    if lines == [] then None
    else if Contains(lines[0], RunFinished) then Some(0)
    else match FirstFinished(lines[1..])
      case Some(i) => Some(i + 1)
      case None => None
  }

  /** A line with `Run finished` and none before it is the first one. */
  lemma FirstFinishedAt(lines: seq<string>, k: nat)
    requires k < |lines| && Contains(lines[k], RunFinished)
    requires forall j :: 0 <= j < k ==> !Contains(lines[j], RunFinished)
    ensures FirstFinished(lines) == Some(k)
  {
  }

  /** The status and duration: those of the first `Run finished` line, else
      (the `for ... else` branch) running when a run id was seen. */
  function Completion(lines: seq<string>, runId: string): (RunStatus, Option<string>) {
    match FirstFinished(lines)
    case Some(i) => (Completed, DurationOf(lines[i]))
    case None => (if runId != "" then Running else Idle, None)
  }

  /** `MODEL_INFO`: a description of the model each framework trains. */
  const ModelInfoTable: map<string, map<string, string>> := map[
    "pytorch" := map[
      "architecture" := "SimpleCNN (Conv2d -> Conv2d -> FC -> FC)",
      "parameters" := "~878K",
      "framework" := "PyTorch 2.6.0",
      "dataset" := "CIFAR-10",
      "strategy" := "FedAvg"],
    "tensorflow" := map[
      "architecture" := "Sequential CNN (Conv2D -> Conv2D -> Dense -> Dense)",
      "parameters" := "~880K",
      "framework" := "TensorFlow 2.18.1",
      "dataset" := "CIFAR-10",
      "strategy" := "FedAvg"],
    "sklearn" := map[
      "architecture" := "MLPClassifier (3072 -> 512 -> 10)",
      "parameters" := "~1.6M",
      "framework" := "scikit-learn 1.4+",
      "dataset" := "CIFAR-10 (flattened)",
      "strategy" := "FedAvg"]]

  /** `MODEL_INFO.get(framework, MODEL_INFO.get("pytorch", {}))`. */
  function ModelInfoFor(framework: string): map<string, string> {
    if framework in ModelInfoTable then ModelInfoTable[framework]
    else if "pytorch" in ModelInfoTable then ModelInfoTable["pytorch"]
    else map[]
  }

  // ---------------------------------------------------------------------
  // The whole parse
  // ---------------------------------------------------------------------

  /** The rounds table after both the rounds pass and the history pass. */
  function RoundTable(lines: seq<string>): map<nat, RoundMetrics> {
    HistoryPass(RoundsPass(lines).table, lines).table
  }

  /** What `collect_training_logs` builds from the lines of a log it could read. */
  function ParseLines(lines: seq<string>, framework: string): RunInfo {
    var runId := LastFound(lines, RunIdOf, "");
    var table := RoundTable(lines);
    RoundTableKeysMatch(lines);
    var (status, duration) := Completion(lines, runId);
    RunInfo(runId, status, LastFound(lines, NumRoundsOf, 0), |table|, duration,
            SortedRounds(table), ModelInfoFor(framework))
  }

  /** `collect_training_logs(superlink_ip, framework)`, given the exit status
      and output of `docker logs` on the SuperLink. */
  function ParseRunInfo(superlinkIp: string, framework: string, rc: int, out: string): (r: RunInfo)
    ensures superlinkIp == "" || rc != 0 ==> r == DefaultRunInfo
    ensures r.numRoundsCompleted == |r.rounds|
    ensures forall i, j :: 0 <= i < j < |r.rounds| ==> r.rounds[i].roundNum < r.rounds[j].roundNum
  {
    if superlinkIp == "" || rc != 0 then DefaultRunInfo
    else
      var lines := Split(out, '\n');
      RoundsOutput(lines, framework);
      ParseLines(lines, framework)
  }

  /** The distinct ids that `extract` finds in the lines. */
  function IdSet(lines: seq<string>, extract: string -> Option<string>): (ids: set<string>)
    ensures forall id :: id in ids <==> Found(lines, extract, id)
    ensures |ids| <= |lines|
    decreases |lines|
  {
    if lines == [] then {}
    else
      var init := lines[..|lines| - 1];
      var prev := IdSet(init, extract);
      assert forall id :: Found(lines, extract, id) <==>
        Found(init, extract, id) || extract(lines[|lines| - 1]) == Some(id) by {
        forall id { FoundSnoc(lines, extract, id); }
      }
      match extract(lines[|lines| - 1])
      case Some(id) => prev + {id}
      case None => prev
  }

  /** `collect_connected_nodes(superlink_ip)`, given the exit status and output
      of `docker logs ... | tail -100` on the SuperLink. */
  function ConnectedNodes(superlinkIp: string, rc: int, out: string): (n: nat)
    ensures superlinkIp == "" || rc != 0 ==> n == 0
    ensures n <= |Split(out, '\n')|
  {
    if superlinkIp == "" || rc != 0 then 0
    else |IdSet(Split(out, '\n'), FleetNodeIdOf)|
  }

  // ---------------------------------------------------------------------
  // Properties of the rounds table
  // ---------------------------------------------------------------------

  /** The rounds pass stores each round under its own number. */
  lemma {:induction false} RoundsPassKeysMatch(lines: seq<string>)
    ensures KeysMatch(RoundsPass(lines).table)
    decreases |lines|
  {
    if lines != [] {
      RoundsPassKeysMatch(lines[..|lines| - 1]);
    }
  }

  /** The history pass keeps every round stored under its own number. */
  lemma {:induction false} HistoryPassKeysMatch(table: map<nat, RoundMetrics>, lines: seq<string>)
    requires KeysMatch(table)
    ensures KeysMatch(HistoryPass(table, lines).table)
    decreases |lines|
  {
    if lines != [] {
      HistoryPassKeysMatch(table, lines[..|lines| - 1]);
    }
  }

  lemma RoundTableKeysMatch(lines: seq<string>)
    ensures KeysMatch(RoundTable(lines))
  {
    RoundsPassKeysMatch(lines);
    HistoryPassKeysMatch(RoundsPass(lines).table, lines);
  }

  /** The round table holds exactly the rounds announced by a `[ROUND n]` line. */
  lemma {:induction false} RoundKeysAreMarkers(lines: seq<string>)
    ensures forall n :: n in RoundsPass(lines).table <==> Found(lines, RoundMarkerOf, n)
    decreases |lines|
  {
    if lines != [] {
      var init := lines[..|lines| - 1];
      RoundKeysAreMarkers(init);
      forall n
        ensures n in RoundsPass(lines).table <==> Found(lines, RoundMarkerOf, n)
      {
        FoundSnoc(lines, RoundMarkerOf, n);
      }
    }
  }

  /** Aggregate lines before any `[ROUND n]` line change nothing: without a
      marker the table stays empty. */
  lemma NoMarkerNoRounds(lines: seq<string>)
    requires forall i :: 0 <= i < |lines| ==> RoundMarkerOf(lines[i]).None?
    ensures RoundsPass(lines).table == map[]
  {
    RoundKeysAreMarkers(lines);
    NoMarkerNoKeys(RoundsPass(lines).table, lines);
  }

  lemma NoMarkerNoKeys(table: map<nat, RoundMetrics>, lines: seq<string>)
    requires forall n :: n in table <==> Found(lines, RoundMarkerOf, n)
    requires forall i :: 0 <= i < |lines| ==> RoundMarkerOf(lines[i]).None?
    ensures table == map[]
  {
    forall n: nat
      ensures n !in table
    {
      NothingFound(lines, RoundMarkerOf, n);
    }
    assert table.Keys == {};
  }

  /** The cursor is the number of the last `[ROUND n]` line, or 0. */
  lemma {:induction false} CursorIsLastMarker(lines: seq<string>)
    ensures RoundsPass(lines).current == LastFound(lines, RoundMarkerOf, 0)
    decreases |lines|
  {
    if lines != [] {
      CursorIsLastMarker(lines[..|lines| - 1]);
    }
  }

  /** The two section flags are never set together. */
  lemma {:induction false} SectionsExclusive(table: map<nat, RoundMetrics>, lines: seq<string>)
    ensures var st := HistoryPass(table, lines); !(st.lossSection && st.accuracySection)
    decreases |lines|
  {
    if lines != [] {
      SectionsExclusive(table, lines[..|lines| - 1]);
    }
  }

  /** Without a `History (...)` header no value line is taken into account. */
  lemma {:induction false} NoHeaderNoHistory(table: map<nat, RoundMetrics>, lines: seq<string>)
    requires forall i :: 0 <= i < |lines| ==> !IsLossHeader(lines[i]) && !IsAccuracyHeader(lines[i])
    ensures HistoryPass(table, lines) == HistoryState(false, false, table)
    decreases |lines|
  {
    if lines != [] {
      NoHeaderNoHistory(table, lines[..|lines| - 1]);
    }
  }

  /** The history pass only adds rounds named by a `round n: v` line, keeps
      every existing round, and changes nothing but losses and accuracies. */
  lemma {:induction false} HistoryKeeps(table: map<nat, RoundMetrics>, lines: seq<string>)
    ensures var r := HistoryPass(table, lines).table;
      && table.Keys <= r.Keys
      && (forall n :: n in r ==>
            (|| n in table
             || exists i :: 0 <= i < |lines| && HistoryValueOf(lines[i]).Some? && HistoryValueOf(lines[i]).value.0 == n))
      && (forall n :: n in table ==> SameCounts(r[n], table[n]))
    decreases |lines|
  {
    if lines != [] {
      var init := lines[..|lines| - 1];
      HistoryKeeps(table, init);
      assert forall i :: 0 <= i < |init| ==> init[i] == lines[i];
    }
  }

  /** Whether the history pass is inside a loss or accuracy section once it
      has read `prefix`. */
  predicate InSection(prefix: seq<string>) {
    var st := HistoryPass(map[], prefix);
    st.lossSection || st.accuracySection
  }

  /** The section flags do not depend on the table the pass starts from. */
  lemma {:induction false} FlagsIgnoreTable(table: map<nat, RoundMetrics>, lines: seq<string>)
    ensures HistoryPass(table, lines).lossSection == HistoryPass(map[], lines).lossSection
    ensures HistoryPass(table, lines).accuracySection == HistoryPass(map[], lines).accuracySection
    decreases |lines|
  {
    if lines != [] {
      FlagsIgnoreTable(table, lines[..|lines| - 1]);
    }
  }

  /** Line `i` records a history value: it is not a header, the pass is inside
      a section when it reaches it, and it matches `round n: v`. */
  predicate HistoryValueAt(lines: seq<string>, i: int) {
    && 0 <= i < |lines|
    && !IsLossHeader(lines[i]) && !IsAccuracyHeader(lines[i])
    && InSection(lines[..i])
    && HistoryValueOf(lines[i]).Some?
  }

  /** Reading one more line adds to the table at most the round that line
      records, and only when it is a value line read inside a section. */
  lemma HistoryKeysSnoc(table: map<nat, RoundMetrics>, lines: seq<string>)
    requires lines != []
    ensures var last := |lines| - 1;
      forall n :: n in HistoryPass(table, lines).table <==>
        || n in HistoryPass(table, lines[..last]).table
        || (HistoryValueAt(lines, last) && HistoryValueOf(lines[last]).value.0 == n)
  {
    var last := |lines| - 1;
    FlagsIgnoreTable(table, lines[..last]);
  }

  /** Whether an earlier line is a value line does not depend on later lines. */
  lemma ValueAtPrefix(lines: seq<string>, i: int)
    requires 0 <= i < |lines| - 1
    ensures HistoryValueAt(lines, i) == HistoryValueAt(lines[..|lines| - 1], i)
  {
    assert lines[..|lines| - 1][..i] == lines[..i];
  }

  /** Some value line read inside a section records round `n`. */
  ghost predicate RecordedIn(lines: seq<string>, n: nat) {
    exists i :: HistoryValueAt(lines, i) && HistoryValueOf(lines[i]).value.0 == n
  }

  lemma RecordedSnoc(lines: seq<string>, n: nat)
    requires lines != []
    ensures var last := |lines| - 1;
      RecordedIn(lines, n) <==>
        RecordedIn(lines[..last], n) || (HistoryValueAt(lines, last) && HistoryValueOf(lines[last]).value.0 == n)
  {
    var last := |lines| - 1;
    var init := lines[..last];
    if RecordedIn(init, n) {
      var i :| HistoryValueAt(init, i) && HistoryValueOf(init[i]).value.0 == n;
      ValueAtPrefix(lines, i);
      assert HistoryValueAt(lines, i) && HistoryValueOf(lines[i]).value.0 == n;
    }
    if RecordedIn(lines, n) {
      var i :| HistoryValueAt(lines, i) && HistoryValueOf(lines[i]).value.0 == n;
      if i < last {
        ValueAtPrefix(lines, i);
        assert HistoryValueAt(init, i) && HistoryValueOf(init[i]).value.0 == n;
      }
    }
  }

  /** The history pass adds exactly the rounds named by value lines read inside a section. */
  lemma {:induction false} HistoryKeys(table: map<nat, RoundMetrics>, lines: seq<string>)
    ensures forall n :: n in HistoryPass(table, lines).table <==> n in table || RecordedIn(lines, n)
    decreases |lines|
  {
    if lines != [] {
      HistoryKeys(table, lines[..|lines| - 1]);
      HistoryKeysSnoc(table, lines);
      forall n: nat {
        RecordedSnoc(lines, n);
      }
    }
  }

  /** A round number the log mentions: announced by a `[ROUND n]` line or
      recorded by a `round n: v` line inside a history section. */
  ghost predicate RoundSeen(lines: seq<string>, n: nat) {
    || Found(lines, RoundMarkerOf, n)
    || RecordedIn(lines, n)
  }

  /** The final table holds exactly the rounds the log mentions. */
  lemma RoundTableKeys(lines: seq<string>)
    ensures forall n :: n in RoundTable(lines) <==> RoundSeen(lines, n)
  {
    RoundKeysAreMarkers(lines);
    HistoryKeys(RoundsPass(lines).table, lines);
  }

  // ---------------------------------------------------------------------
  // Properties of the whole parse
  // ---------------------------------------------------------------------

  /** `status` is `completed` exactly when some line reports `Run finished`;
      otherwise `running` exactly when a run id was found, else `idle`.  Only
      the first `Run finished` line supplies the duration. */
  lemma StatusFromFinishLine(lines: seq<string>, framework: string)
    ensures var r := ParseLines(lines, framework);
      && (r.status == Completed <==> exists i :: 0 <= i < |lines| && Contains(lines[i], RunFinished))
      && (r.status == Running <==>
            (forall i :: 0 <= i < |lines| ==> !Contains(lines[i], RunFinished)) && r.runId != "")
      && (r.status == Idle <==>
            (forall i :: 0 <= i < |lines| ==> !Contains(lines[i], RunFinished)) && r.runId == "")
      && r.status != Failed
    ensures var r := ParseLines(lines, framework);
      forall i :: 0 <= i < |lines| && Contains(lines[i], RunFinished) &&
                  (forall j :: 0 <= j < i ==> !Contains(lines[j], RunFinished)) ==>
                    r.totalDurationS == DurationOf(lines[i])
    ensures var r := ParseLines(lines, framework);
      (forall i :: 0 <= i < |lines| ==> !Contains(lines[i], RunFinished)) ==> r.totalDurationS == None
  {
  }

  /** `run_id` comes from the last line that starts a run, or stays "". */
  lemma RunIdIsLastMention(lines: seq<string>, framework: string)
    ensures var r := ParseLines(lines, framework);
      && ((forall i :: 0 <= i < |lines| ==> RunIdOf(lines[i]).None?) ==> r.runId == "")
      && (forall i :: 0 <= i < |lines| && RunIdOf(lines[i]).Some? &&
                       (forall j :: i < j < |lines| ==> RunIdOf(lines[j]).None?) ==>
                         r.runId == RunIdOf(lines[i]).value)
  {
    assert ParseLines(lines, framework).runId == LastFound(lines, RunIdOf, "");
    LastFoundIsLastMatch(lines, RunIdOf, "");
  }

  /** `num_rounds_configured` comes from the last `num_rounds=` line, or stays 0. */
  lemma NumRoundsIsLastMention(lines: seq<string>, framework: string)
    ensures var r := ParseLines(lines, framework);
      && ((forall i :: 0 <= i < |lines| ==> NumRoundsOf(lines[i]).None?) ==> r.numRoundsConfigured == 0)
      && (forall i :: 0 <= i < |lines| && NumRoundsOf(lines[i]).Some? &&
                       (forall j :: i < j < |lines| ==> NumRoundsOf(lines[j]).None?) ==>
                         r.numRoundsConfigured == NumRoundsOf(lines[i]).value)
  {
    assert ParseLines(lines, framework).numRoundsConfigured == LastFound(lines, NumRoundsOf, 0);
    LastFoundIsLastMatch(lines, NumRoundsOf, 0);
  }

  /** Every round of the table is in a list holding its entries. */
  lemma SortedHasRound(table: map<nat, RoundMetrics>, r: seq<RoundMetrics>, n: nat)
    requires KeysMatch(table) && n in table
    requires forall x :: x in r <==> x in table.Values
    ensures exists k :: 0 <= k < |r| && r[k].roundNum == n
  {
    assert table[n] in table.Values;
    var k :| 0 <= k < |r| && r[k] == table[n];
  }

  /** Every entry of a list holding the table's entries is a round of the table. */
  lemma SortedRoundInTable(table: map<nat, RoundMetrics>, r: seq<RoundMetrics>, k: nat)
    requires KeysMatch(table) && k < |r|
    requires forall x :: x in r <==> x in table.Values
    ensures r[k].roundNum in table
  {
    assert r[k] in table.Values;
    var m :| m in table && table[m] == r[k];
  }

  /** A list holding exactly the table's entries carries exactly its round numbers. */
  lemma RoundNumbersOf(table: map<nat, RoundMetrics>, r: seq<RoundMetrics>)
    requires KeysMatch(table)
    requires forall x :: x in r <==> x in table.Values
    ensures forall n: nat :: (exists k :: 0 <= k < |r| && r[k].roundNum == n) <==> n in table
  {
    forall n: nat
      ensures (exists k :: 0 <= k < |r| && r[k].roundNum == n) <==> n in table
    {
      if n in table {
        SortedHasRound(table, r, n);
      }
      if exists k :: 0 <= k < |r| && r[k].roundNum == n {
        var k :| 0 <= k < |r| && r[k].roundNum == n;
        SortedRoundInTable(table, r, k);
      }
    }
  }

  /** The rounds come out in strictly increasing order, one per round number
      seen in a marker or in a history section, and `num_rounds_completed`
      counts them, whatever `num_rounds` was configured. */
  lemma RoundsOutput(lines: seq<string>, framework: string)
    ensures var r := ParseLines(lines, framework);
      && r.numRoundsCompleted == |r.rounds|
      && (forall i, j :: 0 <= i < j < |r.rounds| ==> r.rounds[i].roundNum < r.rounds[j].roundNum)
      && (forall x :: x in r.rounds <==> x in RoundTable(lines).Values)
    ensures var r := ParseLines(lines, framework);
      forall n: nat :: (exists k :: 0 <= k < |r.rounds| && r.rounds[k].roundNum == n) <==> RoundSeen(lines, n)
  {
    RoundTableKeysMatch(lines);
    RoundTableKeys(lines);
    RoundNumbersOf(RoundTable(lines), ParseLines(lines, framework).rounds);
  }

  /** An empty address or a failed `docker logs` gives the default record,
      with no model information; otherwise the model information is that of
      the framework, or of PyTorch for an unknown framework. */
  lemma ParseErrorsAndModelInfo(superlinkIp: string, framework: string, rc: int, out: string)
    ensures superlinkIp == "" || rc != 0 ==>
      ParseRunInfo(superlinkIp, framework, rc, out) == DefaultRunInfo &&
      ParseRunInfo(superlinkIp, framework, rc, out).modelInfo == map[]
    ensures superlinkIp != "" && rc == 0 ==>
      var info := ParseRunInfo(superlinkIp, framework, rc, out).modelInfo;
      && (framework in {"pytorch", "tensorflow", "sklearn"} ==> info == ModelInfoTable[framework])
      && (framework !in {"pytorch", "tensorflow", "sklearn"} ==> info == ModelInfoTable["pytorch"])
      && info["strategy"] == "FedAvg"
  {
  }

  /** The number of connected SuperNodes is the number of distinct ids in
      `[Fleet.PullMessages] node_id=` lines: 0 without a readable log, and never
      more than the number of lines. */
  lemma ConnectedNodesCount(superlinkIp: string, rc: int, out: string)
    ensures superlinkIp == "" || rc != 0 ==> ConnectedNodes(superlinkIp, rc, out) == 0
    ensures superlinkIp != "" && rc == 0 ==>
      var lines := Split(out, '\n');
      && ConnectedNodes(superlinkIp, rc, out) <= |lines|
      && ((forall i :: 0 <= i < |lines| ==> FleetNodeIdOf(lines[i]).None?) ==> ConnectedNodes(superlinkIp, rc, out) == 0)
  {
  }

  // ---------------------------------------------------------------------
  // The collectors
  // ---------------------------------------------------------------------

  /** `collect_training_logs`: the passes of dashboard/app.py, one loop each, over
      the output `out` (with exit status `rc`) of `docker logs` on the SuperLink. */
  method CollectTrainingLogs(superlinkIp: string, framework: string, rc: int, out: string)
    returns (runInfo: RunInfo)
    ensures runInfo == ParseRunInfo(superlinkIp, framework, rc, out)
  {
    runInfo := DefaultRunInfo;
    if superlinkIp == "" {
      return;
    }
    if rc != 0 {
      return;
    }
    var lines := Split(out, '\n');
    var runId := ScanRunId(lines);
    runInfo := runInfo.(runId := runId);
    var configured := ScanNumRounds(lines);
    runInfo := runInfo.(numRoundsConfigured := configured);
    var current, rounds := ScanRounds(lines);
    rounds := ScanHistory(rounds, lines);
    RoundTableKeysMatch(lines);
    runInfo := runInfo.(rounds := SortedRounds(rounds), numRoundsCompleted := |rounds|);
    var status, duration := ScanStatus(lines, runInfo.runId);
    runInfo := runInfo.(status := status, totalDurationS := duration);
    var nodeIds := ScanNodeIds(Newest(lines, 200));
    runInfo := runInfo.(modelInfo := ModelInfoFor(framework));
  }

  /** The run-id loop: the last match wins. */
  method ScanRunId(lines: seq<string>) returns (runId: string)
    ensures runId == LastFound(lines, RunIdOf, "")
  {
    runId := "";
    for i := 0 to |lines|
      invariant runId == LastFound(lines[..i], RunIdOf, "")
    {
      assert lines[..i + 1][..i] == lines[..i];
      var m := RunIdOf(lines[i]);
      if m.Some? {
        runId := m.value;
      }
    }
    assert lines[..|lines|] == lines;
  }

  /** The `num_rounds=` loop: the last match wins. */
  method ScanNumRounds(lines: seq<string>) returns (configured: nat)
    ensures configured == LastFound(lines, NumRoundsOf, 0)
  {
    configured := 0;
    for i := 0 to |lines|
      invariant configured == LastFound(lines[..i], NumRoundsOf, 0)
    {
      assert lines[..i + 1][..i] == lines[..i];
      var m := NumRoundsOf(lines[i]);
      if m.Some? {
        configured := m.value;
      }
    }
    assert lines[..|lines|] == lines;
  }

  /** The rounds loop over markers and aggregates, with its cursor. */
  method ScanRounds(lines: seq<string>) returns (currentRound: nat, rounds: map<nat, RoundMetrics>)
    ensures RoundsState(currentRound, rounds) == RoundsPass(lines)
  {
    currentRound := 0;
    rounds := map[];
    for i := 0 to |lines|
      invariant RoundsState(currentRound, rounds) == RoundsPass(lines[..i])
    {
      assert lines[..i + 1][..i] == lines[..i];
      var line := lines[i];
      currentRound, rounds := ApplyMarker(currentRound, rounds, line);
      rounds := ApplyAggregate(currentRound, rounds, AggregateOf(line, FitHead), false);
      rounds := ApplyAggregate(currentRound, rounds, AggregateOf(line, EvaluateHead), true);
    }
    assert lines[..|lines|] == lines;
  }

  /** The `[ROUND n]` branch of the rounds loop. */
  method ApplyMarker(currentRound: nat, rounds: map<nat, RoundMetrics>, line: string)
    returns (current': nat, rounds': map<nat, RoundMetrics>)
    ensures RoundsState(current', rounds') == MarkerStep(RoundsState(currentRound, rounds), line)
  {
    current', rounds' := currentRound, rounds;
    var m := RoundMarkerOf(line);
    if m.Some? {
      current' := m.value;
      if current' !in rounds' {
        rounds' := rounds'[current' := NewRound(current')];
      }
    }
  }

  /** The `aggregate_fit` / `aggregate_evaluate` branches of the rounds loop. */
  method ApplyAggregate(currentRound: nat, rounds: map<nat, RoundMetrics>, agg: Option<(nat, nat)>, evaluate: bool)
    returns (rounds': map<nat, RoundMetrics>)
    ensures RoundsState(currentRound, rounds') == AggregateStep(RoundsState(currentRound, rounds), agg, evaluate)
  {
    rounds' := rounds;
    if agg.Some? && currentRound in rounds {
      if evaluate {
        rounds' := rounds[currentRound := rounds[currentRound].(evalClients := agg.value.0, evalFailures := agg.value.1)];
      } else {
        rounds' := rounds[currentRound := rounds[currentRound].(fitClients := agg.value.0, fitFailures := agg.value.1)];
      }
    }
  }

  /** The history loop over the loss and accuracy sections. */
  method ScanHistory(table: map<nat, RoundMetrics>, lines: seq<string>) returns (rounds: map<nat, RoundMetrics>)
    ensures rounds == HistoryPass(table, lines).table
  {
    rounds := table;
    var lossSection := false;
    var accuracySection := false;
    for i := 0 to |lines|
      invariant HistoryState(lossSection, accuracySection, rounds) == HistoryPass(table, lines[..i])
    {
      assert lines[..i + 1][..i] == lines[..i];
      var line := lines[i];
      if IsLossHeader(line) {
        lossSection := true;
        accuracySection := false;
        continue;
      }
      if IsAccuracyHeader(line) {
        accuracySection := true;
        lossSection := false;
        continue;
      }
      if lossSection || accuracySection {
        var m := HistoryValueOf(line);
        if m.Some? {
          var (rnum, val) := m.value;
          if rnum !in rounds {
            rounds := rounds[rnum := NewRound(rnum)];
          }
          if lossSection {
            rounds := rounds[rnum := rounds[rnum].(loss := Some(val))];
          } else {
            rounds := rounds[rnum := rounds[rnum].(accuracy := Some(val))];
          }
        }
      }
    }
    assert lines[..|lines|] == lines;
  }

  /** The status loop: stop at the first `Run finished` line; the `else` of the
      loop marks a run with an id as running. */
  method ScanStatus(lines: seq<string>, runId: string) returns (status: RunStatus, duration: Option<string>)
    ensures (status, duration) == Completion(lines, runId)
  {
    status := Idle;
    duration := None;
    var finished := false;
    var k := 0;
    while k < |lines|
      invariant 0 <= k <= |lines|
      invariant forall j :: 0 <= j < k ==> !Contains(lines[j], RunFinished)
      decreases |lines| - k
    {
      if Contains(lines[k], RunFinished) {
        FirstFinishedAt(lines, k);
        status := Completed;
        var m := DurationOf(lines[k]);
        if m.Some? {
          duration := m;
        }
        finished := true;
        break;
      }
      k := k + 1;
    }
    if !finished {
      if runId != "" {
        status := Running;
      }
    }
  }

  /** One more line adds its id, if it has one, to the ids of the lines before it. */
  lemma IdSetStep(lines: seq<string>, i: nat, extract: string -> Option<string>)
    requires i < |lines|
    ensures IdSet(lines[..i + 1], extract) ==
      IdSet(lines[..i], extract) + (if extract(lines[i]).Some? then {extract(lines[i]).value} else {})
  {
    assert lines[..i + 1][..i] == lines[..i];
  }

  /** The loop collecting `node_id=` values, run over `lines[-200:]`. */
  method ScanNodeIds(recent: seq<string>) returns (nodeIds: set<string>)
    ensures nodeIds == IdSet(recent, NodeIdOf)
  {
    nodeIds := {};
    for i := 0 to |recent|
      invariant nodeIds == IdSet(recent[..i], NodeIdOf)
    {
      IdSetStep(recent, i, NodeIdOf);
      var m := NodeIdOf(recent[i]);
      if m.Some? {
        nodeIds := nodeIds + {m.value};
      }
    }
    assert recent[..|recent|] == recent;
  }

  /** `collect_connected_nodes`: the distinct ids of `[Fleet.PullMessages]`
      lines in the output `out` (with exit status `rc`) of the log tail. */
  method CollectConnectedNodes(superlinkIp: string, rc: int, out: string) returns (count: nat)
    ensures count == ConnectedNodes(superlinkIp, rc, out)
  {
    if superlinkIp == "" {
      return 0;
    }
    if rc != 0 {
      return 0;
    }
    var lines := Split(out, '\n');
    var nodeIds: set<string> := {};
    for i := 0 to |lines|
      invariant nodeIds == IdSet(lines[..i], FleetNodeIdOf)
    {
      IdSetStep(lines, i, FleetNodeIdOf);
      var m := FleetNodeIdOf(lines[i]);
      if m.Some? {
        nodeIds := nodeIds + {m.value};
      }
    }
    assert lines[..|lines|] == lines;
    return |nodeIds|;
  }

  // ---------------------------------------------------------------------
  // The log lines the extractors recognise
  // ---------------------------------------------------------------------

  /** `Starting run <id>` yields the id. */
  lemma RunIdLine(p: string, id: string, tail: string)
    requires 'S' !in p && id != [] && AllDigits(id)
    requires tail == [] || !RunChar(true, tail[0])
    ensures RunIdOf(p + "Starting run " + id + tail) == Some(id)
  {
    var caps := [id];
    var r := Render(StartingRun, caps);
    assert r == "Starting run " + id by {
      assert CaptureKinds(StartingRun) == [false];
      assert StartingRun[1..][1..] == [];
    }
    var line := p + "Starting run " + id + tail;
    assert line == p + r + tail;
    LitRunWellFormed("Starting run ");
    SearchRendered(p, StartingRun, caps, tail);
  }

  /** `[ROUND n]` yields `n`. */
  lemma RoundMarkerLine(p: string, n: nat, tail: string)
    requires '[' !in p
    ensures RoundMarkerOf(p + "[ROUND " + NatToString(n) + "]" + tail) == Some(n)
  {
    var s := NatToString(n);
    RenderRoundMarker(s);
    assert p + "[ROUND " + s + "]" + tail == p + Render(RoundMarker, [s]) + tail;
    LitRunLitWellFormed("[ROUND ", Digits, "]");
    SearchRendered(p, RoundMarker, [s], tail);
    ParseNatToString(n);
  }

  lemma RenderRoundMarker(s: string)
    ensures |CaptureKinds(RoundMarker)| == 1
    ensures Render(RoundMarker, [s]) == "[ROUND " + s + "]"
  {
    assert CaptureKinds(RoundMarker) == [false];
    assert RoundMarker[1..][1..] == [Lit("]")];
    assert RoundMarker[1..][1..][1..] == [];
  }

  /** Rendering a pattern that starts with literal text. */
  lemma RenderLit(t: string, rest: Pattern, caps: seq<string>)
    requires |caps| == |CaptureKinds(rest)|
    ensures |caps| == |CaptureKinds([Lit(t)] + rest)|
    ensures Render([Lit(t)] + rest, caps) == t + Render(rest, caps)
  {
    assert ([Lit(t)] + rest)[1..] == rest;
  }

  /** Rendering a pattern that starts with an optional character. */
  lemma RenderOpt(c: char, rest: Pattern, caps: seq<string>)
    requires |caps| == |CaptureKinds(rest)|
    ensures |caps| == |CaptureKinds([OptChar(c)] + rest)|
    ensures Render([OptChar(c)] + rest, caps) == [c] + Render(rest, caps)
  {
    assert ([OptChar(c)] + rest)[1..] == rest;
  }

  /** Rendering a pattern that starts with `(\d+)`. */
  lemma RenderDigits(cap: string, rest: Pattern, caps: seq<string>)
    requires |caps| == |CaptureKinds(rest)|
    ensures |[cap] + caps| == |CaptureKinds([Digits] + rest)|
    ensures Render([Digits] + rest, [cap] + caps) == cap + Render(rest, caps)
  {
    assert ([Digits] + rest)[1..] == rest;
    assert ([cap] + caps)[1..] == caps;
  }

  /** The part of an aggregate pattern after the clients count. */
  lemma RenderAggregateTail(f: string)
    ensures var tail := [Lit(" result"), OptChar('s'), Lit(" and "), Digits, Lit(" failure"), OptChar('s')];
      |[f]| == |CaptureKinds(tail)| && Render(tail, [f]) == " results and " + f + " failures"
  {
    var p7: Pattern := [OptChar('s')];
    assert p7[1..] == [];
    var p6 := [Lit(" failure")] + p7;
    RenderLit(" failure", p7, []);
    var p5 := [Digits] + p6;
    RenderDigits(f, p6, []);
    var p4 := [Lit(" and ")] + p5;
    RenderLit(" and ", p5, [f]);
    var p3 := [OptChar('s')] + p4;
    RenderOpt('s', p4, [f]);
    var p2 := [Lit(" result")] + p3;
    RenderLit(" result", p3, [f]);
    assert p2 == [Lit(" result"), OptChar('s'), Lit(" and "), Digits, Lit(" failure"), OptChar('s')];
    assert " result" + ("s" + (" and " + (f + (" failure" + "s")))) == " results and " + f + " failures";
  }

  lemma RenderAggregate(head: string, c: string, f: string)
    requires |CaptureKinds(AggregatePattern(head))| == 2
    ensures Render(AggregatePattern(head), [c, f]) == head + c + " results and " + f + " failures"
  {
    var p2 := [Lit(" result"), OptChar('s'), Lit(" and "), Digits, Lit(" failure"), OptChar('s')];
    RenderAggregateTail(f);
    RenderDigits(c, p2, [f]);
    RenderLit(head, [Digits] + p2, [c, f]);
    assert [Lit(head)] + ([Digits] + p2) == AggregatePattern(head);
  }

  /** `<head>c results and f failures` yields `(c, f)`. */
  lemma AggregateLine(p: string, head: string, c: nat, f: nat, tail: string)
    requires head != [] && head[0] !in p
    ensures AggregateOf(p + head + NatToString(c) + " results and " + NatToString(f) + " failures" + tail, head)
      == Some((c, f))
  {
    var pat := AggregatePattern(head);
    var caps := [NatToString(c), NatToString(f)];
    AggregateKinds(head);
    RenderAggregate(head, caps[0], caps[1]);
    var line := p + head + NatToString(c) + " results and " + NatToString(f) + " failures" + tail;
    assert line == p + Render(pat, caps) + tail;
    AggregateWellFormed(head);
    SearchRendered(p, pat, caps, tail);
    ParseNatToString(c);
    ParseNatToString(f);
  }

  lemma RenderHistory(n: string, v: string)
    ensures Render(HistoryValue, [n, v]) == "round " + n + ": " + v
  {
    var pat := HistoryValue;
    var caps := [n, v];
    assert CaptureKinds(pat) == [false, true];
    assert pat[3..][1..] == [] && caps[1..][1..] == [];
    assert Render(pat[3..], caps[1..]) == v;
    assert pat[2..][1..] == pat[3..];
    assert Render(pat[2..], caps[1..]) == ": " + v;
    assert pat[1..][1..] == pat[2..];
    assert Render(pat[1..], caps) == n + ": " + v;
  }

  /** `round n: v` yields `n` and the value text `v`. */
  lemma HistoryLine(p: string, n: nat, v: string, tail: string)
    requires 'r' !in p && v != [] && AllRun(true, v)
    requires tail == [] || !RunChar(true, tail[0])
    ensures HistoryValueOf(p + "round " + NatToString(n) + ": " + v + tail) == Some((n, v))
  {
    var caps := [NatToString(n), v];
    RenderHistory(caps[0], v);
    var line := p + "round " + NatToString(n) + ": " + v + tail;
    assert line == p + Render(HistoryValue, caps) + tail;
    HistoryValueWellFormed();
    assert CaptureKinds(HistoryValue) == [false, true];
    SearchRendered(p, HistoryValue, caps, tail);
    ParseNatToString(n);
  }
}
