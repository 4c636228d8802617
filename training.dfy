/** The training-run controller of dashboard/app.py: the module-level
    `_active_training` / `_last_completed` pair driven by the start, status,
    stop and log-stream endpoints.  The `flwr run` subprocess is abstracted to
    a process that is alive or has exited with a code, and the thread that
    copies its output into a `deque(maxlen=500)` to explicit appends. */
module Training {
  import opened Wrappers
  import opened Text
  import opened Scans
  import Inventory

  // ---------------------------------------------------------------------
  // The request
  // ---------------------------------------------------------------------

  /** `TrainingRequest`; the values of `extra_config` are kept as the text
      `str()` gives them, in the dictionary's insertion order. */
  datatype TrainingRequest = TrainingRequest(
    framework: string,
    numRounds: int,
    strategy: string,
    localEpochs: int,
    batchSize: int,
    minFitClients: int,
    minAvailableClients: int,
    extraConfig: seq<(string, string)>)

  /** The keys of a dictionary are distinct. */
  predicate DistinctKeys(entries: seq<(string, string)>) {
    forall i, j :: 0 <= i < j < |entries| ==> entries[i].0 != entries[j].0
  }

  /** The field constraints a request is validated against before the handler runs. */
  predicate ValidRequest(req: TrainingRequest) {
    && req.framework in Inventory.Frameworks
    && 1 <= req.numRounds <= 100
    && 1 <= req.localEpochs <= 50
    && 1 <= req.batchSize <= 512
    && req.minFitClients >= 1
    && req.minAvailableClients >= 1
    && DistinctKeys(req.extraConfig)
  }

  /** A request that gives only the framework. */
  function DefaultRequest(framework: string): (req: TrainingRequest)
    requires framework in Inventory.Frameworks
    ensures ValidRequest(req) && req.framework == framework && req.extraConfig == []
    ensures req.numRounds == 3 && req.strategy == "FedAvg" && req.localEpochs == 1 && req.batchSize == 32
    ensures req.minFitClients == 2 && req.minAvailableClients == 2
  {
    TrainingRequest(framework, 3, "FedAvg", 1, 32, 2, 2, [])
  }

  // ---------------------------------------------------------------------
  // The --run-config string
  // ---------------------------------------------------------------------

  /** The six settings every run passes, in order. */
  function FixedSettings(req: TrainingRequest): seq<(string, string)> {
    [("num-server-rounds", IntToString(req.numRounds)),
     ("local-epochs", IntToString(req.localEpochs)),
     ("batch-size", IntToString(req.batchSize)),
     ("strategy", req.strategy),
     ("min-fit-clients", IntToString(req.minFitClients)),
     ("min-available-clients", IntToString(req.minAvailableClients))]
  }

  /** All settings of a run: the fixed ones, then the extras. */
  function Settings(req: TrainingRequest): seq<(string, string)> {
    FixedSettings(req) + req.extraConfig
  }

  /** `f"{k}={v}"`. */
  function Setting(kv: (string, string)): string {
    kv.0 + "=" + kv.1
  }

  function SettingTexts(settings: seq<(string, string)>): (parts: seq<string>)
    ensures |parts| == |settings| && forall i :: 0 <= i < |settings| ==> parts[i] == Setting(settings[i])
  {
    seq(|settings|, i requires 0 <= i < |settings| => Setting(settings[i]))
  }

  /** `run_config_str`: the settings as `key=value`, separated by single spaces. */
  function RunConfig(req: TrainingRequest): string {
    Join(SettingTexts(Settings(req)), ' ')
  }

  /** `key=value` read back: the text before the first `=` and the rest. */
  function SplitSetting(part: string): (kv: (string, string))
    ensures '=' !in kv.0
    ensures '=' in part ==> part == Setting(kv)
    ensures '=' !in part ==> kv == (part, "")
    decreases |part|
  {
    if part == [] then ("", "")
    else if part[0] == '=' then ("", part[1..])
    else
      var rest := SplitSetting(part[1..]);
      assert part == [part[0]] + part[1..];
      ([part[0]] + rest.0, rest.1)
  }

  /** How a `--run-config` string reads as a list of settings. */
  function ParseRunConfig(s: string): (settings: seq<(string, string)>)
    ensures |settings| == |Split(s, ' ')|
  {
    var parts := Split(s, ' ');
    seq(|parts|, i requires 0 <= i < |parts| => SplitSetting(parts[i]))
  }

  /** A setting whose key has no `=` reads back as itself. */
  lemma {:induction false} SplitSettingOf(kv: (string, string))
    requires '=' !in kv.0
    ensures SplitSetting(Setting(kv)) == kv
    decreases |kv.0|
  {
    if kv.0 != [] {
      var tail := (kv.0[1..], kv.1);
      SplitSettingOf(tail);
      assert Setting(kv)[0] == kv.0[0] && kv.0[0] in kv.0;
      assert Setting(kv)[1..] == Setting(tail);
      assert [kv.0[0]] + tail.0 == kv.0;
    } else {
      assert Setting(kv) == "=" + kv.1;
    }
  }

  /** A setting is written without spaces when its key and value have none. */
  predicate PlainSetting(kv: (string, string)) {
    ' ' !in kv.0 && '=' !in kv.0 && ' ' !in kv.1
  }

  lemma NumberIsPlain(n: int)
    ensures ' ' !in IntToString(n) && '=' !in IntToString(n)
  {
    var s := IntToString(n);
    var digits := if n >= 0 then s else s[1..];
    assert AllDigits(digits);
    assert s == digits || s == "-" + digits;
    assert forall i :: 0 <= i < |digits| ==> digits[i] != ' ' && digits[i] != '=';
  }

  lemma NumberSettingPlain(key: string, n: int)
    requires ' ' !in key && '=' !in key
    ensures PlainSetting((key, IntToString(n)))
  {
    NumberIsPlain(n);
  }

  lemma ServerKeysPlain()
    ensures ' ' !in "num-server-rounds" && '=' !in "num-server-rounds"
    ensures ' ' !in "strategy" && '=' !in "strategy"
    ensures ' ' !in "min-available-clients" && '=' !in "min-available-clients"
  {
  }

  lemma ClientKeysPlain()
    ensures ' ' !in "local-epochs" && '=' !in "local-epochs"
    ensures ' ' !in "batch-size" && '=' !in "batch-size"
    ensures ' ' !in "min-fit-clients" && '=' !in "min-fit-clients"
  {
  }

  /** The six fixed settings are plain when the strategy has no space. */
  lemma FixedSettingsPlain(req: TrainingRequest)
    requires ' ' !in req.strategy
    ensures var fixed := FixedSettings(req);
      && PlainSetting(fixed[0]) && PlainSetting(fixed[1]) && PlainSetting(fixed[2])
      && PlainSetting(fixed[3]) && PlainSetting(fixed[4]) && PlainSetting(fixed[5])
  {
    ServerKeysPlain();
    ClientKeysPlain();
    NumberSettingPlain("num-server-rounds", req.numRounds);
    NumberSettingPlain("local-epochs", req.localEpochs);
    NumberSettingPlain("batch-size", req.batchSize);
    NumberSettingPlain("min-fit-clients", req.minFitClients);
    NumberSettingPlain("min-available-clients", req.minAvailableClients);
  }

  /** Every setting of a run is plain when its strategy and extras are. */
  lemma SettingsPlain(req: TrainingRequest)
    requires ' ' !in req.strategy
    requires forall i :: 0 <= i < |req.extraConfig| ==> PlainSetting(req.extraConfig[i])
    ensures forall i :: 0 <= i < |Settings(req)| ==> PlainSetting(Settings(req)[i])
  {
    FixedSettingsPlain(req);
    var fixed := FixedSettings(req);
    var settings := Settings(req);
    forall i | 0 <= i < |settings|
      ensures PlainSetting(settings[i])
    {
      if i < 6 {
        assert settings[i] == fixed[i];
        assert i == 0 || i == 1 || i == 2 || i == 3 || i == 4 || i == 5;
      } else {
        assert settings[i] == req.extraConfig[i - 6];
      }
    }
  }

  /** Plain settings, written out and joined by spaces, read back as themselves. */
  lemma PlainSettingsRoundTrip(settings: seq<(string, string)>)
    requires |settings| >= 1
    requires forall i :: 0 <= i < |settings| ==> PlainSetting(settings[i])
    ensures ParseRunConfig(Join(SettingTexts(settings), ' ')) == settings
  {
    var parts := SettingTexts(settings);
    forall i | 0 <= i < |parts|
      ensures ' ' !in parts[i]
    {
      assert parts[i] == settings[i].0 + "=" + settings[i].1;
    }
    SplitJoin(parts, ' ');
    forall i | 0 <= i < |settings|
      ensures SplitSetting(parts[i]) == settings[i]
    {
      SplitSettingOf(settings[i]);
    }
  }

  /** The run-config string reads back as the six fixed settings in order
      followed by the extras in insertion order, when no key or value holds a
      space and no key holds `=`. */
  lemma RunConfigRoundTrip(req: TrainingRequest)
    requires ' ' !in req.strategy
    requires forall i :: 0 <= i < |req.extraConfig| ==> PlainSetting(req.extraConfig[i])
    ensures ParseRunConfig(RunConfig(req)) == Settings(req)
    ensures |Split(RunConfig(req), ' ')| == 6 + |req.extraConfig|
  {
    SettingsPlain(req);
    PlainSettingsRoundTrip(Settings(req));
  }

  /** `["flwr", "run", ".", "opennebula", "--run-config", run_config_str]`. */
  function SubmitCommand(flwrBin: string, req: TrainingRequest): (argv: seq<string>)
    ensures |argv| == 6 && argv[0] == flwrBin && argv[4] == "--run-config"
    ensures ' ' !in req.strategy && (forall i :: 0 <= i < |req.extraConfig| ==> PlainSetting(req.extraConfig[i]))
      ==> ParseRunConfig(argv[5]) == Settings(req)
  {
    if ' ' !in req.strategy && (forall i :: 0 <= i < |req.extraConfig| ==> PlainSetting(req.extraConfig[i])) then
      RunConfigRoundTrip(req);
      [flwrBin, "run", ".", "opennebula", "--run-config", RunConfig(req)]
    else [flwrBin, "run", ".", "opennebula", "--run-config", RunConfig(req)]
  }

  /** The loop of `start_training` that builds the run-config string. */
  method BuildRunConfig(req: TrainingRequest) returns (runConfig: string)
    ensures runConfig == RunConfig(req)
  {
    var parts := SettingTexts(FixedSettings(req));
    for i := 0 to |req.extraConfig|
      invariant parts == SettingTexts(FixedSettings(req) + req.extraConfig[..i])
    {
      var (k, v) := req.extraConfig[i];
      assert FixedSettings(req) + req.extraConfig[..i + 1] == FixedSettings(req) + req.extraConfig[..i] + [(k, v)];
      parts := parts + [k + "=" + v];
    }
    assert req.extraConfig[..|req.extraConfig|] == req.extraConfig;
    runConfig := Join(parts, ' ');
  }

  // ---------------------------------------------------------------------
  // The bounded output buffer
  // ---------------------------------------------------------------------

  /** `deque(maxlen=500)`. */
  const MaxOutputLines := 500

  /** The lines the reader thread stores: each without its trailing newlines. */
  function Stripped(raw: seq<string>): (lines: seq<string>)
    ensures |lines| == |raw| && forall i :: 0 <= i < |raw| ==> lines[i] == RStrip(raw[i], '\n')
  {
    seq(|raw|, i requires 0 <= i < |raw| => RStrip(raw[i], '\n'))
  }

  /** The output of one run, oldest first. */
  class OutputLines {
    var lines: seq<string>

    predicate Valid()
      reads this
    {
      |lines| <= MaxOutputLines
    }

    constructor ()
      ensures lines == [] && Valid()
    {
      lines := [];
    }

    /** `lines_deque.append(line.rstrip('\n'))`: the oldest line drops out
        once 500 are held. */
    method Append(line: string)
      requires Valid()
      modifies this
      ensures lines == Newest(old(lines) + [RStrip(line, '\n')], MaxOutputLines)
      ensures Valid()
    {
      lines := lines + [RStrip(line, '\n')];
      if |lines| > MaxOutputLines {
        lines := lines[1..];
      }
    }
  }

  /** `_reader_thread`: every line the process writes, appended in order. */
  method ReadOutput(output: OutputLines, raw: seq<string>)
    requires output.Valid()
    modifies output
    ensures output.lines == Newest(old(output.lines) + Stripped(raw), MaxOutputLines)
  {
    ghost var start := output.lines;
    for i := 0 to |raw|
      invariant output.Valid()
      invariant output.lines == Newest(start + Stripped(raw[..i]), MaxOutputLines)
    {
      assert start + Stripped(raw[..i + 1]) == (start + Stripped(raw[..i])) + [RStrip(raw[i], '\n')];
      NewestAppend(start + Stripped(raw[..i]), RStrip(raw[i], '\n'), MaxOutputLines);
      output.Append(raw[i]);
    }
    assert raw[..|raw|] == raw;
  }

  // ---------------------------------------------------------------------
  // Runs and the controller
  // ---------------------------------------------------------------------

  /** What `poll()` tells of the subprocess. */
  datatype Process = Alive | Exited(code: int)

  /** An HTTP reply: the endpoint's value or an `HTTPException`. */
  datatype Reply<T> = Ok(value: T) | HttpError(status: int, detail: string)

  /** `{"status": "started", "pid": ..., "framework": ...}`. */
  datatype Started = Started(pid: int, framework: string)

  /** `_last_completed`, without its duration. */
  datatype Completed = Completed(framework: string, config: TrainingRequest, exitCode: int, lastLines: seq<string>)

  /** The reply of `/api/training/status`, without the elapsed time. */
  datatype StatusReply =
    | Active(framework: string, config: TrainingRequest, lines: seq<string>)
    | Inactive(lastCompleted: Option<Completed>)

  /** `ActiveTraining`: a launched run. */
  class ActiveTraining {
    var process: Process
    const pid: int
    const framework: string
    const config: TrainingRequest
    const argv: seq<string>
    const cwd: string
    const output: OutputLines

    constructor (pid: int, config: TrainingRequest, argv: seq<string>, cwd: string)
      ensures process == Alive && this.pid == pid && framework == config.framework && this.config == config
      ensures this.argv == argv && this.cwd == cwd
      ensures fresh(output) && output.lines == []
    {
      process := Alive;
      this.pid := pid;
      framework := config.framework;
      this.config := config;
      this.argv := argv;
      this.cwd := cwd;
      output := new OutputLines();
    }

    /** The subprocess ends with return code `code`: on its own (what the
        `poll()` checks observe), or after `stop_training`'s SIGTERM, `kill`
        and `wait`. */
    method Exit(code: int)
      requires process == Alive
      modifies this
      ensures process == Exited(code)
    {
      process := Exited(code);
    }
  }

  /** The record `_last_completed` is set to when a run ends. */
  function CompletedOf(framework: string, config: TrainingRequest, code: int, lines: seq<string>): (c: Completed)
    ensures c.framework == framework && c.config == config && c.exitCode == code
    ensures |c.lastLines| == if |lines| < 20 then |lines| else 20
    ensures lines == lines[..|lines| - |c.lastLines|] + c.lastLines
  {
    Completed(framework, config, code, Newest(lines, 20))
  }

  /** `_active_training` and `_last_completed`. */
  class TrainingController {
    var active: ActiveTraining?
    var lastCompleted: Option<Completed>

    constructor ()
      ensures active == null && lastCompleted == None
    {
      active := null;
      lastCompleted := None;
    }

    /** A run is in progress: launched and not yet exited. */
    predicate Running()
      reads this, active
    {
      active != null && active.process == Alive
    }

    /** `start_training`: 409 while a run is alive; otherwise launch `flwr run`
        in the framework's demo directory with a fresh, empty output buffer.
        A run that exited but was never reported is replaced without being
        recorded. */
    method Start(req: TrainingRequest, flwrBin: string, demoBase: string, pid: int) returns (r: Reply<Started>)
      requires ValidRequest(req)
      modifies this
      ensures old(Running()) ==>
        r == HttpError(409, "Training already in progress") && active == old(active)
      ensures !old(Running()) ==>
        && r == Ok(Started(pid, req.framework))
        && active != null && fresh(active) && fresh(active.output)
        && active.process == Alive && active.pid == pid && active.config == req
        && active.framework == req.framework && active.output.lines == []
        && active.argv == SubmitCommand(flwrBin, req)
        && active.cwd == demoBase + "/" + req.framework
      ensures lastCompleted == old(lastCompleted)
    {
      if active != null && active.process == Alive {
        return HttpError(409, "Training already in progress");
      }
      var runConfig := BuildRunConfig(req);
      var argv := [flwrBin, "run", ".", "opennebula", "--run-config", runConfig];
      active := new ActiveTraining(pid, req, argv, demoBase + "/" + req.framework);
      r := Ok(Started(pid, req.framework));
    }

    /** `get_training_status`: a live run is reported with its last 20 lines;
        an exited one is recorded in `lastCompleted` and dropped, once; with no
        run the last record is reported. */
    method Status() returns (reply: StatusReply)
      modifies this
      ensures old(Running()) ==>
        && active == old(active) && active != null && lastCompleted == old(lastCompleted)
        && reply == Active(active.framework, active.config, Newest(active.output.lines, 20))
      ensures old(active) != null && old(active.process).Exited? ==>
        && lastCompleted == Some(CompletedOf(old(active.framework), old(active.config),
                                             old(active.process).code, old(active.output.lines)))
        && active == null && reply == Inactive(lastCompleted)
      ensures old(active) == null ==>
        active == null && lastCompleted == old(lastCompleted) && reply == Inactive(lastCompleted)
    {
      if active != null && active.process == Alive {
        return Active(active.framework, active.config, Newest(active.output.lines, 20));
      }
      if active != null {
        lastCompleted := Some(Completed(active.framework, active.config, active.process.code,
                                        Newest(active.output.lines, 20)));
        active := null;
      }
      reply := Inactive(lastCompleted);
    }

    /** `stop_training`: 404 unless a run is alive; otherwise the process is
        terminated (ending with `exitCode`), recorded, and dropped.  An exited
        run that was never reported stays in place. */
    method Stop(exitCode: int) returns (r: Reply<string>)
      modifies this, active
      ensures !old(Running()) ==>
        && r == HttpError(404, "No active training to stop")
        && active == old(active) && lastCompleted == old(lastCompleted)
        && (active != null ==> active.process == old(active.process))
      ensures old(Running()) ==>
        && r == Ok("stopped")
        && old(active).process == Exited(exitCode)
        && lastCompleted == Some(CompletedOf(old(active.framework), old(active.config),
                                             exitCode, old(active.output.lines)))
        && active == null
    {
      if active == null || active.process != Alive {
        return HttpError(404, "No active training to stop");
      }
      active.Exit(exitCode);
      lastCompleted := Some(Completed(active.framework, active.config, exitCode,
                                      Newest(active.output.lines, 20)));
      active := null;
      r := Ok("stopped");
    }

    /** One pass of the log stream's loop, from cursor `seen`. */
    method StreamPoll(seen: nat) returns (e: Emission)
      ensures active == null ==> e == StreamStep(None, seen)
      ensures active != null ==>
        e == StreamStep(Some(Snapshot(active.output.lines, active.process.Exited?, active.output.lines)), seen)
    {
      if active == null {
        return Emission([Complete], seen, true);
      }
      var lines := active.output.lines;
      var events: seq<Event> := [];
      var cursor := seen;
      if |lines| > seen {
        events := LineEventsFrom(lines, seen);
        cursor := |lines|;
      }
      if active.process.Exited? {
        // the flush reads the same buffer: nothing arrives between the reads here
        events := events + LineEvents(lines, cursor);
        return Emission(events + [Complete], cursor, true);
      }
      e := Emission(events, cursor, false);
    }
  }

  // ---------------------------------------------------------------------
  // The log stream
  // ---------------------------------------------------------------------

  /** A server-sent event: `data: {"line": ...}` or `event: complete`. */
  datatype Event = Line(text: string) | Complete

  /** What one pass emits, the cursor after it, and whether the stream ended. */
  datatype Emission = Emission(events: seq<Event>, seen: nat, finished: bool)

  /** What one pass reads: the buffer, whether `poll()` then reported an exit,
      and the buffer read again for the final flush. */
  datatype Snapshot = Snapshot(lines: seq<string>, exited: bool, flushed: seq<string>)

  /** The events for `lines[seen:]`. */
  function LineEvents(lines: seq<string>, seen: nat): (events: seq<Event>)
    ensures |events| == if |lines| > seen then |lines| - seen else 0
    ensures forall k :: 0 <= k < |events| ==> events[k] == Line(lines[seen + k])
  {
    if |lines| > seen then seq(|lines| - seen, k requires 0 <= k < |lines| - seen => Line(lines[seen + k]))
    else []
  }

  /** The loop `for line in lines[seen:]: yield ...`. */
  method LineEventsFrom(lines: seq<string>, seen: nat) returns (events: seq<Event>)
    requires seen <= |lines|
    ensures events == LineEvents(lines, seen)
  {
    events := [];
    for k := seen to |lines|
      invariant events == LineEvents(lines[..k], seen)
    {
      events := events + [Line(lines[k])];
    }
    assert lines[..|lines|] == lines;
  }

  /** One pass of `event_generator`: no run ends the stream; otherwise the
      lines past the cursor are sent and the cursor moves to the buffer's
      length; an exited process flushes what arrived since and ends it. */
  function StreamStep(run: Option<Snapshot>, seen: nat): (e: Emission)
    ensures e.finished <==> run.None? || run.value.exited
    ensures e.seen >= seen
  {
    match run
    case None => Emission([Complete], seen, true)
    case Some(snap) =>
      var cursor := if |snap.lines| > seen then |snap.lines| else seen;
      var events := LineEvents(snap.lines, seen);
      if snap.exited then Emission(events + LineEvents(snap.flushed, cursor) + [Complete], cursor, true)
      else Emission(events, cursor, false)
  }

  /** The stream ends, with `event: complete` last, exactly when there is no
      run or its process has exited; the cursor never moves back. */
  lemma StreamEnds(run: Option<Snapshot>, seen: nat)
    ensures var e := StreamStep(run, seen);
      && (e.finished <==> run.None? || run.value.exited)
      && (e.finished <==> |e.events| > 0 && e.events[|e.events| - 1] == Complete)
      && e.seen >= seen
  {
  }

  /** Below the buffer's capacity the cursor delivers every appended line,
      in order, exactly once. */
  lemma StreamDeliversBelowCapacity(lines: seq<string>, raw: seq<string>)
    requires |lines| + |raw| <= MaxOutputLines
    ensures var after := Newest(lines + Stripped(raw), MaxOutputLines);
      var e := StreamStep(Some(Snapshot(after, false, after)), |lines|);
      && e.events == LineEvents(Stripped(raw), 0)
      && e.seen == |lines| + |raw|
  {
    var after := Newest(lines + Stripped(raw), MaxOutputLines);
    assert after == lines + Stripped(raw);
    var e := StreamStep(Some(Snapshot(after, false, after)), |lines|);
    assert |e.events| == |raw|;
    forall k | 0 <= k < |raw|
      ensures e.events[k] == LineEvents(Stripped(raw), 0)[k]
    {
      assert after[|lines| + k] == Stripped(raw)[k];
    }
  }

  /** Once the buffer is full and the cursor has reached its end, lines that
      arrive later are never sent: the buffer keeps them, its length stays 500,
      and the pass emits nothing and leaves the cursor where it was. */
  lemma StreamStallsWhenFull(lines: seq<string>, raw: seq<string>)
    requires |lines| == MaxOutputLines && raw != []
    ensures var after := Newest(lines + Stripped(raw), MaxOutputLines);
      var e := StreamStep(Some(Snapshot(after, false, after)), MaxOutputLines);
      && e.events == [] && e.seen == MaxOutputLines && !e.finished
      && after[MaxOutputLines - 1] == RStrip(raw[|raw| - 1], '\n')
  {
    var all := lines + Stripped(raw);
    assert all[|all| - 1] == Stripped(raw)[|raw| - 1];
  }
}
