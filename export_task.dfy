/**
 * The export coordinator: it checks the credentials and the options,
 * resolves the compression, output and destination types by id or by
 * localized name, checks every `key:value` property against the type's
 * setting specifiers, builds the export request and then polls the task
 * list until the task it submitted succeeds or fails.
 *
 * Every service call (the node ids, the three type lists, the submission,
 * each poll) is a parameter holding what that call returned.
 */
module ExportTask {
  import opened Wrappers
  import opened JsValues

  // ---------------------------------------------------------------------
  // splitOnce
  // ---------------------------------------------------------------------

  /**
   * The accumulator of the `reduce` in `splitOnce` after visiting
   * positions `0 .. n-1`: position 0 resets it to "", position 1 sets it
   * to that piece, every later position appends ":" and its piece.
   */
  function Rejoined(arr: seq<string>, n: nat): string
    requires 1 <= n <= |arr|
  {
    if n == 1 then ""
    else if n == 2 then arr[1]
    else Rejoined(arr, n - 1) + ":" + arr[n - 1]
  }

  /** `splitOnce(str, element)`: the first piece, and the other pieces put back together with ":". */
  function SplitOnce(str: string, element: char): (r: seq<string>)
    ensures |r| == 2
  {
    var arr := Split(str, element);
    [arr[0], Rejoined(arr, |arr|)]
  }

  /** The reduce puts the tail of the pieces back together with ":". */
  lemma {:induction false} RejoinedIsJoin(arr: seq<string>, n: nat)
    requires 2 <= n <= |arr|
    ensures Rejoined(arr, n) == Join(arr[1..n], ":")
  {
    if n > 2 {
      RejoinedIsJoin(arr, n - 1);
      assert arr[1..n] == arr[1..n - 1] + [arr[n - 1]];
      JoinSnoc(arr[1..n - 1], arr[n - 1], ":");
    } else {
      assert arr[1..2] == [arr[1]];
    }
  }

  /**
   * `splitOnce(p, ":")` cuts `p` at its first ':': the key has no ':' and
   * key, ':' and value give back `p`. Without a ':' the value is "".
   */
  lemma SplitOnceAtColon(p: string)
    ensures var r := SplitOnce(p, ':');
      ':' !in r[0] && (':' in p ==> r[0] + ":" + r[1] == p) && (':' !in p ==> r == [p, ""])
  {
    var arr := Split(p, ':');
    if |arr| >= 2 {
      RejoinedIsJoin(arr, |arr|);
      assert arr[1..|arr|] == arr[1..];
    } else {
      assert Join(arr, ":") == arr[0];
    }
  }

  // ---------------------------------------------------------------------
  // Types and properties
  // ---------------------------------------------------------------------

  /** A setting of an export type: its key and its specifier type name. The default value is not used. */
  datatype SettingSpecifier = SettingSpecifier(key: string, kind: string)

  datatype ExportTypeInfo = ExportTypeInfo(id: string, localizedName: string, settingSpecifiers: seq<SettingSpecifier>)

  const ToggleSpecifier: string := "net.solarnetwork.settings.ToggleSettingSpecifier"

  /** `t.id === want || t.localizedName === want`; an absent option matches nothing. */
  predicate Names(t: ExportTypeInfo, want: Option<string>) {
    want == Some(t.id) || want == Some(t.localizedName)
  }

  /** The type an option selects: the first whose id or localized name equals it. */
  function FindType(types: seq<ExportTypeInfo>, want: Option<string>): Option<ExportTypeInfo> {
    Find(types, t => Names(t, want))
  }

  /** The type found is the first one named by the option; there is none exactly when no type is named. */
  lemma FindTypeFirst(types: seq<ExportTypeInfo>, want: Option<string>)
    ensures FindType(types, want).None? <==> forall k :: 0 <= k < |types| ==> !Names(types[k], want)
    ensures FindType(types, want).Some? ==>
      exists k :: 0 <= k < |types| && types[k] == FindType(types, want).value &&
        Names(types[k], want) && forall j :: 0 <= j < k ==> !Names(types[j], want)
  {
    var k := FindIndex(types, t => Names(t, want));
    if k >= 0 {
      assert types[k] == FindType(types, want).value;
    }
  }

  /** A `key:value` option split at its first ':', with the specifier of its key, if any. */
  datatype ResolvedProp = ResolvedProp(both: seq<string>, spec: Option<SettingSpecifier>)

  /** `settingSpecifiers.find(s => s.key === both[0])` for each option. */
  function ResolveProps(props: seq<string>, t: ExportTypeInfo): (r: seq<ResolvedProp>)
    ensures |r| == |props|
  {
    seq(|props|, k requires 0 <= k < |props| =>
      var both := SplitOnce(props[k], ':');
      ResolvedProp(both, Find(t.settingSpecifiers, (s: SettingSpecifier) => s.key == both[0])))
  }

  /** Where option `i` resolves, its specifier has the key before the first ':'; it fails only when no specifier has that key. */
  lemma ResolvedKeys(props: seq<string>, t: ExportTypeInfo, i: nat)
    requires i < |props|
    ensures var r := ResolveProps(props, t)[i];
      r.both == SplitOnce(props[i], ':') &&
      (r.spec.Some? ==> r.spec.value in t.settingSpecifiers && r.spec.value.key == r.both[0]) &&
      (r.spec.Some? ==> exists k :: (0 <= k < |t.settingSpecifiers| && r.spec.value == t.settingSpecifiers[k] &&
        forall j :: 0 <= j < k ==> t.settingSpecifiers[j].key != r.both[0])) &&
      (r.spec.None? <==> forall s :: s in t.settingSpecifiers ==> s.key != r.both[0])
  {
    var r := ResolveProps(props, t)[i];
    if r.spec.None? {
      forall s | s in t.settingSpecifiers ensures s.key != r.both[0] {
        var k :| 0 <= k < |t.settingSpecifiers| && t.settingSpecifiers[k] == s;
      }
    }
  }

  /** The position of the first option whose key has no specifier, or -1. */
  function FirstUnresolved(rs: seq<ResolvedProp>): int {
    FindIndex(rs, (r: ResolvedProp) => r.spec.None?)
  }

  /** A service property value: a toggle becomes a boolean, anything else stays the string given. */
  datatype PropValue = StrProp(s: string) | BoolProp(b: bool)

  /** `t.type === Toggle ? (v === "true") : v`. */
  function Coerced(r: ResolvedProp): PropValue
    requires r.spec.Some? && |r.both| == 2
  {
    if r.spec.value.kind == ToggleSpecifier then BoolProp(r.both[1] == "true") else StrProp(r.both[1])
  }

  predicate AllResolved(rs: seq<ResolvedProp>) {
    forall k :: 0 <= k < |rs| ==> rs[k].spec.Some? && |rs[k].both| == 2
  }

  /** The service-property record after assigning each option in turn. */
  function ServiceProperties(rs: seq<ResolvedProp>): map<string, PropValue>
    requires AllResolved(rs)
  {
    if |rs| == 0 then map[]
    else
      var last := rs[|rs| - 1];
      ServiceProperties(rs[..|rs| - 1])[last.both[0] := Coerced(last)]
  }

  /** The record has one key per distinct option key. */
  lemma {:induction false} ServiceKeys(rs: seq<ResolvedProp>)
    requires AllResolved(rs)
    ensures forall key :: key in ServiceProperties(rs) <==> exists k :: 0 <= k < |rs| && rs[k].both[0] == key
  {
    if |rs| > 0 {
      var init := rs[..|rs| - 1];
      assert forall k :: 0 <= k < |init| ==> init[k] == rs[k];
      ServiceKeys(init);
    }
  }

  /** Each key holds the coerced value of the LAST option with that key. */
  lemma {:induction false} LastAssignmentWins(rs: seq<ResolvedProp>, k: nat)
    requires AllResolved(rs) && k < |rs|
    requires forall j :: k < j < |rs| ==> rs[j].both[0] != rs[k].both[0]
    ensures rs[k].both[0] in ServiceProperties(rs)
    ensures ServiceProperties(rs)[rs[k].both[0]] == Coerced(rs[k])
  {
    var init := rs[..|rs| - 1];
    assert forall j :: 0 <= j < |init| ==> init[j] == rs[j];
    if k < |rs| - 1 {
      LastAssignmentWins(init, k);
    }
  }

  /** A toggle option holds true exactly when its value is the text "true". */
  lemma ToggleCoercion(r: ResolvedProp)
    requires r.spec.Some? && |r.both| == 2
    ensures r.spec.value.kind == ToggleSpecifier ==> (Coerced(r) == BoolProp(true) <==> r.both[1] == "true")
    ensures r.spec.value.kind != ToggleSpecifier ==> Coerced(r) == StrProp(r.both[1])
  {
  }

  /** The loop of `startExportTask` that fills a service-property record. */
  method BuildServiceProperties(rs: seq<ResolvedProp>) returns (props: map<string, PropValue>)
    requires AllResolved(rs)
    ensures props == ServiceProperties(rs)
  {
    props := map[];
    for k := 0 to |rs|
      invariant AllResolved(rs[..k])
      invariant props == ServiceProperties(rs[..k])
    {
      var r := rs[k];
      var key, value := r.both[0], r.both[1];
      assert rs[..k + 1][..k] == rs[..k];
      if r.spec.value.kind == ToggleSpecifier {
        props := props[key := BoolProp(value == "true")];
      } else {
        props := props[key := StrProp(value)];
      }
    }
    assert rs[..|rs|] == rs;
  }

  // ---------------------------------------------------------------------
  // Polling
  // ---------------------------------------------------------------------

  /** The `task` part of a task-list entry; a message that is null or undefined is None. */
  datatype TaskState = TaskState(success: bool, statusKey: Option<string>, message: Option<string>)

  /** A task-list entry: the name of the task's configuration and its state. */
  datatype TaskEntry = TaskEntry(name: string, task: TaskState)

  /** What one look at the task list decides. */
  datatype PollDecision =
    | KeepPolling
    | Succeeded
    | TaskFailed(log: string)
    | PollFailed(error: string)

  /** One pass of the poll loop over the task list that `listExportTasks` returned. */
  function PollStep(tasks: Result<seq<TaskEntry>, string>, name: string): PollDecision {
    if tasks.Err? then PollFailed("Failed to get export tasks: " + tasks.error)
    else
      var task := Find(tasks.value, (t: TaskEntry) => t.name == name);
      if task.None? then PollFailed("Warning: Lost track of task '" + name + "', aborting.")
      else
        var result := task.value.task;
        if result.success then Succeeded
        else if result.statusKey == Some("q") || result.message.None? then KeepPolling
        else if result.statusKey == Some("c") then TaskFailed("Export task failed: " + result.message.value)
        else KeepPolling
  }

  /** How the poll loop ends over a finite run of observed task lists; `StillPolling` when they run out first. */
  datatype PollOutcome = Completed | CompletedAfterFailure(log: string) | PollError(error: string) | StillPolling

  function PollRun(observed: seq<Result<seq<TaskEntry>, string>>, name: string): PollOutcome {
    if |observed| == 0 then StillPolling
    else
      match PollStep(observed[0], name)
      case KeepPolling => PollRun(observed[1..], name)
      case Succeeded => Completed
      case TaskFailed(log) => CompletedAfterFailure(log)
      case PollFailed(e) => PollError(e)
  }

  /** The `while (true)` loop of `startExportTask`, over the task lists it would observe. */
  method PollExportTask(observed: seq<Result<seq<TaskEntry>, string>>, name: string) returns (outcome: PollOutcome)
    ensures outcome == PollRun(observed, name)
  {
    var i := 0;
    while i < |observed|
      invariant 0 <= i <= |observed|
      invariant PollRun(observed[i..], name) == PollRun(observed, name)
    {
      var decision := PollStep(observed[i], name);
      match decision {
        case KeepPolling =>
          assert observed[i..][1..] == observed[i + 1..];
          i := i + 1;
        case Succeeded =>
          return Completed;
        case TaskFailed(log) =>
          return CompletedAfterFailure(log);
        case PollFailed(e) =>
          return PollError(e);
      }
    }
    return StillPolling;
  }

  /** The loop is still running exactly when every observation says to keep polling. */
  lemma {:induction false} PollRunsOut(observed: seq<Result<seq<TaskEntry>, string>>, name: string)
    ensures PollRun(observed, name) == StillPolling <==>
      forall k :: 0 <= k < |observed| ==> PollStep(observed[k], name) == KeepPolling
  {
    if |observed| > 0 {
      PollRunsOut(observed[1..], name);
      assert forall k :: 1 <= k < |observed| ==> observed[1..][k - 1] == observed[k];
    }
  }

  /** The first observation that does not say to keep polling decides the outcome. */
  lemma {:induction false} FirstDecisionWins(observed: seq<Result<seq<TaskEntry>, string>>, name: string, k: nat)
    requires k < |observed|
    requires forall j :: 0 <= j < k ==> PollStep(observed[j], name) == KeepPolling
    requires PollStep(observed[k], name) != KeepPolling
    ensures PollRun(observed, name) == PollRun([observed[k]], name)
  {
    if k > 0 {
      assert PollStep(observed[0], name) == KeepPolling;
      assert forall j :: 0 <= j < k - 1 ==> observed[1..][j] == observed[j + 1];
      FirstDecisionWins(observed[1..], name, k - 1);
      assert observed[1..][k - 1] == observed[k];
    }
  }

  /**
   * The outcomes of one look at a task list: a missing task is lost, a
   * successful one stops, a queued one or one without a message goes on,
   * a cancelled one with a message stops after logging, any other state goes on.
   */
  lemma PollStepCases(entries: seq<TaskEntry>, name: string, k: nat)
    requires k < |entries| && entries[k].name == name
    requires forall j :: 0 <= j < k ==> entries[j].name != name
    ensures var s := entries[k].task; var d := PollStep(Ok(entries), name);
      && (s.success ==> d == Succeeded)
      && (!s.success && (s.statusKey == Some("q") || s.message.None?) ==> d == KeepPolling)
      && (!s.success && s.statusKey == Some("c") && s.message.Some? ==> d == TaskFailed("Export task failed: " + s.message.value))
      && (!s.success && s.message.Some? && s.statusKey != Some("q") && s.statusKey != Some("c") ==> d == KeepPolling)
  {
    var i := FindIndex(entries, (t: TaskEntry) => t.name == name);
    assert i == k;
  }

  /** A task list without an entry of that name ends the loop with the lost-track error. */
  lemma LostTask(entries: seq<TaskEntry>, name: string)
    requires forall k :: 0 <= k < |entries| ==> entries[k].name != name
    ensures PollStep(Ok(entries), name) == PollFailed("Warning: Lost track of task '" + name + "', aborting.")
  {
  }

  // ---------------------------------------------------------------------
  // startExportTask
  // ---------------------------------------------------------------------

  /** The SolarNetwork credentials; an empty string is a missing value. */
  datatype SnCredentials = SnCredentials(token: string, secret: string)

  /** The options as `opts` holds them; None is undefined. */
  datatype ExportOptions = ExportOptions(
    start: Option<string>, end: Option<string>, source: Option<string>,
    compression: Option<string>, output: Option<string>, destination: Option<string>,
    aggregation: Option<string>, outputProp: seq<string>, destinationProp: seq<string>)

  /** What the list calls returned for the three kinds of export type, in the order they are made. */
  datatype TypeLists = TypeLists(
    compression: Result<seq<ExportTypeInfo>, string>,
    output: Result<seq<ExportTypeInfo>, string>,
    destination: Result<seq<ExportTypeInfo>, string>)

  datatype DatumFilter = DatumFilter(startDate: string, endDate: string, aggregation: Option<string>,
                                     nodeIds: seq<int>, sourceId: string)

  datatype ServiceConfig = ServiceConfig(serviceIdentifier: string, serviceProperties: map<string, PropValue>)

  /** The export task submitted: its name, filter, compression key, output and destination services. */
  datatype ExportRequest = ExportRequest(name: string, filter: DatumFilter, compressionTypeKey: string,
                                         output: ServiceConfig, destination: ServiceConfig)

  /** A template-literal rendering of an option. */
  function OptionText(o: Option<string>): string {
    if o.None? then "undefined" else o.value
  }

  /** `${both}` for a split option: its two parts joined by ",". */
  function PropText(r: ResolvedProp): string {
    Join(r.both, ",")
  }

  /** The types the three options select. */
  datatype SelectedTypes = SelectedTypes(compression: ExportTypeInfo, output: ExportTypeInfo, destination: ExportTypeInfo)

  /**
   * The checks made before any type is looked up, in order: the
   * credentials, the node ids, the required options, then the three type lists.
   */
  function PreflightError(sn: Option<SnCredentials>, nodeIds: Result<seq<int>, string>, opts: ExportOptions,
                          types: TypeLists): Option<string>
  {
    if sn.None? then Some("You must authenticate against SolarNetwork")
    else if sn.value.token == "" then Some("You must provide a token")
    else if sn.value.secret == "" then Some("You must provide a secret")
    else if nodeIds.Err? then Some("API call to get nodes failed: " + nodeIds.error)
    else if opts.start.None? || opts.end.None? then Some("Start and end options must be provided")
    else if opts.source.None? then Some("Source expression must be provided")
    else if opts.output.None? then Some("Output identifier must be provided")
    else if opts.destination.None? then Some("Destination identifier must be provided")
    else if types.compression.Err? then Some("Failed to fetch compression types: " + types.compression.error)
    else if types.output.Err? then Some("Failed to fetch compression types: " + types.output.error)
    else if types.destination.Err? then Some("Failed to fetch compression types: " + types.destination.error)
    else None
  }

  /** The type lookups, compression first. */
  function SelectTypes(types: TypeLists, opts: ExportOptions): Result<SelectedTypes, string>
    requires types.compression.Ok? && types.output.Ok? && types.destination.Ok?
  {
    var compressionType := FindType(types.compression.value, opts.compression);
    var outputType := FindType(types.output.value, opts.output);
    var destinationType := FindType(types.destination.value, opts.destination);
    if compressionType.None? then Err("Unknown compression type " + OptionText(opts.compression))
    else if outputType.None? then Err("Unknown output type " + OptionText(opts.output))
    else if destinationType.None? then Err("Unknown destination type " + OptionText(opts.destination))
    else Ok(SelectedTypes(compressionType.value, outputType.value, destinationType.value))
  }

  /** The property checks: every output option, then every destination option. */
  function PropertyError(outputProps: seq<ResolvedProp>, destinationProps: seq<ResolvedProp>): Option<string> {
    var badOutput := FirstUnresolved(outputProps);
    var badDestination := FirstUnresolved(destinationProps);
    if badOutput >= 0 then Some("Output property not found: " + PropText(outputProps[badOutput]))
    else if badDestination >= 0 then Some("Destination property not found: " + PropText(destinationProps[badDestination]))
    else None
  }

  /** The request that is submitted once every check has passed. */
  function RequestOf(name: string, filter: DatumFilter, sel: SelectedTypes,
                     outputProps: seq<ResolvedProp>, destinationProps: seq<ResolvedProp>): ExportRequest
    requires AllResolved(outputProps) && AllResolved(destinationProps)
  {
    ExportRequest(name, filter, sel.compression.id,
      ServiceConfig(sel.output.id, ServiceProperties(outputProps)),
      ServiceConfig(sel.destination.id, ServiceProperties(destinationProps)))
  }

  /** The checks before submission, in the order `startExportTask` makes them, and the request they lead to. */
  function PrepareExport(sn: Option<SnCredentials>, nodeIds: Result<seq<int>, string>, opts: ExportOptions,
                         name: string, types: TypeLists): Result<ExportRequest, string>
  {
    var pre := PreflightError(sn, nodeIds, opts, types);
    if pre.Some? then Err(pre.value)
    else
      var sel := SelectTypes(types, opts);
      if sel.Err? then Err(sel.error)
      else
        var outputProps := ResolveProps(opts.outputProp, sel.value.output);
        var destinationProps := ResolveProps(opts.destinationProp, sel.value.destination);
        var bad := PropertyError(outputProps, destinationProps);
        if bad.Some? then Err(bad.value)
        else
          UnresolvedFound(outputProps);
          UnresolvedFound(destinationProps);
          var filter := DatumFilter(opts.start.value, opts.end.value, opts.aggregation, nodeIds.value, opts.source.value);
          Ok(RequestOf(name, filter, sel.value, outputProps, destinationProps))
  }

  /** A run of `startExportTask`: refused before submission, or submitted and then polled. */
  datatype ExportRun = Refused(error: string) | Submitted(request: ExportRequest, poll: PollOutcome)

  /** What `startExportTask` resolves to; None while the poll loop has not ended. */
  function Returned(run: ExportRun): Option<Result<(), string>> {
    match run
    case Refused(e) => Some(Err(e))
    case Submitted(_, PollError(e)) => Some(Err(e))
    case Submitted(_, StillPolling) => None
    case Submitted(_, _) => Some(Ok(()))
  }

  /** The run as a function of what the service calls returned. */
  function ExportRunOf(sn: Option<SnCredentials>, nodeIds: Result<seq<int>, string>, opts: ExportOptions, name: string,
                       types: TypeLists, submitted: Result<(), string>,
                       observed: seq<Result<seq<TaskEntry>, string>>): ExportRun
  {
    var prepared := PrepareExport(sn, nodeIds, opts, name, types);
    if prepared.Err? then Refused(prepared.error) else Submitted(prepared.value, PollRun(observed, name))
  }

  /**
   * `startExportTask`. `name` is the generated task name, `submitted` what
   * the submission returned and `observed` the task lists the poll loop
   * would see.
   */
  method StartExportTask(sn: Option<SnCredentials>, nodeIds: Result<seq<int>, string>, opts: ExportOptions,
                         name: string, types: TypeLists, submitted: Result<(), string>,
                         observed: seq<Result<seq<TaskEntry>, string>>) returns (run: ExportRun)
    ensures run == ExportRunOf(sn, nodeIds, opts, name, types, submitted, observed)
  {
    var pre := PreflightError(sn, nodeIds, opts, types);
    if pre.Some? {
      return Refused(pre.value);
    }
    var sel := SelectTypes(types, opts);
    if sel.Err? {
      return Refused(sel.error);
    }
    var outputProps := ResolveProps(opts.outputProp, sel.value.output);
    var destinationProps := ResolveProps(opts.destinationProp, sel.value.destination);
    var bad := PropertyError(outputProps, destinationProps);
    if bad.Some? {
      return Refused(bad.value);
    }
    UnresolvedFound(outputProps);
    UnresolvedFound(destinationProps);
    var filter := DatumFilter(opts.start.value, opts.end.value, opts.aggregation, nodeIds.value, opts.source.value);
    var outputProperties := BuildServiceProperties(outputProps);
    var destinationProperties := BuildServiceProperties(destinationProps);
    var request := ExportRequest(name, filter, sel.value.compression.id,
      ServiceConfig(sel.value.output.id, outputProperties),
      ServiceConfig(sel.value.destination.id, destinationProperties));
    // the submission's result is not consulted
    var outcome := PollExportTask(observed, name);
    return Submitted(request, outcome);
  }

  /** No unresolved option means every option resolved. */
  lemma UnresolvedFound(rs: seq<ResolvedProp>)
    requires forall k :: 0 <= k < |rs| ==> |rs[k].both| == 2
    ensures FirstUnresolved(rs) == -1 <==> AllResolved(rs)
  {
  }

  /** Credentials with a token and a secret. */
  predicate Credentialed(sn: Option<SnCredentials>) {
    sn.Some? && sn.value.token != "" && sn.value.secret != ""
  }

  /** The error of the first type list that failed: compression, then output, then destination. */
  function FirstFailedList(types: TypeLists): Option<string> {
    if types.compression.Err? then Some(types.compression.error)
    else if types.output.Err? then Some(types.output.error)
    else if types.destination.Err? then Some(types.destination.error)
    else None
  }

  /**
   * The checks refuse in the code's order: each one, once every earlier one
   * has passed, gives its own message (missing credentials before the node
   * ids, the node ids before the options, the options before the type
   * lists); and a failed output or destination list is reported with the
   * compression list's message.
   */
  lemma PreflightOrder(sn: Option<SnCredentials>, nodeIds: Result<seq<int>, string>, opts: ExportOptions,
                       types: TypeLists)
    ensures sn.None? ==> PreflightError(sn, nodeIds, opts, types) == Some("You must authenticate against SolarNetwork")
    ensures sn.Some? && sn.value.token == "" ==> PreflightError(sn, nodeIds, opts, types) == Some("You must provide a token")
    ensures sn.Some? && sn.value.token != "" && sn.value.secret == "" ==>
      PreflightError(sn, nodeIds, opts, types) == Some("You must provide a secret")
    ensures Credentialed(sn) && nodeIds.Err? ==>
      PreflightError(sn, nodeIds, opts, types) == Some("API call to get nodes failed: " + nodeIds.error)
    ensures Credentialed(sn) && nodeIds.Ok? && (opts.start.None? || opts.end.None?) ==>
      PreflightError(sn, nodeIds, opts, types) == Some("Start and end options must be provided")
    ensures Credentialed(sn) && nodeIds.Ok? && opts.start.Some? && opts.end.Some? && opts.source.None? ==>
      PreflightError(sn, nodeIds, opts, types) == Some("Source expression must be provided")
    ensures (Credentialed(sn) && nodeIds.Ok? && opts.start.Some? && opts.end.Some? && opts.source.Some? &&
      opts.output.None?) ==>
      PreflightError(sn, nodeIds, opts, types) == Some("Output identifier must be provided")
    ensures (Credentialed(sn) && nodeIds.Ok? && opts.start.Some? && opts.end.Some? && opts.source.Some? &&
      opts.output.Some? && opts.destination.None?) ==>
      PreflightError(sn, nodeIds, opts, types) == Some("Destination identifier must be provided")
    ensures (Credentialed(sn) && nodeIds.Ok? && opts.start.Some? && opts.end.Some? && opts.source.Some? &&
      opts.output.Some? && opts.destination.Some? && FirstFailedList(types).Some?) ==>
      PreflightError(sn, nodeIds, opts, types) == Some("Failed to fetch compression types: " + FirstFailedList(types).value)
    ensures PreflightError(sn, nodeIds, opts, types).None? ==>
      sn.Some? && nodeIds.Ok? && opts.start.Some? && opts.end.Some? && opts.source.Some? &&
      opts.output.Some? && opts.destination.Some?
    ensures PreflightError(sn, nodeIds, opts, types).None? || PreflightError(sn, nodeIds, opts, types) ==
      PreflightError(sn, nodeIds, opts, TypeLists(Ok([]), Ok([]), Ok([]))) ||
      (FirstFailedList(types).Some? &&
       PreflightError(sn, nodeIds, opts, types) == Some("Failed to fetch compression types: " + FirstFailedList(types).value))
  {
    var okLists := TypeLists(Ok([]), Ok([]), Ok([]));
    if !Credentialed(sn) || nodeIds.Err? || opts.start.None? || opts.end.None? || opts.source.None? ||
       opts.output.None? || opts.destination.None? {
      assert PreflightError(sn, nodeIds, opts, types) == PreflightError(sn, nodeIds, opts, okLists);
    } else {
      assert PreflightError(sn, nodeIds, opts, okLists).None?;
    }
  }

  /** A failed check refuses the export with its message: nothing is selected, checked or submitted. */
  lemma RefusedBeforeSubmission(sn: Option<SnCredentials>, nodeIds: Result<seq<int>, string>, opts: ExportOptions,
                                name: string, types: TypeLists, submitted: Result<(), string>,
                                observed: seq<Result<seq<TaskEntry>, string>>)
    requires PreflightError(sn, nodeIds, opts, types).Some?
    ensures PrepareExport(sn, nodeIds, opts, name, types) == Err(PreflightError(sn, nodeIds, opts, types).value)
    ensures ExportRunOf(sn, nodeIds, opts, name, types, submitted, observed) ==
      Refused(PreflightError(sn, nodeIds, opts, types).value)
    ensures Returned(ExportRunOf(sn, nodeIds, opts, name, types, submitted, observed)) ==
      Some(Err(PreflightError(sn, nodeIds, opts, types).value))
  {
  }

  /** The submission's own result never changes the run. */
  lemma SubmitResultIgnored(sn: Option<SnCredentials>, nodeIds: Result<seq<int>, string>, opts: ExportOptions,
                            name: string, types: TypeLists, s1: Result<(), string>, s2: Result<(), string>,
                            observed: seq<Result<seq<TaskEntry>, string>>)
    ensures ExportRunOf(sn, nodeIds, opts, name, types, s1, observed) == ExportRunOf(sn, nodeIds, opts, name, types, s2, observed)
  {
  }

  /** A task that fails with status 'c' still makes `startExportTask` return ok. */
  lemma FailedTaskReturnsOk(request: ExportRequest, log: string)
    ensures Returned(Submitted(request, CompletedAfterFailure(log))) == Some(Ok(()))
  {
  }

  /**
   * The property check passes exactly when every output option and every
   * destination option names a setting of its type; otherwise the first
   * output option that does not (or, when all of them do, the first such
   * destination option) is reported with both its parts.
   */
  lemma PropertyCheck(op: seq<string>, dp: seq<string>, ot: ExportTypeInfo, dt: ExportTypeInfo)
    ensures var e := PropertyError(ResolveProps(op, ot), ResolveProps(dp, dt));
      e.None? <==>
        && (forall k :: 0 <= k < |op| ==> exists s :: s in ot.settingSpecifiers && s.key == SplitOnce(op[k], ':')[0])
        && (forall k :: 0 <= k < |dp| ==> exists s :: s in dt.settingSpecifiers && s.key == SplitOnce(dp[k], ':')[0])
  {
    AllOptionsResolve(op, ot);
    AllOptionsResolve(dp, dt);
  }

  /** No option is left unresolved exactly when every option's key names a setting of the type. */
  lemma AllOptionsResolve(props: seq<string>, t: ExportTypeInfo)
    ensures FirstUnresolved(ResolveProps(props, t)) == -1 <==>
      forall k :: 0 <= k < |props| ==> exists s :: s in t.settingSpecifiers && s.key == SplitOnce(props[k], ':')[0]
  {
    var rs := ResolveProps(props, t);
    forall k | 0 <= k < |props|
      ensures rs[k].spec.Some? <==> exists s :: s in t.settingSpecifiers && s.key == SplitOnce(props[k], ':')[0]
    {
      ResolvedKeys(props, t, k);
    }
  }

  /** The first output option whose key names no setting is the one reported. */
  lemma FirstUnknownReported(op: seq<string>, dp: seq<string>, ot: ExportTypeInfo, dt: ExportTypeInfo, k: nat)
    requires k < |op|
    requires ResolveProps(op, ot)[k].spec.None?
    requires forall j :: 0 <= j < k ==> ResolveProps(op, ot)[j].spec.Some?
    ensures PropertyError(ResolveProps(op, ot), ResolveProps(dp, dt)) ==
      Some("Output property not found: " + Join(SplitOnce(op[k], ':'), ","))
  {
    var rs := ResolveProps(op, ot);
    var bad := FirstUnresolved(rs);
    assert bad == k;
    assert rs[k].both == SplitOnce(op[k], ':');
  }

  /**
   * A submitted request uses the first compression, output and destination
   * types the options name, the task's generated name, and the options'
   * dates and source.
   */
  lemma RequestUsesSelectedTypes(sn: Option<SnCredentials>, nodeIds: Result<seq<int>, string>, opts: ExportOptions,
                                 name: string, types: TypeLists)
    ensures var r := PrepareExport(sn, nodeIds, opts, name, types);
      r.Ok? ==>
        && sn.Some? && sn.value.token != "" && sn.value.secret != "" && nodeIds.Ok?
        && r.value.name == name
        && r.value.filter == DatumFilter(opts.start.value, opts.end.value, opts.aggregation, nodeIds.value, opts.source.value)
        && r.value.compressionTypeKey == FindType(types.compression.value, opts.compression).value.id
        && r.value.output.serviceIdentifier == FindType(types.output.value, opts.output).value.id
        && r.value.destination.serviceIdentifier == FindType(types.destination.value, opts.destination).value.id
  {
  }
}
