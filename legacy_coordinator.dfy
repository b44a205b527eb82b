/**
 * The older coordinator at the repository root. It keeps the device state in fields that each
 * status request overwrites, some always and some only when the new value is non-empty, and it
 * wraps its commands so that device errors are logged instead of raised.
 */
module LegacyCoordinator {
  import opened Client
  import opened Python
  import opened Structures
  import opened Routing

  // ---------------------------------------------------------------------------------------
  // Responses of the device client (only the attributes the coordinator reads)

  datatype Status = Status(power: bool, model: string, macaddress: string, version: string)

  datatype VideoStatus = VideoStatus(
    power: bool,
    selectedSources: seq<int>,
    presetNames: seq<string>,
    sourceNames: seq<string>,
    outputNames: seq<string>,
    outputCatNames: seq<string>)

  datatype OutputStatus = OutputStatus(
    power: bool,
    selectedSources: seq<int>,
    selectedOutputScalers: seq<int>,
    enabledOutputs: seq<bool>,
    enabledCatOutputs: seq<bool>,
    connectedOutputs: seq<bool>,
    connectedCatOutputs: seq<bool>,
    outputNames: seq<string>,
    outputCatNames: seq<string>)

  datatype SourceStatus = SourceStatus(
    power: bool,
    edidIndexes: seq<int>,
    activeSources: seq<bool>,
    sourceNames: seq<string>)

  datatype CecStatus = CecStatus(
    selectedCecSources: seq<int>,
    selectedCecOutputs: seq<int>,
    sourceNames: seq<string>,
    alloutputname: seq<string>,
    outputNames: seq<string>)

  datatype Network = Network(power: bool, model: string, macaddress: string)

  datatype SystemStatus = SystemStatus(
    power: bool,
    baudrateIndex: int,
    beep: bool,
    lock: bool,
    mode: int,
    version: string)

  // ---------------------------------------------------------------------------------------
  // The coordinator's fields as a value, and the rule each update applies to them

  /** The device-wide fields. `presetNames` is the attribute the video update writes (None
    * until it first does). */
  datatype Info = Info(
    power: Option<bool>,
    model: Option<string>,
    mac: Option<string>,
    version: Option<string>,
    baudrateIndex: Option<int>,
    beep: Option<bool>,
    lock: Option<bool>,
    mode: Option<int>,
    presetNames: Option<seq<string>>)

  /** The per-source lists, indexed by 0-based source position. */
  datatype Sources = Sources(
    names: seq<string>,
    active: seq<bool>,
    edids: seq<int>,
    cecSelected: seq<int>)

  /** The per-output lists, indexed by 0-based output position. */
  datatype Outputs = Outputs(
    names: seq<string>,
    catNames: seq<string>,
    connected: seq<bool>,
    catConnected: seq<bool>,
    enabled: seq<bool>,
    catEnabled: seq<bool>,
    sources: seq<int>,
    scalers: seq<int>,
    cecSelected: seq<int>)

  /** The connection flag and the counts copied from the client on connect. */
  datatype Link = Link(connected: bool, sourcesCount: Option<int>, outputsCount: Option<int>)

  /** The fields of the coordinator, grouped. */
  datatype DeviceState = DeviceState(info: Info, sources: Sources, outputs: Outputs, link: Link)

  const Initial := DeviceState(
    Info(None, None, None, None, None, None, None, None, None),
    Sources([], [], [], []),
    Outputs([], [], [], [], [], [], [], [], []),
    Link(false, None, None))

  /** A string or list attribute replaces the field only when it is non-empty. */
  function IfGiven<T>(given: seq<T>, current: seq<T>): (r: seq<T>)
    ensures given != [] ==> r == given
    ensures given == [] ==> r == current
    ensures r != [] <==> given != [] || current != []
  {
    if given != [] then given else current
  }

  /** As `IfGiven`, for a field that starts out as None. */
  function IfGivenOpt(given: string, current: Option<string>): (r: Option<string>)
    ensures given != "" ==> r == Some(given)
    ensures given == "" ==> r == current
    ensures r.Some? <==> given != "" || current.Some?
  {
    if given != "" then Some(given) else current
  }

  /** `async_update_status`: power always; model, MAC address and version when non-empty. */
  function WithStatus(d: DeviceState, s: Status): (r: DeviceState)
    ensures r.info.power == Some(s.power)
    ensures r.info.model == IfGivenOpt(s.model, d.info.model)
    ensures r.info.mac == IfGivenOpt(s.macaddress, d.info.mac)
    ensures r.info.version == IfGivenOpt(s.version, d.info.version)
    ensures r.info.(power := d.info.power, model := d.info.model, mac := d.info.mac,
                    version := d.info.version) == d.info
    ensures r.sources == d.sources && r.outputs == d.outputs && r.link == d.link
  {
    d.(info := d.info.(power := Some(s.power),
                       model := IfGivenOpt(s.model, d.info.model),
                       mac := IfGivenOpt(s.macaddress, d.info.mac),
                       version := IfGivenOpt(s.version, d.info.version)))
  }

  /** `async_update_video_status`: power, routing and presets always; names when non-empty. */
  function WithVideo(d: DeviceState, v: VideoStatus): (r: DeviceState)
    ensures r.info.power == Some(v.power) && r.info.presetNames == Some(v.presetNames)
    ensures r.info.(power := d.info.power, presetNames := d.info.presetNames) == d.info
    ensures r.outputs.sources == v.selectedSources
    ensures r.sources.names == IfGiven(v.sourceNames, d.sources.names)
    ensures r.outputs.names == IfGiven(v.outputNames, d.outputs.names)
    ensures r.outputs.catNames == IfGiven(v.outputCatNames, d.outputs.catNames)
    ensures r.sources.(names := d.sources.names) == d.sources
    ensures r.outputs.(sources := d.outputs.sources, names := d.outputs.names,
                       catNames := d.outputs.catNames) == d.outputs
    ensures r.link == d.link
  {
    d.(info := d.info.(power := Some(v.power), presetNames := Some(v.presetNames)),
       sources := d.sources.(names := IfGiven(v.sourceNames, d.sources.names)),
       outputs := d.outputs.(sources := v.selectedSources,
                             names := IfGiven(v.outputNames, d.outputs.names),
                             catNames := IfGiven(v.outputCatNames, d.outputs.catNames)))
  }

  /** `async_update_output_status`: power, routing, scalers and link flags always; names when
    * non-empty. */
  function WithOutput(d: DeviceState, o: OutputStatus): (r: DeviceState)
    ensures r.info.power == Some(o.power)
    ensures r.info.(power := d.info.power) == d.info
    ensures r.outputs.sources == o.selectedSources && r.outputs.scalers == o.selectedOutputScalers
    ensures r.outputs.enabled == o.enabledOutputs && r.outputs.catEnabled == o.enabledCatOutputs
    ensures r.outputs.connected == o.connectedOutputs && r.outputs.catConnected == o.connectedCatOutputs
    ensures r.outputs.names == IfGiven(o.outputNames, d.outputs.names)
    ensures r.outputs.catNames == IfGiven(o.outputCatNames, d.outputs.catNames)
    ensures r.outputs.cecSelected == d.outputs.cecSelected
    ensures r.sources == d.sources && r.link == d.link
  {
    d.(info := d.info.(power := Some(o.power)),
       outputs := d.outputs.(sources := o.selectedSources,
                             scalers := o.selectedOutputScalers,
                             enabled := o.enabledOutputs,
                             catEnabled := o.enabledCatOutputs,
                             connected := o.connectedOutputs,
                             catConnected := o.connectedCatOutputs,
                             names := IfGiven(o.outputNames, d.outputs.names),
                             catNames := IfGiven(o.outputCatNames, d.outputs.catNames)))
  }

  /** `async_update_source_status`: power, EDIDs and activity always; names when non-empty. */
  function WithSource(d: DeviceState, s: SourceStatus): (r: DeviceState)
    ensures r.info.power == Some(s.power)
    ensures r.info.(power := d.info.power) == d.info
    ensures r.sources.edids == s.edidIndexes && r.sources.active == s.activeSources
    ensures r.sources.names == IfGiven(s.sourceNames, d.sources.names)
    ensures r.sources.cecSelected == d.sources.cecSelected
    ensures r.outputs == d.outputs && r.link == d.link
  {
    d.(info := d.info.(power := Some(s.power)),
       sources := d.sources.(edids := s.edidIndexes,
                             active := s.activeSources,
                             names := IfGiven(s.sourceNames, d.sources.names)))
  }

  /** `async_update_cec_status`: the CEC selections always; the output names are replaced
    * when `alloutputname` is non-empty, whatever `output_names` holds. Power is untouched. */
  function WithCec(d: DeviceState, c: CecStatus): (r: DeviceState)
    ensures r.sources.cecSelected == c.selectedCecSources && r.outputs.cecSelected == c.selectedCecOutputs
    ensures r.sources.names == IfGiven(c.sourceNames, d.sources.names)
    ensures r.outputs.names == if c.alloutputname != [] then c.outputNames else d.outputs.names
    ensures r.sources.(cecSelected := d.sources.cecSelected, names := d.sources.names) == d.sources
    ensures r.outputs.(cecSelected := d.outputs.cecSelected, names := d.outputs.names) == d.outputs
    ensures r.info == d.info && r.link == d.link
  {
    d.(sources := d.sources.(cecSelected := c.selectedCecSources,
                             names := IfGiven(c.sourceNames, d.sources.names)),
       outputs := d.outputs.(cecSelected := c.selectedCecOutputs,
                             names := if c.alloutputname != [] then c.outputNames else d.outputs.names))
  }

  /** `async_update_network`: power, model and MAC address, all unconditionally. */
  function WithNetwork(d: DeviceState, n: Network): (r: DeviceState)
    ensures r.info.power == Some(n.power) && r.info.model == Some(n.model)
    ensures r.info.mac == Some(n.macaddress)
    ensures r.info.(power := d.info.power, model := d.info.model, mac := d.info.mac) == d.info
    ensures r.sources == d.sources && r.outputs == d.outputs && r.link == d.link
  {
    d.(info := d.info.(power := Some(n.power), model := Some(n.model), mac := Some(n.macaddress)))
  }

  /** `async_update_system_status`: power and settings always; version when non-empty. */
  function WithSystem(d: DeviceState, y: SystemStatus): (r: DeviceState)
    ensures r.info.power == Some(y.power)
    ensures r.info.baudrateIndex == Some(y.baudrateIndex) && r.info.beep == Some(y.beep)
    ensures r.info.lock == Some(y.lock) && r.info.mode == Some(y.mode)
    ensures r.info.version == IfGivenOpt(y.version, d.info.version)
    ensures r.info.(power := d.info.power, baudrateIndex := d.info.baudrateIndex, beep := d.info.beep,
                    lock := d.info.lock, mode := d.info.mode, version := d.info.version) == d.info
    ensures r.sources == d.sources && r.outputs == d.outputs && r.link == d.link
  {
    d.(info := d.info.(power := Some(y.power),
                       baudrateIndex := Some(y.baudrateIndex),
                       beep := Some(y.beep),
                       lock := Some(y.lock),
                       mode := Some(y.mode),
                       version := IfGivenOpt(y.version, d.info.version)))
  }

  // ---------------------------------------------------------------------------------------
  // The poll cycle as a value

  /** What each client call of one cycle settles to, and the counts the client holds. */
  datatype CycleInputs = CycleInputs(
    connect: Attempt<()>,
    sourcesCount: int,
    outputsCount: int,
    status: Attempt<Status>,
    video: Attempt<VideoStatus>,
    source: Attempt<SourceStatus>,
    output: Attempt<OutputStatus>,
    system: Attempt<SystemStatus>)

  /** The state reached by the updates, and the error that stopped them, if any. */
  datatype Progress = Progress(state: DeviceState, failure: Option<ClientError>)

  /** The updates every cycle runs: video, source, output, system, stopping at an error. */
  function Steady(d: DeviceState, inp: CycleInputs): Progress {
    match inp.video
    case Raised(e) => Progress(d, Some(e))
    case Returned(v) =>
      var d1 := WithVideo(d, v);
      match inp.source
      case Raised(e) => Progress(d1, Some(e))
      case Returned(s) =>
        var d2 := WithSource(d1, s);
        match inp.output
        case Raised(e) => Progress(d2, Some(e))
        case Returned(o) =>
          var d3 := WithOutput(d2, o);
          match inp.system
          case Raised(e) => Progress(d3, Some(e))
          case Returned(y) => Progress(WithSystem(d3, y), None)
  }

  /** The body of the cycle's `try`: connect and read the status first when not connected. */
  function Run(d: DeviceState, inp: CycleInputs): Progress {
    if d.link.connected then Steady(d, inp)
    else
      match inp.connect
      case Raised(e) => Progress(d, Some(e))
      case Returned(_) =>
        var d1 := d.(link := Link(true, Some(inp.sourcesCount), Some(inp.outputsCount)));
        match inp.status
        case Raised(e) => Progress(d1, Some(e))
        case Returned(s) => Steady(WithStatus(d1, s), inp)
  }

  /** How a cycle ends: normally, or with an exception escaping to the caller. */
  datatype Outcome = Completed | Escaped(error: Python.Error)

  datatype CycleResult = CycleResult(state: DeviceState, outcome: Outcome)

  /** The handler for a lost connection: power off and not connected. */
  function Disconnected(d: DeviceState): DeviceState {
    d.(info := d.info.(power := Some(false)), link := d.link.(connected := false))
  }

  predicate IsConnectionLoss(e: ClientError) {
    e == ConnectionError || e == ConnectionTimeout
  }

  /**
   * `_async_update_data`. A connection error or timeout turns the device off and disconnects
   * without raising. Any other error reaches `except err:`, where evaluating the unbound name
   * raises NameError: nothing is reset and no UpdateFailed is raised.
   */
  function Cycle(d: DeviceState, inp: CycleInputs): (r: CycleResult)
    ensures Run(d, inp).failure.None? ==> r == CycleResult(Run(d, inp).state, Completed)
    ensures r.outcome.Escaped? ==> r.outcome.error == NameError
  {
    var p := Run(d, inp);
    match p.failure
    case None => CycleResult(p.state, Completed)
    case Some(e) =>
      if IsConnectionLoss(e) then CycleResult(Disconnected(p.state), Completed)
      else CycleResult(p.state, Escaped(NameError))
  }

  /** Every request of the cycle returned (and, when not connected, the connect did too). */
  predicate AllReturned(d: DeviceState, inp: CycleInputs) {
    && (!d.link.connected ==> inp.connect.Returned? && inp.status.Returned?)
    && inp.video.Returned? && inp.source.Returned? && inp.output.Returned? && inp.system.Returned?
  }

  /** Lemma: in a cycle where every request returns, the system status is the last to write
    * power, so power ends as the system status reports it, and the device is connected. */
  lemma LastPowerWriterWins(d: DeviceState, inp: CycleInputs)
    requires AllReturned(d, inp)
    ensures Cycle(d, inp).outcome == Completed
    ensures Cycle(d, inp).state.info.power == Some(inp.system.value.power)
    ensures Cycle(d, inp).state.link.connected
  {
  }

  /** Lemma: the updates of a cycle stop with an error exactly when some request of the cycle
    * raises. */
  lemma RunFailsIffSomeRequestFails(d: DeviceState, inp: CycleInputs)
    ensures Run(d, inp).failure.None? <==> AllReturned(d, inp)
  {
  }

  /** Lemma: the status request is read only on a cycle that connects, so on an already
    * connected device the model and MAC address never change. */
  lemma StatusOnlyOnConnect(d: DeviceState, inp: CycleInputs)
    requires d.link.connected
    ensures Cycle(d, inp).state.info.model == d.info.model
    ensures Cycle(d, inp).state.info.mac == d.info.mac
    ensures Cycle(d, inp).state.link.sourcesCount == d.link.sourcesCount
    ensures Cycle(d, inp).state.link.outputsCount == d.link.outputsCount
  {
  }

  /** Lemma: a connection error or timeout at any step turns the device off, disconnects and
    * raises nothing. */
  lemma ConnectionLossTurnsOff(d: DeviceState, inp: CycleInputs)
    requires Run(d, inp).failure.Some? && IsConnectionLoss(Run(d, inp).failure.value)
    ensures Cycle(d, inp) == CycleResult(Disconnected(Run(d, inp).state), Completed)
    ensures Cycle(d, inp).state.info.power == Some(false) && !Cycle(d, inp).state.link.connected
  {
  }

  /** Lemma: every other error, an authentication failure included, escapes as NameError and
    * leaves the fields as far as the updates got; a rejected login changes nothing. */
  lemma OtherErrorsEscape(d: DeviceState, inp: CycleInputs)
    requires Run(d, inp).failure.Some? && !IsConnectionLoss(Run(d, inp).failure.value)
    ensures Cycle(d, inp) == CycleResult(Run(d, inp).state, Escaped(NameError))
    ensures !d.link.connected && inp.connect == Raised(AuthError) ==> Cycle(d, inp).state == d
  {
  }

  /** The non-empty name lists and the known model, MAC address and version of `d` are still
    * non-empty, and known, in `e`. */
  predicate KeepsKnown(d: DeviceState, e: DeviceState) {
    && (d.sources.names != [] ==> e.sources.names != [])
    && (d.outputs.names != [] ==> e.outputs.names != [])
    && (d.outputs.catNames != [] ==> e.outputs.catNames != [])
    && (d.info.model.Some? ==> e.info.model.Some?)
    && (d.info.mac.Some? ==> e.info.mac.Some?)
    && (d.info.version.Some? ==> e.info.version.Some?)
  }

  /** Lemma: the steady-state updates never clear a name list or forget a known value. */
  lemma SteadyKeepsKnown(d: DeviceState, inp: CycleInputs)
    ensures KeepsKnown(d, Steady(d, inp).state)
  {
    if inp.video.Returned? {
      var d1 := WithVideo(d, inp.video.value);
      assert KeepsKnown(d, d1);
      if inp.source.Returned? {
        var d2 := WithSource(d1, inp.source.value);
        assert KeepsKnown(d, d2);
        if inp.output.Returned? {
          var d3 := WithOutput(d2, inp.output.value);
          assert KeepsKnown(d, d3);
        }
      }
    }
  }

  /** Lemma: a name list that is non-empty stays non-empty through any cycle, and a known
    * model, MAC address or version is never forgotten. */
  lemma KnownValuesKept(d: DeviceState, inp: CycleInputs)
    ensures KeepsKnown(d, Cycle(d, inp).state)
  {
    if d.link.connected {
      SteadyKeepsKnown(d, inp);
    } else if inp.connect.Returned? && inp.status.Returned? {
      var d1 := d.(link := Link(true, Some(inp.sourcesCount), Some(inp.outputsCount)));
      var d2 := WithStatus(d1, inp.status.value);
      assert KeepsKnown(d, d2);
      SteadyKeepsKnown(d2, inp);
    }
  }

  // ---------------------------------------------------------------------------------------
  // Commands and the error-catching decorator

  /** A call into the device client. */
  datatype ClientCall =
    | SetPower(on: bool)
    | Reboot
    | SetOutputStream(output: int, on: bool)
    | SetOutputCatStream(output: int, on: bool)
    | SetVideoSource(output: int, source: int)

  /** The coordinator's wrapped commands. */
  datatype Command =
    | TurnOn | TurnOff | RebootDevice
    | OutputTurnOn(output: int) | OutputTurnOff(output: int)
    | OutputSetSource(output: int, source: int)

  /** The client calls a command's body awaits, in order. */
  function Calls(cmd: Command): (calls: seq<ClientCall>)
    ensures cmd.TurnOn? || cmd.TurnOff? ==> calls == [SetPower(cmd.TurnOn?)]
    ensures cmd.RebootDevice? ==> calls == [Reboot]
    ensures cmd.OutputTurnOn? || cmd.OutputTurnOff? ==>
              && |calls| == 2
              && calls[0] == SetOutputStream(cmd.output, cmd.OutputTurnOn?)
              && calls[1] == SetOutputCatStream(cmd.output, cmd.OutputTurnOn?)
    ensures cmd.OutputSetSource? ==> calls == [SetVideoSource(cmd.output, cmd.source)]
  {
    match cmd
    case TurnOn => [SetPower(true)]
    case TurnOff => [SetPower(false)]
    case RebootDevice => [Reboot]
    case OutputTurnOn(o) => [SetOutputStream(o, true), SetOutputCatStream(o, true)]
    case OutputTurnOff(o) => [SetOutputStream(o, false), SetOutputCatStream(o, false)]
    case OutputSetSource(o, s) => [SetVideoSource(o, s)]
  }

  /** The calls a body issued, and the error the last of them raised, if any. */
  datatype Execution = Execution(issued: seq<ClientCall>, raised: Option<ClientError>)

  /** The reply to the call at position `i`: what it raised, or None when it returned. */
  function Reply(replies: seq<Option<ClientError>>, i: nat): Option<ClientError> {
    if i < |replies| then replies[i] else None
  }

  /** The replies after the first. */
  function Later(replies: seq<Option<ClientError>>): (r: seq<Option<ClientError>>)
    ensures forall i: nat :: Reply(r, i) == Reply(replies, i + 1)
  {
    if replies == [] then [] else replies[1..]
  }

  /** Awaiting `calls` one after another: the first call that raises ends the body. */
  function Perform(calls: seq<ClientCall>, replies: seq<Option<ClientError>>): (x: Execution)
    ensures |x.issued| <= |calls| && x.issued == calls[..|x.issued|]
    ensures x.raised.None? ==> x.issued == calls
  {
    if calls == [] then Execution([], None)
    else if Reply(replies, 0).Some? then Execution([calls[0]], Reply(replies, 0))
    else
      var rest := Perform(calls[1..], Later(replies));
      Execution([calls[0]] + rest.issued, rest.raised)
  }

  /** Lemma: a body raises exactly when one of its calls does, and then it is the first such
    * call that ends it: every call before it returned. */
  lemma {:induction false} PerformStopsAtFirstError(calls: seq<ClientCall>, replies: seq<Option<ClientError>>)
    ensures Perform(calls, replies).raised.None? <==> forall i :: 0 <= i < |calls| ==> Reply(replies, i).None?
    ensures Perform(calls, replies).raised.Some? ==>
              && 1 <= |Perform(calls, replies).issued|
              && Perform(calls, replies).raised == Reply(replies, |Perform(calls, replies).issued| - 1)
              && forall i :: 0 <= i < |Perform(calls, replies).issued| - 1 ==> Reply(replies, i).None?
  {
    if calls != [] && Reply(replies, 0).None? {
      PerformStopsAtFirstError(calls[1..], Later(replies));
      var x := Perform(calls, replies);
      var rest := Perform(calls[1..], Later(replies));
      assert x.issued == [calls[0]] + rest.issued && x.raised == rest.raised;
      if rest.raised.None? {
        forall i | 0 <= i < |calls|
          ensures Reply(replies, i).None?
        {
          if i > 0 {
            assert Reply(Later(replies), i - 1) == Reply(replies, i);
          }
        }
      } else {
        assert Reply(Later(replies), |rest.issued| - 1) == Reply(replies, |x.issued| - 1);
        forall i | 0 <= i < |x.issued| - 1
          ensures Reply(replies, i).None?
        {
          if i > 0 {
            assert Reply(Later(replies), i - 1) == Reply(replies, i);
          }
        }
        assert Reply(Later(replies), |rest.issued| - 1).Some?;
      }
    }
  }

  /** What a wrapped command did: the calls it issued, whether it asked for a refresh, and the
    * exception that escaped it, if any. */
  datatype Wrapped = Wrapped(issued: seq<ClientCall>, refreshed: bool, escaped: Option<ClientError>)

  /**
   * `catch_jtechdigital_errors` around a command: a JtechError is logged and swallowed and a
   * refresh is requested as after success; any other exception escapes before the refresh.
   */
  function CatchErrors(cmd: Command, replies: seq<Option<ClientError>>): (w: Wrapped)
    ensures w.issued == Perform(Calls(cmd), replies).issued
    ensures w.refreshed <==> w.escaped.None?
    ensures w.escaped.Some? <==>
              Perform(Calls(cmd), replies).raised.Some? && !IsJtechError(Perform(Calls(cmd), replies).raised.value)
    ensures w.escaped.Some? ==> w.escaped == Perform(Calls(cmd), replies).raised
  {
    var x := Perform(Calls(cmd), replies);
    match x.raised
    case None => Wrapped(x.issued, true, None)
    case Some(e) =>
      if IsJtechError(e) then Wrapped(x.issued, true, None)
      else Wrapped(x.issued, false, Some(e))
  }

  /** Lemma: when enabling the HDMI stream fails with a device error, the CAT stream is not
    * enabled, the error is swallowed and the refresh still happens. */
  lemma FailedHdmiEnableSkipsCat(output: int, replies: seq<Option<ClientError>>)
    requires replies != [] && replies[0].Some? && IsJtechError(replies[0].value)
    ensures CatchErrors(OutputTurnOn(output), replies) == Wrapped([SetOutputStream(output, true)], true, None)
  {
  }

  // ---------------------------------------------------------------------------------------
  // The coordinator object

  /**
   * The coordinator. Its attributes are grouped by their prefix: `sources_names` is
   * `sources.names`, `outputs_cat_enabled` is `outputs.catEnabled`, and the device-wide ones
   * (`power`, `model`, ...) are in `info`.
   */
  class JtechCoordinator {
    var info: Info
    var sources: Sources
    var outputs: Outputs
    var link: Link

    /** All fields as one value. */
    function Snapshot(): DeviceState
      reads this
    {
      DeviceState(info, sources, outputs, link)
    }

    /** Every field starts unknown or empty, and the device is not connected. */
    constructor ()
      ensures Snapshot() == Initial
    {
      info := Info(None, None, None, None, None, None, None, None, None);
      sources := Sources([], [], [], []);
      outputs := Outputs([], [], [], [], [], [], [], [], []);
      link := Link(false, None, None);
    }

    /** `async_update_status`. */
    method UpdateStatus(s: Status)
      modifies this`info
      ensures Snapshot() == WithStatus(old(Snapshot()), s)
    {
      info := info.(power := Some(s.power));
      if s.model != "" {
        info := info.(model := Some(s.model));
      }
      if s.macaddress != "" {
        info := info.(mac := Some(s.macaddress));
      }
      if s.version != "" {
        info := info.(version := Some(s.version));
      }
    }

    /** `async_update_video_status`. */
    method UpdateVideoStatus(v: VideoStatus)
      modifies this`info, this`sources, this`outputs
      ensures Snapshot() == WithVideo(old(Snapshot()), v)
    {
      info := info.(power := Some(v.power));
      outputs := outputs.(sources := v.selectedSources);
      info := info.(presetNames := Some(v.presetNames));
      if v.sourceNames != [] {
        sources := sources.(names := v.sourceNames);
      }
      if v.outputNames != [] {
        outputs := outputs.(names := v.outputNames);
      }
      if v.outputCatNames != [] {
        outputs := outputs.(catNames := v.outputCatNames);
      }
    }

    /** `async_update_output_status`. */
    method UpdateOutputStatus(o: OutputStatus)
      modifies this`info, this`outputs
      ensures Snapshot() == WithOutput(old(Snapshot()), o)
    {
      info := info.(power := Some(o.power));
      outputs := outputs.(sources := o.selectedSources);
      outputs := outputs.(scalers := o.selectedOutputScalers);
      outputs := outputs.(enabled := o.enabledOutputs);
      outputs := outputs.(catEnabled := o.enabledCatOutputs);
      outputs := outputs.(connected := o.connectedOutputs);
      outputs := outputs.(catConnected := o.connectedCatOutputs);
      if o.outputNames != [] {
        outputs := outputs.(names := o.outputNames);
      }
      if o.outputCatNames != [] {
        outputs := outputs.(catNames := o.outputCatNames);
      }
    }

    /** `async_update_source_status`. */
    method UpdateSourceStatus(s: SourceStatus)
      modifies this`info, this`sources
      ensures Snapshot() == WithSource(old(Snapshot()), s)
    {
      info := info.(power := Some(s.power));
      sources := sources.(edids := s.edidIndexes);
      sources := sources.(active := s.activeSources);
      if s.sourceNames != [] {
        sources := sources.(names := s.sourceNames);
      }
    }

    /** `async_update_cec_status`: the output names follow `alloutputname`'s truthiness. */
    method UpdateCecStatus(c: CecStatus)
      modifies this`sources, this`outputs
      ensures Snapshot() == WithCec(old(Snapshot()), c)
    {
      sources := sources.(cecSelected := c.selectedCecSources);
      outputs := outputs.(cecSelected := c.selectedCecOutputs);
      if c.sourceNames != [] {
        sources := sources.(names := c.sourceNames);
      }
      if c.alloutputname != [] {
        outputs := outputs.(names := c.outputNames);
      }
    }

    /** `async_update_network`. */
    method UpdateNetwork(n: Network)
      modifies this`info
      ensures Snapshot() == WithNetwork(old(Snapshot()), n)
    {
      info := info.(power := Some(n.power));
      info := info.(model := Some(n.model));
      info := info.(mac := Some(n.macaddress));
    }

    /** `async_update_system_status`. */
    method UpdateSystemStatus(y: SystemStatus)
      modifies this`info
      ensures Snapshot() == WithSystem(old(Snapshot()), y)
    {
      info := info.(power := Some(y.power));
      info := info.(baudrateIndex := Some(y.baudrateIndex));
      info := info.(beep := Some(y.beep));
      info := info.(lock := Some(y.lock));
      info := info.(mode := Some(y.mode));
      if y.version != "" {
        info := info.(version := Some(y.version));
      }
    }

    /** The four requests every cycle makes, stopping at the first that raises. */
    method UpdateStatuses(inp: CycleInputs) returns (failure: Option<ClientError>)
      modifies this
      ensures Snapshot() == Steady(old(Snapshot()), inp).state
      ensures failure == Steady(old(Snapshot()), inp).failure
    {
      if inp.video.Raised? {
        return Some(inp.video.error);
      }
      UpdateVideoStatus(inp.video.value);
      if inp.source.Raised? {
        return Some(inp.source.error);
      }
      UpdateSourceStatus(inp.source.value);
      if inp.output.Raised? {
        return Some(inp.output.error);
      }
      UpdateOutputStatus(inp.output.value);
      if inp.system.Raised? {
        return Some(inp.system.error);
      }
      UpdateSystemStatus(inp.system.value);
      failure := None;
    }

    /** The body of the cycle's `try`: connect and read the status first when not connected. */
    method RunUpdates(inp: CycleInputs) returns (failure: Option<ClientError>)
      modifies this
      ensures Snapshot() == Run(old(Snapshot()), inp).state
      ensures failure == Run(old(Snapshot()), inp).failure
    {
      if !link.connected {
        if inp.connect.Raised? {
          return Some(inp.connect.error);
        }
        link := link.(connected := true);
        link := link.(sourcesCount := Some(inp.sourcesCount));
        link := link.(outputsCount := Some(inp.outputsCount));
        if inp.status.Raised? {
          return Some(inp.status.error);
        }
        UpdateStatus(inp.status.value);
      }
      failure := UpdateStatuses(inp);
    }

    /** `_async_update_data`: the updates, then the two exception handlers. */
    method UpdateData(inp: CycleInputs) returns (outcome: Outcome)
      modifies this
      ensures Snapshot() == Cycle(old(Snapshot()), inp).state
      ensures outcome == Cycle(old(Snapshot()), inp).outcome
    {
      var failure := RunUpdates(inp);
      outcome := Completed;
      if failure.Some? {
        if failure.value == ConnectionError || failure.value == ConnectionTimeout {
          info := info.(power := Some(false));
          link := link.(connected := false);
        } else {
          outcome := Escaped(NameError);
        }
      }
    }

    /**
     * `get_output_info` for 1-based `output`, after the client's validation (`valid`). The
     * arguments of the record are evaluated in order; the seventh names an undefined variable,
     * so once the first six lookups succeed the call raises NameError. It never returns.
     */
    function GetOutputInfo(output: int, valid: bool): (r: Read<OutputInfo>)
      reads this
      ensures r.Raise?
      ensures !valid ==> r.error == Device(InvalidOutput)
      ensures valid ==> (r.error == NameError <==>
                && Index(outputs.sources, output - 1).Ok?
                && Index(outputs.names, output - 1).Ok?
                && Index(outputs.catNames, output - 1).Ok?
                && Index(outputs.connected, output - 1).Ok?
                && Index(outputs.catConnected, output - 1).Ok?
                && Index(outputs.enabled, output - 1).Ok?)
      ensures valid && r.error != NameError ==> r.error == IndexError
    {
      var i := output - 1;
      if !valid then Raise(Device(InvalidOutput))
      else if Index(outputs.sources, i).Raise? then Raise(IndexError)
      else if Index(outputs.names, i).Raise? then Raise(IndexError)
      else if Index(outputs.catNames, i).Raise? then Raise(IndexError)
      else if Index(outputs.connected, i).Raise? then Raise(IndexError)
      else if Index(outputs.catConnected, i).Raise? then Raise(IndexError)
      else if Index(outputs.enabled, i).Raise? then Raise(IndexError)
      else Raise(NameError)
    }

    /**
     * `get_source_info` for 1-based `source`, after the client's validation (`valid`). The
     * outputs are the 0-based positions routed to `source`, ascending; name, activity and EDID
     * come from position `source - 1` with Python indexing, the first failing lookup raising.
     */
    method GetSourceInfo(source: int, valid: bool) returns (r: Read<SourceInfo>)
      ensures !valid ==> r == Raise(Device(InvalidSource))
      ensures r.Ok? <==>
                && valid
                && Index(sources.names, source - 1).Ok?
                && Index(sources.active, source - 1).Ok?
                && Index(sources.edids, source - 1).Ok?
      ensures r.Raise? && valid ==> r.error == IndexError
      ensures r.Ok? ==>
                && r.value.outputs == RoutedTo(outputs.sources, source, 0)
                && (forall o :: o in r.value.outputs <==>
                      0 <= o < |outputs.sources| && outputs.sources[o] == source)
                && Ascending(r.value.outputs)
                && r.value.name == Index(sources.names, source - 1).value
                && r.value.active == Index(sources.active, source - 1).value
                && r.value.edidIndex == Index(sources.edids, source - 1).value
                && (r.value.cecSelected <==> source in sources.cecSelected)
    {
      if !valid {
        return Raise(Device(InvalidSource));
      }
      var routed: seq<int> := [];
      var o := 0;
      while o < |outputs.sources|
        invariant 0 <= o <= |outputs.sources|
        invariant routed == RoutedTo(outputs.sources[..o], source, 0)
      {
        assert outputs.sources[..o + 1][..o] == outputs.sources[..o];
        if outputs.sources[o] == source {
          routed := routed + [o];
        }
        o := o + 1;
      }
      assert outputs.sources[..o] == outputs.sources;
      forall x
        ensures x in routed <==> 0 <= x < |outputs.sources| && outputs.sources[x] == source
      {
        RoutedToMembers(outputs.sources, source, 0, x);
      }
      RoutedToAscending(outputs.sources, source, 0);
      var name := Index(sources.names, source - 1);
      if name.Raise? {
        return Raise(name.error);
      }
      var active := Index(sources.active, source - 1);
      if active.Raise? {
        return Raise(active.error);
      }
      var edid := Index(sources.edids, source - 1);
      if edid.Raise? {
        return Raise(edid.error);
      }
      r := Ok(SourceInfo(routed, name.value, active.value, edid.value, source in sources.cecSelected));
    }
  }
}
