/**
 * The output media players and the master media player of the integration package: how an
 * entity derives its state from the coordinator's records, which features it offers, and which
 * commands each service call issues, in order.
 */
module MediaPlayer {
  import opened Python
  import opened Structures
  import opened Routing
  import opened Coordinator

  /** The options of the configuration entry: the values the option getters return. */
  datatype Options = Options(
    hdmiStreamToggle: bool,
    catStreamToggle: bool,
    cecSourceToggle: bool,
    cecOutputToggle: bool,
    volumeControl: string)

  datatype PlayerState = Playing | On | Off | Idle | Unavailable

  // ---------------------------------------------------------------------------------------
  // State

  /** Both stream paths of an output are up. */
  predicate AllLinksUp(info: OutputInfo) {
    info.catConnected && info.catEnabled && info.connected && info.enabled
  }

  /** `_get_output_state`: whether the output counts as powered for the configured toggles. */
  function OutputState(opts: Options, info: OutputInfo): (on: bool)
    ensures on <==> !(opts.hdmiStreamToggle && opts.catStreamToggle) || AllLinksUp(info)
    ensures !opts.hdmiStreamToggle || !opts.catStreamToggle ==> on
  {
    if opts.catStreamToggle && opts.hdmiStreamToggle then
      info.catConnected && info.catEnabled && info.connected && info.enabled
    else if opts.catStreamToggle && info.catConnected && info.catEnabled then
      true
    else if opts.hdmiStreamToggle && info.connected && info.enabled then
      true
    else
      true
  }

  /** `_get_output_info`: the record of 1-based output `index`, with Python list indexing. */
  function OutputInfoAt(outputs: Option<seq<OutputInfo>>, index: int): (r: Read<OutputInfo>)
    ensures outputs.None? ==> r == Raise(TypeError)
    ensures outputs.Some? && !(-|outputs.value| <= index - 1 < |outputs.value|) ==> r == Raise(IndexError)
    ensures outputs.Some? && 0 <= index - 1 < |outputs.value| ==> r == Ok(outputs.value[index - 1])
    ensures outputs.Some? && -|outputs.value| <= index - 1 < 0 ==>
              r == Ok(outputs.value[|outputs.value| + index - 1])
  {
    Subscript(outputs, index - 1)
  }

  /** `_get_source_info`: the source record at the output's `source - 1`. A record is always
    * truthy, so the source lookup runs whenever the output lookup succeeds. */
  function RoutedSource<S>(outputs: Option<seq<OutputInfo>>, sources: Option<seq<S>>, index: int): (r: Read<S>)
    ensures OutputInfoAt(outputs, index).Raise? ==> r == Raise(OutputInfoAt(outputs, index).error)
    ensures OutputInfoAt(outputs, index).Ok? ==>
              r == Subscript(sources, OutputInfoAt(outputs, index).value.source - 1)
    ensures r.Ok? ==> sources.Some? && r.value in sources.value
  {
    match OutputInfoAt(outputs, index)
    case Raise(e) => Raise(e)
    case Ok(info) =>
      var r := Subscript(sources, info.source - 1);
      if r.Ok? then SubscriptIsElement(sources, info.source - 1); r else r
  }

  /** Lemma: an output routed to source 0 shows the last source record, not an error. */
  lemma SourceZeroWraps<S>(outputs: seq<OutputInfo>, sources: seq<S>, index: int)
    requires 1 <= index <= |outputs| && outputs[index - 1].source == 0
    requires sources != []
    ensures RoutedSource(Some(outputs), Some(sources), index) == Ok(sources[|sources| - 1])
  {
  }

  /**
   * `JtechMediaPlayer.state`. A failed lookup raises; an output record is always truthy, so
   * the unavailable state is never reported: the entity is playing when the output counts as
   * powered and its source is active, on when powered and the source is inactive, off otherwise.
   */
  function State(opts: Options, outputs: Option<seq<OutputInfo>>, sources: Option<seq<SourceInfo>>, index: int)
    : (r: Read<PlayerState>)
    ensures OutputInfoAt(outputs, index).Raise? ==> r == Raise(OutputInfoAt(outputs, index).error)
    ensures r == Ok(Playing) <==>
              && OutputInfoAt(outputs, index).Ok?
              && OutputState(opts, OutputInfoAt(outputs, index).value)
              && RoutedSource(outputs, sources, index).Ok?
              && RoutedSource(outputs, sources, index).value.active
    ensures r == Ok(On) <==>
              && OutputInfoAt(outputs, index).Ok?
              && OutputState(opts, OutputInfoAt(outputs, index).value)
              && RoutedSource(outputs, sources, index).Ok?
              && !RoutedSource(outputs, sources, index).value.active
    ensures r == Ok(Off) <==>
              OutputInfoAt(outputs, index).Ok? && !OutputState(opts, OutputInfoAt(outputs, index).value)
    ensures r.Raise? && OutputInfoAt(outputs, index).Ok? ==> r.error == RoutedSource(outputs, sources, index).error
    ensures r.Ok? ==> r.value in {Playing, On, Off}
  {
    match OutputInfoAt(outputs, index)
    case Raise(e) => Raise(e)
    case Ok(info) =>
      if OutputState(opts, info) then
        match RoutedSource(outputs, sources, index)
        case Raise(e) => Raise(e)
        case Ok(src) => if src.active then Ok(Playing) else Ok(On)
      else
        Ok(Off)
  }

  /** Lemma: with at most one stream toggle set, a resolvable output is never off. */
  lemma SingleToggleNeverOff(opts: Options, outputs: Option<seq<OutputInfo>>, sources: Option<seq<SourceInfo>>, index: int)
    requires !(opts.hdmiStreamToggle && opts.catStreamToggle)
    ensures State(opts, outputs, sources, index) != Ok(Off)
  {
  }

  // ---------------------------------------------------------------------------------------
  // Sources

  // Both players read source records the same way; their records differ, so the functions
  // below take the record type `S` and its `name` attribute as `nameOf`.

  /** The `name` attribute of this player's source records. */
  function SourceName(s: SourceInfo): string {
    s.name
  }

  /** `source_list`: the source names in order; iterating a missing list raises TypeError. */
  function SourceList<S>(sources: Option<seq<S>>, nameOf: S -> string): (r: Read<seq<string>>)
    ensures r.Raise? <==> sources.None?
    ensures r.Raise? ==> r.error == TypeError
    ensures r.Ok? ==> |r.value| == |sources.value|
    ensures r.Ok? ==> forall i :: 0 <= i < |r.value| ==> r.value[i] == nameOf(sources.value[i])
  {
    match sources
    case None => Raise(TypeError)
    case Some(s) => Ok(seq(|s|, i requires 0 <= i < |s| => nameOf(s[i])))
  }

  /** `source`: the name of the source record the output shows. */
  function Source<S>(outputs: Option<seq<OutputInfo>>, sources: Option<seq<S>>, index: int, nameOf: S -> string)
    : (r: Read<string>)
    ensures r.Ok? <==> RoutedSource(outputs, sources, index).Ok?
    ensures r.Raise? ==> r.error == RoutedSource(outputs, sources, index).error
    ensures r.Ok? ==> r.value == nameOf(RoutedSource(outputs, sources, index).value)
  {
    match RoutedSource(outputs, sources, index)
    case Raise(e) => Raise(e)
    case Ok(src) => Ok(nameOf(src))
  }

  /** Lemma: the source an entity shows is always one of the names it offers. */
  lemma SourceIsListed<S>(outputs: Option<seq<OutputInfo>>, sources: Option<seq<S>>, index: int, nameOf: S -> string)
    requires Source(outputs, sources, index, nameOf).Ok?
    ensures SourceList(sources, nameOf).Ok?
    ensures Source(outputs, sources, index, nameOf).value in SourceList(sources, nameOf).value
  {
    var src := RoutedSource(outputs, sources, index).value;
    var s := sources.value;
    var i :| 0 <= i < |s| && s[i] == src;
    assert SourceList(sources, nameOf).value[i] == nameOf(src);
  }

  /**
   * Lemma: the coordinator lists output `n` under the 0-based position of its selected
   * source, while the entity shows the record at that number minus one. So the record an
   * entity shows lists its own output only when the output selects source 0 and there is a
   * single source (the one case where Python's negative index lands on the same record).
   */
  lemma DisplayedSourceOmitsOutput(st: Statuses, n: int)
    requires OutputUpdate(st).Built? && SourceUpdate(st).Built?
    requires 1 <= n <= |OutputUpdate(st).items|
    requires RoutedSource(Some(OutputUpdate(st).items), Some(SourceUpdate(st).items), n).Ok?
    ensures n in RoutedSource(Some(OutputUpdate(st).items), Some(SourceUpdate(st).items), n).value.outputs
        <==> OutputUpdate(st).items[n - 1].source == 0 && |SourceUpdate(st).items| == 1
  {
    var outs := OutputUpdate(st).items;
    var srcs := SourceUpdate(st).items;
    var o := st.output.value;
    var k := outs[n - 1].source;
    assert outs[n - 1] == OutputRecord(o, st.cec.value, n - 1);
    assert k == o.selectedSources[n - 1];
    var p := if k - 1 >= 0 then k - 1 else |srcs| + k - 1;
    assert 0 <= p < |srcs| && RoutedSource(Some(outs), Some(srcs), n).value == srcs[p];
    assert srcs[p] == SourceRecord(st.source.value, o, st.cec.value, p);
    RoutedToMembers(o.selectedSources, p, 1, n);
  }

  // ---------------------------------------------------------------------------------------
  // Supported features

  datatype Feature =
    | SupportSelectSource | SupportPlayMedia | SupportPause | SupportPlay | SupportStop
    | SupportPreviousTrack | SupportNextTrack
    | SupportVolumeStep | SupportVolumeMute
    | SupportTurnOn | SupportTurnOff

  const BaseFeatures: set<Feature> :=
    {SupportSelectSource, SupportPlayMedia, SupportPause, SupportPlay, SupportStop,
     SupportPreviousTrack, SupportNextTrack}

  const VolumeFeatures: set<Feature> := {SupportVolumeStep, SupportVolumeMute}

  const PowerFeatures: set<Feature> := {SupportTurnOn, SupportTurnOff}

  /** The volume option is truthy and not "none". */
  predicate VolumeEnabled(option: string) {
    option != "" && option != "none"
  }

  /** `supported_features`: the base features, the volume pair when volume control is
    * configured, and turn on/off when at least one stream toggle is set. */
  method SupportedFeatures(opts: Options) returns (features: set<Feature>)
    ensures BaseFeatures <= features
    ensures forall f :: f in VolumeFeatures ==> (f in features <==> VolumeEnabled(opts.volumeControl))
    ensures forall f :: f in PowerFeatures ==>
              (f in features <==> opts.hdmiStreamToggle || opts.catStreamToggle)
    ensures features <= BaseFeatures + VolumeFeatures + PowerFeatures
  {
    features := BaseFeatures;
    var volume := opts.volumeControl;
    if volume != "" && volume != "none" {
      features := features + {SupportVolumeStep};
      features := features + {SupportVolumeMute};
    }
    if opts.hdmiStreamToggle || opts.catStreamToggle {
      features := features + {SupportTurnOn};
      features := features + {SupportTurnOff};
    }
  }

  // ---------------------------------------------------------------------------------------
  // Commands

  /** A call the entity makes on the coordinator. The output is always the entity's own; a
    * source CEC command goes to the source the output is routed to. */
  datatype Command =
    | EnableOutput | EnableCatOutput | DisableOutput | DisableCatOutput
    | CecToOutput(code: int)
    | CecToSource(code: int)
    | SelectVideoSource(source: int)
    | RequestRefresh

  /** No source before position `k` carries `name`. */
  predicate NoMatchBefore<S>(s: seq<S>, nameOf: S -> string, name: string, k: int)
    requires 0 <= k <= |s|
  {
    forall j :: 0 <= j < k ==> nameOf(s[j]) != name
  }

  /**
   * `async_select_source`: select the 1-based position of the first source named `name`, if
   * any, then ask for a refresh. Enumerating a missing list raises TypeError before anything is
   * sent.
   */
  method SelectSource(sources: Option<seq<SourceInfo>>, name: string) returns (r: Read<seq<Command>>)
    ensures r.Raise? <==> sources.None?
    ensures r.Raise? ==> r.error == TypeError
    ensures r.Ok? ==>
              || (r.value == [RequestRefresh] && NoMatchBefore(sources.value, SourceName, name, |sources.value|))
              || (&& |r.value| == 2 && r.value[1] == RequestRefresh
                  && r.value[0].SelectVideoSource?
                  && 1 <= r.value[0].source <= |sources.value|
                  && sources.value[r.value[0].source - 1].name == name
                  && NoMatchBefore(sources.value, SourceName, name, r.value[0].source - 1))
  {
    if sources.None? {
      return Raise(TypeError);
    }
    var s := sources.value;
    var cmds: seq<Command> := [];
    var idx := 0;
    while idx < |s|
      invariant 0 <= idx <= |s|
      invariant NoMatchBefore(s, SourceName, name, idx)
      invariant cmds == []
    {
      if s[idx].name == name {
        cmds := cmds + [SelectVideoSource(idx + 1)];
        break;
      }
      idx := idx + 1;
    }
    cmds := cmds + [RequestRefresh];
    r := Ok(cmds);
  }

  /** The two ordered command sequences of an output player. */
  datatype Service = TurningOn | TurningOff

  /** The position of a command in the sequence a service issues. */
  function Step(svc: Service, c: Command): nat {
    match svc
    case TurningOn => TurnOnStep(c)
    case TurningOff => TurnOffStep(c)
  }

  /** The commands of `cmds` come in strictly increasing position for `svc`. */
  predicate Ordered(cmds: seq<Command>, svc: Service) {
    forall i, j :: 0 <= i < j < |cmds| ==> Step(svc, cmds[i]) < Step(svc, cmds[j])
  }

  /** Every command of `cmds` has a position for `svc` between `lo` and `hi`. */
  predicate Within(cmds: seq<Command>, svc: Service, lo: int, hi: int) {
    forall i :: 0 <= i < |cmds| ==> lo <= Step(svc, cmds[i]) <= hi
  }

  /** Lemma: an ordered run followed by an ordered run of later positions is ordered. */
  lemma AppendOrdered(a: seq<Command>, b: seq<Command>, svc: Service, lo: int, mid: int, hi: int)
    requires lo <= mid < hi
    requires Ordered(a, svc) && Within(a, svc, lo, mid)
    requires Ordered(b, svc) && Within(b, svc, mid + 1, hi)
    ensures Ordered(a + b, svc) && Within(a + b, svc, lo, hi)
  {
    forall i, j | 0 <= i < j < |a + b|
      ensures Step(svc, (a + b)[i]) < Step(svc, (a + b)[j])
    {
      if j < |a| {
        assert (a + b)[i] == a[i] && (a + b)[j] == a[j];
      } else if i < |a| {
        assert (a + b)[i] == a[i] && (a + b)[j] == b[j - |a|];
      } else {
        assert (a + b)[i] == b[i - |a|] && (a + b)[j] == b[j - |a|];
      }
    }
    forall i | 0 <= i < |a + b|
      ensures lo <= Step(svc, (a + b)[i]) <= hi
    {
      if i < |a| {
        assert (a + b)[i] == a[i];
      } else {
        assert (a + b)[i] == b[i - |a|];
      }
    }
  }

  /** The position of a command in the turn-on sequence. */
  function TurnOnStep(c: Command): nat {
    match c
    case EnableOutput => 0
    case EnableCatOutput => 1
    case CecToSource(_) => 2
    case CecToOutput(code) => if code == 0 then 3 else 4
    case _ => 5
  }

  /**
   * `async_turn_on`: enable the HDMI and then the CAT stream when their toggles are set; with
   * the CEC output toggle, power the source on (1), the display on (0) and switch the display
   * to this input (5); then refresh. The CEC source toggle only decides a delay.
   */
  function TurnOnCommands(opts: Options): (cmds: seq<Command>)
    ensures EnableOutput in cmds <==> opts.hdmiStreamToggle
    ensures EnableCatOutput in cmds <==> opts.catStreamToggle
    ensures forall c :: c in cmds && c.CecToSource? ==> c == CecToSource(1) && opts.cecOutputToggle
    ensures forall c :: c in cmds && c.CecToOutput? ==> c.code in {0, 5} && opts.cecOutputToggle
    ensures opts.cecOutputToggle ==> CecToSource(1) in cmds && CecToOutput(0) in cmds && CecToOutput(5) in cmds
    ensures DisableOutput !in cmds && DisableCatOutput !in cmds
    ensures forall c :: c in cmds ==> !c.SelectVideoSource?
    ensures cmds != [] && cmds[|cmds| - 1] == RequestRefresh
  {
    var hdmi := if opts.hdmiStreamToggle then [EnableOutput] else [];
    var cat := if opts.catStreamToggle then [EnableCatOutput] else [];
    var cec := if opts.cecOutputToggle then [CecToSource(1), CecToOutput(0), CecToOutput(5)] else [];
    hdmi + cat + cec + [RequestRefresh]
  }

  /** The position of a command in the turn-off sequence. */
  function TurnOffStep(c: Command): nat {
    match c
    case CecToOutput(_) => 0
    case CecToSource(_) => 1
    case DisableOutput => 2
    case DisableCatOutput => 3
    case _ => 4
  }

  /**
   * `async_turn_off`: with the CEC output toggle turn the display off (1), with the CEC source
   * toggle turn the source off (2), then disable the HDMI and the CAT stream when their toggles
   * are set, then refresh.
   */
  function TurnOffCommands(opts: Options): (cmds: seq<Command>)
    ensures CecToOutput(1) in cmds <==> opts.cecOutputToggle
    ensures CecToSource(2) in cmds <==> opts.cecSourceToggle
    ensures DisableOutput in cmds <==> opts.hdmiStreamToggle
    ensures DisableCatOutput in cmds <==> opts.catStreamToggle
    ensures forall c :: c in cmds && c.CecToOutput? ==> c.code == 1
    ensures forall c :: c in cmds && c.CecToSource? ==> c.code == 2
    ensures EnableOutput !in cmds && EnableCatOutput !in cmds
    ensures forall c :: c in cmds ==> !c.SelectVideoSource?
    ensures cmds != [] && cmds[|cmds| - 1] == RequestRefresh
  {
    var display := if opts.cecOutputToggle then [CecToOutput(1)] else [];
    var source := if opts.cecSourceToggle then [CecToSource(2)] else [];
    var hdmi := if opts.hdmiStreamToggle then [DisableOutput] else [];
    var cat := if opts.catStreamToggle then [DisableCatOutput] else [];
    var front := display + source + hdmi + cat;
    var cmds := front + [RequestRefresh];
    assert cmds[|cmds| - 1] == RequestRefresh;
    assert forall c :: c in cmds ==> c in front || c == RequestRefresh;
    cmds
  }

  /** Lemma: turning on issues its commands in the order of `TurnOnStep`, each at most once. */
  lemma TurnOnOrdered(opts: Options)
    ensures Ordered(TurnOnCommands(opts), TurningOn)
  {
    var hdmi := if opts.hdmiStreamToggle then [EnableOutput] else [];
    var cat := if opts.catStreamToggle then [EnableCatOutput] else [];
    var cec := if opts.cecOutputToggle then [CecToSource(1), CecToOutput(0), CecToOutput(5)] else [];
    assert Ordered(hdmi + cat, TurningOn) && Within(hdmi + cat, TurningOn, 0, 1) by {
      AppendOrdered(hdmi, cat, TurningOn, 0, 0, 1);
    }
    assert Ordered(hdmi + cat + cec, TurningOn) && Within(hdmi + cat + cec, TurningOn, 0, 4) by {
      assert Ordered(cec, TurningOn) && Within(cec, TurningOn, 2, 4);
      AppendOrdered(hdmi + cat, cec, TurningOn, 0, 1, 4);
    }
    AppendOrdered(hdmi + cat + cec, [RequestRefresh], TurningOn, 0, 4, 5);
  }

  /** Lemma: a command issued only when `on` holds is an ordered run at its own position. */
  lemma OptionalOrdered(on: bool, c: Command, svc: Service)
    ensures Ordered(if on then [c] else [], svc)
    ensures Within(if on then [c] else [], svc, Step(svc, c), Step(svc, c))
  {
  }

  /** Lemma: four runs at turn-off positions 0, 1, 2 and 3, then the refresh, are ordered. */
  lemma TurnOffPartsOrdered(display: seq<Command>, source: seq<Command>, hdmi: seq<Command>, cat: seq<Command>)
    requires Ordered(display, TurningOff) && Within(display, TurningOff, 0, 0)
    requires Ordered(source, TurningOff) && Within(source, TurningOff, 1, 1)
    requires Ordered(hdmi, TurningOff) && Within(hdmi, TurningOff, 2, 2)
    requires Ordered(cat, TurningOff) && Within(cat, TurningOff, 3, 3)
    ensures Ordered(display + source + hdmi + cat + [RequestRefresh], TurningOff)
  {
    AppendOrdered(display, source, TurningOff, 0, 0, 1);
    AppendOrdered(display + source, hdmi, TurningOff, 0, 1, 2);
    AppendOrdered(display + source + hdmi, cat, TurningOff, 0, 2, 3);
    OptionalOrdered(true, RequestRefresh, TurningOff);
    AppendOrdered(display + source + hdmi + cat, [RequestRefresh], TurningOff, 0, 3, 4);
  }

  /** Lemma: turning off issues its commands in the order of `TurnOffStep`, each at most once. */
  lemma TurnOffOrdered(opts: Options)
    ensures Ordered(TurnOffCommands(opts), TurningOff)
  {
    OptionalOrdered(opts.cecOutputToggle, CecToOutput(1), TurningOff);
    OptionalOrdered(opts.cecSourceToggle, CecToSource(2), TurningOff);
    OptionalOrdered(opts.hdmiStreamToggle, DisableOutput, TurningOff);
    OptionalOrdered(opts.catStreamToggle, DisableCatOutput, TurningOff);
    TurnOffPartsOrdered(if opts.cecOutputToggle then [CecToOutput(1)] else [],
                        if opts.cecSourceToggle then [CecToSource(2)] else [],
                        if opts.hdmiStreamToggle then [DisableOutput] else [],
                        if opts.catStreamToggle then [DisableCatOutput] else []);
  }

  /** Lemma: the CEC source toggle has no effect on turning on. */
  lemma TurnOnIgnoresCecSourceToggle(opts: Options)
    ensures TurnOnCommands(opts) == TurnOnCommands(opts.(cecSourceToggle := !opts.cecSourceToggle))
  {
  }

  predicate IsStreamCommand(c: Command) {
    c.EnableOutput? || c.EnableCatOutput? || c.DisableOutput? || c.DisableCatOutput?
  }

  /** The stream commands of a sequence, in order. */
  function StreamCommands(cmds: seq<Command>): seq<Command> {
    if cmds == [] then []
    else if IsStreamCommand(cmds[0]) then [cmds[0]] + StreamCommands(cmds[1..])
    else StreamCommands(cmds[1..])
  }

  /** Lemma: filtering a concatenation filters each part. */
  lemma {:induction false} StreamCommandsAppend(a: seq<Command>, b: seq<Command>)
    ensures StreamCommands(a + b) == StreamCommands(a) + StreamCommands(b)
  {
    if a == [] {
      assert a + b == b;
    } else {
      assert (a + b)[0] == a[0];
      assert (a + b)[1..] == a[1..] + b;
      StreamCommandsAppend(a[1..], b);
      if IsStreamCommand(a[0]) {
        assert [a[0]] + StreamCommands(a[1..]) + StreamCommands(b)
            == [a[0]] + (StreamCommands(a[1..]) + StreamCommands(b));
      }
    }
  }

  /** Lemma: a sequence of stream commands is its own filter; one without any filters to
    * nothing. */
  lemma {:induction false} StreamCommandsOfUniform(cmds: seq<Command>)
    ensures (forall c :: c in cmds ==> IsStreamCommand(c)) ==> StreamCommands(cmds) == cmds
    ensures (forall c :: c in cmds ==> !IsStreamCommand(c)) ==> StreamCommands(cmds) == []
  {
    if cmds != [] {
      assert forall c :: c in cmds[1..] ==> c in cmds;
      StreamCommandsOfUniform(cmds[1..]);
    }
  }

  /** The stream command that undoes another. */
  function Undo(c: Command): Command {
    match c
    case EnableOutput => DisableOutput
    case EnableCatOutput => DisableCatOutput
    case DisableOutput => EnableOutput
    case DisableCatOutput => EnableCatOutput
    case _ => c
  }

  /** Lemma: the stream commands of turning on are the HDMI and then the CAT enable. */
  lemma StreamCommandsOfTurnOn(opts: Options)
    ensures StreamCommands(TurnOnCommands(opts)) ==
              (if opts.hdmiStreamToggle then [EnableOutput] else [])
              + (if opts.catStreamToggle then [EnableCatOutput] else [])
  {
    var hdmi := if opts.hdmiStreamToggle then [EnableOutput] else [];
    var cat := if opts.catStreamToggle then [EnableCatOutput] else [];
    var cec := if opts.cecOutputToggle then [CecToSource(1), CecToOutput(0), CecToOutput(5)] else [];
    assert StreamCommands(hdmi + cat) == hdmi + cat by {
      StreamCommandsOfUniform(hdmi + cat);
    }
    assert StreamCommands(cec) == [] by {
      StreamCommandsOfUniform(cec);
    }
    assert StreamCommands([RequestRefresh]) == [] by {
      StreamCommandsOfUniform([RequestRefresh]);
    }
    assert StreamCommands(hdmi + cat + cec) == hdmi + cat by {
      StreamCommandsAppend(hdmi + cat, cec);
    }
    StreamCommandsAppend(hdmi + cat + cec, [RequestRefresh]);
  }

  /** Lemma: the stream commands of turning off are the HDMI and then the CAT disable. */
  lemma StreamCommandsOfTurnOff(opts: Options)
    ensures StreamCommands(TurnOffCommands(opts)) ==
              (if opts.hdmiStreamToggle then [DisableOutput] else [])
              + (if opts.catStreamToggle then [DisableCatOutput] else [])
  {
    var display := if opts.cecOutputToggle then [CecToOutput(1)] else [];
    var source := if opts.cecSourceToggle then [CecToSource(2)] else [];
    var hdmi := if opts.hdmiStreamToggle then [DisableOutput] else [];
    var cat := if opts.catStreamToggle then [DisableCatOutput] else [];
    assert StreamCommands(display + source) == [] by {
      StreamCommandsOfUniform(display + source);
    }
    assert StreamCommands(hdmi) == hdmi && StreamCommands(cat) == cat by {
      StreamCommandsOfUniform(hdmi);
      StreamCommandsOfUniform(cat);
    }
    assert StreamCommands([RequestRefresh]) == [] by {
      StreamCommandsOfUniform([RequestRefresh]);
    }
    assert StreamCommands(display + source + hdmi) == hdmi by {
      StreamCommandsAppend(display + source, hdmi);
    }
    assert StreamCommands(display + source + hdmi + cat) == hdmi + cat by {
      StreamCommandsAppend(display + source + hdmi, cat);
    }
    StreamCommandsAppend(display + source + hdmi + cat, [RequestRefresh]);
  }

  /** Lemma: turning off undoes exactly the stream commands of turning on, in the same order. */
  lemma TurnOffUndoesTurnOn(opts: Options)
    ensures |StreamCommands(TurnOffCommands(opts))| == |StreamCommands(TurnOnCommands(opts))|
    ensures forall i :: 0 <= i < |StreamCommands(TurnOnCommands(opts))| ==>
              StreamCommands(TurnOffCommands(opts))[i] == Undo(StreamCommands(TurnOnCommands(opts))[i])
  {
    StreamCommandsOfTurnOn(opts);
    StreamCommandsOfTurnOff(opts);
    StreamTogglesUndo(opts.hdmiStreamToggle, opts.catStreamToggle);
  }

  /** Lemma: the disables for the two stream toggles undo the enables, position by position. */
  lemma StreamTogglesUndo(hdmi: bool, cat: bool)
    ensures var on := (if hdmi then [EnableOutput] else []) + (if cat then [EnableCatOutput] else []);
            var off := (if hdmi then [DisableOutput] else []) + (if cat then [DisableCatOutput] else []);
            |off| == |on| && forall i :: 0 <= i < |on| ==> off[i] == Undo(on[i])
  {
  }

  datatype VolumeKey = VolumeUp | VolumeDown | VolumeMute

  /**
   * `_async_volume_send_cec` for the three volume services: with "output" the display gets
   * 4, 3 or 2; with "source" the routed source gets 19, 18 or 17; any other option sends
   * nothing, and no refresh is requested.
   */
  function VolumeCommands(option: string, key: VolumeKey): (cmds: seq<Command>)
    ensures |cmds| <= 1
    ensures cmds != [] <==> option == "output" || option == "source"
    ensures cmds != [] ==> VolumeEnabled(option)
    ensures option == "output" ==> cmds[0].CecToOutput? && cmds[0].code in {2, 3, 4}
    ensures option == "source" ==> cmds[0].CecToSource? && cmds[0].code in {17, 18, 19}
    ensures option == "output" || option == "source" ==>
              (cmds[0].code == 4 || cmds[0].code == 19 <==> key == VolumeUp)
              && (cmds[0].code == 2 || cmds[0].code == 17 <==> key == VolumeMute)
  {
    var (outputCode, sourceCode) :=
      match key
      case VolumeUp => (4, 19)
      case VolumeDown => (3, 18)
      case VolumeMute => (2, 17);
    if option == "output" then [CecToOutput(outputCode)]
    else if option == "source" then [CecToSource(sourceCode)]
    else []
  }

  /** Lemma: the three volume services send three different commands. */
  lemma VolumeCommandsDistinct(option: string, k1: VolumeKey, k2: VolumeKey)
    requires option == "output" || option == "source"
    requires k1 != k2
    ensures VolumeCommands(option, k1) != VolumeCommands(option, k2)
  {
  }

  // ---------------------------------------------------------------------------------------
  // The master player

  /** `JtechMasterMediaPlayer.state`: unavailable without a power value, else on or off by the
    * value's truthiness. */
  function MasterState(data: map<Key, Value>): (r: PlayerState)
    ensures r == Unavailable <==> Power !in data || data[Power] == Null
    ensures r == On <==> Power in data && Truthy(data[Power])
    ensures r == Off <==> Power in data && data[Power] != Null && !Truthy(data[Power])
  {
    if Power !in data then Unavailable
    else
      var power := data[Power];
      if power == Null then Unavailable
      else if Truthy(power) then On
      else Off
  }

  /** Lemma: after a cycle that returned data, the master player is unavailable exactly when
    * the status request failed, and otherwise follows the reported power. */
  lemma MasterStateAfterCycle(st: Statuses)
    ensures MasterState(CombinedData(st)) ==
              if st.status.None? then Unavailable
              else if st.status.value.power then On
              else Off
  {
    CombinedPower(st);
  }
}
