/**
 * The older output media player at the repository root. It reads the same options and issues
 * the same commands as the package player, but decides its state by a fall-through chain that
 * gives a down stream path precedence, offers turn on/off only when not both stream toggles are
 * set, and never asks for a refresh itself.
 */
module LegacyMediaPlayer {
  import opened Python
  import opened Structures
  import MediaPlayer

  /**
   * The source record this player reads. The coordinator it imports (`coordinator.py` beside
   * it) is not part of this model; its source records are taken to carry `cat_active` next to
   * the name and `active`.
   */
  datatype LegacySource = LegacySource(name: string, active: bool, catActive: bool)

  // ---------------------------------------------------------------------------------------
  // State

  /** The CAT path of the output is configured and not both connected and enabled. */
  predicate CatDown(opts: MediaPlayer.Options, info: OutputInfo) {
    opts.catStreamToggle && !(info.catConnected && info.catEnabled)
  }

  /** The HDMI path of the output is configured and not both connected and enabled. */
  predicate HdmiDown(opts: MediaPlayer.Options, info: OutputInfo) {
    opts.hdmiStreamToggle && !(info.connected && info.enabled)
  }

  /**
   * The decision chain of `state` once both records are found: the combined check when both
   * toggles are set, then the CAT check, then the HDMI check, each returning off when its path
   * is down and playing when its source flag is set; idle when none returned. So the output is
   * off exactly when a configured path is down, and playing exactly when it is not off and a
   * configured path carries an active source.
   */
  function Decide(opts: MediaPlayer.Options, info: OutputInfo, src: LegacySource): (r: MediaPlayer.PlayerState)
    ensures r == MediaPlayer.Off <==> CatDown(opts, info) || HdmiDown(opts, info)
    ensures r == MediaPlayer.Playing <==>
              && !CatDown(opts, info) && !HdmiDown(opts, info)
              && ((opts.catStreamToggle && src.catActive) || (opts.hdmiStreamToggle && src.active))
    ensures r in {MediaPlayer.Playing, MediaPlayer.Off, MediaPlayer.Idle}
  {
    var cat := opts.catStreamToggle;
    var hdmi := opts.hdmiStreamToggle;
    if cat && hdmi && !(info.catConnected && info.catEnabled && info.connected && info.enabled) then
      MediaPlayer.Off
    else if cat && hdmi && src.catActive && src.active then
      MediaPlayer.Playing
    else if cat && !(info.catConnected && info.catEnabled) then
      MediaPlayer.Off
    else if cat && src.catActive then
      MediaPlayer.Playing
    else if hdmi && !(info.connected && info.enabled) then
      MediaPlayer.Off
    else if hdmi && src.active then
      MediaPlayer.Playing
    else
      MediaPlayer.Idle
  }

  /**
   * `JtechMediaPlayer.state`: the output record (always truthy once found), then the source
   * record it is routed to, looked up whatever the toggles; either lookup may raise.
   */
  function State(
    opts: MediaPlayer.Options,
    outputs: Option<seq<OutputInfo>>,
    sources: Option<seq<LegacySource>>,
    index: int): (r: Read<MediaPlayer.PlayerState>)
    ensures r.Raise? <==> MediaPlayer.RoutedSource(outputs, sources, index).Raise?
    ensures r.Raise? ==> r.error == MediaPlayer.RoutedSource(outputs, sources, index).error
    ensures r.Ok? ==>
              && MediaPlayer.OutputInfoAt(outputs, index).Ok?
              && r.value == Decide(opts, MediaPlayer.OutputInfoAt(outputs, index).value,
                                   MediaPlayer.RoutedSource(outputs, sources, index).value)
    ensures r.Ok? ==> r.value != MediaPlayer.Unavailable
  {
    match MediaPlayer.OutputInfoAt(outputs, index)
    case Raise(e) => Raise(e)
    case Ok(info) =>
      match MediaPlayer.RoutedSource(outputs, sources, index)
      case Raise(e) => Raise(e)
      case Ok(src) => Ok(Decide(opts, info, src))
  }

  /** Lemma: with neither stream toggle set, a found output is idle whatever its links. */
  lemma NoTogglesIdle(opts: MediaPlayer.Options, info: OutputInfo, src: LegacySource)
    requires !opts.hdmiStreamToggle && !opts.catStreamToggle
    ensures Decide(opts, info, src) == MediaPlayer.Idle
  {
  }

  /** Lemma: with both toggles set and both paths up, the output plays when the source is
    * active on either path and is idle otherwise. */
  lemma BothTogglesLinksUp(opts: MediaPlayer.Options, info: OutputInfo, src: LegacySource)
    requires opts.hdmiStreamToggle && opts.catStreamToggle && MediaPlayer.AllLinksUp(info)
    ensures Decide(opts, info, src) == (if src.catActive || src.active then MediaPlayer.Playing else MediaPlayer.Idle)
  {
  }

  /**
   * Lemma: the two players disagree on precedence. With only the HDMI toggle set and the HDMI
   * path down, the package player counts the output as powered (never off), while this one
   * reports it off.
   */
  lemma PrecedenceDiffers(opts: MediaPlayer.Options, info: OutputInfo, src: LegacySource)
    requires opts.hdmiStreamToggle && !opts.catStreamToggle && !(info.connected && info.enabled)
    ensures MediaPlayer.OutputState(opts, info)
    ensures Decide(opts, info, src) == MediaPlayer.Off
  {
  }

  // ---------------------------------------------------------------------------------------
  // Sources

  /** The `name` attribute of this player's source records. `source_list` and `source` read it
    * exactly as the package player does: `MediaPlayer.SourceList(sources, SourceName)` and
    * `MediaPlayer.Source(outputs, sources, index, SourceName)`. */
  function SourceName(s: LegacySource): string {
    s.name
  }

  // ---------------------------------------------------------------------------------------
  // Supported features

  /** `supported_features`: the base features, the volume pair when volume control is
    * configured, and turn on/off unless both stream toggles are set. */
  method SupportedFeatures(opts: MediaPlayer.Options) returns (features: set<MediaPlayer.Feature>)
    ensures MediaPlayer.BaseFeatures <= features
    ensures forall f :: f in MediaPlayer.VolumeFeatures ==>
              (f in features <==> MediaPlayer.VolumeEnabled(opts.volumeControl))
    ensures forall f :: f in MediaPlayer.PowerFeatures ==>
              (f in features <==> !(opts.hdmiStreamToggle && opts.catStreamToggle))
    ensures features <= MediaPlayer.BaseFeatures + MediaPlayer.VolumeFeatures + MediaPlayer.PowerFeatures
  {
    features := MediaPlayer.BaseFeatures;
    var volume := opts.volumeControl;
    if volume != "" && volume != "none" {
      features := features + {MediaPlayer.SupportVolumeStep};
      features := features + {MediaPlayer.SupportVolumeMute};
    }
    var toggleHdmi := opts.hdmiStreamToggle;
    var toggleCat := opts.catStreamToggle;
    if !(toggleHdmi && toggleCat) {
      features := features + {MediaPlayer.SupportTurnOn};
      features := features + {MediaPlayer.SupportTurnOff};
    }
  }

  // ---------------------------------------------------------------------------------------
  // Commands

  /**
   * `async_select_source`: select the 1-based position of the first source named `name`, if
   * any, and stop; no refresh is requested. Enumerating a missing list raises TypeError.
   */
  method SelectSource(sources: Option<seq<LegacySource>>, name: string) returns (r: Read<seq<MediaPlayer.Command>>)
    ensures r.Raise? <==> sources.None?
    ensures r.Raise? ==> r.error == TypeError
    ensures r.Ok? ==>
              || (r.value == [] && MediaPlayer.NoMatchBefore(sources.value, SourceName, name, |sources.value|))
              || (&& |r.value| == 1
                  && r.value[0].SelectVideoSource?
                  && 1 <= r.value[0].source <= |sources.value|
                  && sources.value[r.value[0].source - 1].name == name
                  && MediaPlayer.NoMatchBefore(sources.value, SourceName, name, r.value[0].source - 1))
  {
    if sources.None? {
      return Raise(TypeError);
    }
    var s := sources.value;
    var cmds: seq<MediaPlayer.Command> := [];
    var idx := 0;
    while idx < |s|
      invariant 0 <= idx <= |s|
      invariant MediaPlayer.NoMatchBefore(s, SourceName, name, idx)
      invariant cmds == []
    {
      if s[idx].name == name {
        cmds := cmds + [MediaPlayer.SelectVideoSource(idx + 1)];
        break;
      }
      idx := idx + 1;
    }
    r := Ok(cmds);
  }

  /**
   * `async_turn_on`: enable the HDMI and then the CAT stream when their toggles are set; with
   * the CEC output toggle, power the source on (1), the display on (0) and switch the display
   * to this input (5). The same commands as the package player, without its refresh.
   */
  function TurnOnCommands(opts: MediaPlayer.Options): (cmds: seq<MediaPlayer.Command>)
    ensures cmds + [MediaPlayer.RequestRefresh] == MediaPlayer.TurnOnCommands(opts)
    ensures MediaPlayer.RequestRefresh !in cmds
  {
    var hdmi := if opts.hdmiStreamToggle then [MediaPlayer.EnableOutput] else [];
    var cat := if opts.catStreamToggle then [MediaPlayer.EnableCatOutput] else [];
    var cec := if opts.cecOutputToggle then
      [MediaPlayer.CecToSource(1), MediaPlayer.CecToOutput(0), MediaPlayer.CecToOutput(5)]
    else [];
    hdmi + cat + cec
  }

  /**
   * `async_turn_off`: with the CEC output toggle turn the display off (1), with the CEC source
   * toggle turn the source off (2), then disable the HDMI and the CAT stream when their toggles
   * are set. The same commands as the package player, without its refresh.
   */
  function TurnOffCommands(opts: MediaPlayer.Options): (cmds: seq<MediaPlayer.Command>)
    ensures cmds + [MediaPlayer.RequestRefresh] == MediaPlayer.TurnOffCommands(opts)
    ensures MediaPlayer.RequestRefresh !in cmds
  {
    var display := if opts.cecOutputToggle then [MediaPlayer.CecToOutput(1)] else [];
    var source := if opts.cecSourceToggle then [MediaPlayer.CecToSource(2)] else [];
    var hdmi := if opts.hdmiStreamToggle then [MediaPlayer.DisableOutput] else [];
    var cat := if opts.catStreamToggle then [MediaPlayer.DisableCatOutput] else [];
    display + source + hdmi + cat
  }

  /** Lemma: dropping the last command of an ordered sequence leaves it ordered. */
  lemma OrderedWithoutLast(cmds: seq<MediaPlayer.Command>, last: MediaPlayer.Command, svc: MediaPlayer.Service)
    requires MediaPlayer.Ordered(cmds + [last], svc)
    ensures MediaPlayer.Ordered(cmds, svc)
  {
    forall i, j | 0 <= i < j < |cmds|
      ensures MediaPlayer.Step(svc, cmds[i]) < MediaPlayer.Step(svc, cmds[j])
    {
      assert cmds[i] == (cmds + [last])[i] && cmds[j] == (cmds + [last])[j];
    }
  }

  /** Lemma: turning on and off issue their commands in the package player's order. */
  lemma TurnOnOffOrdered(opts: MediaPlayer.Options)
    ensures MediaPlayer.Ordered(TurnOnCommands(opts), MediaPlayer.TurningOn)
    ensures MediaPlayer.Ordered(TurnOffCommands(opts), MediaPlayer.TurningOff)
  {
    assert MediaPlayer.Ordered(TurnOnCommands(opts), MediaPlayer.TurningOn) by {
      MediaPlayer.TurnOnOrdered(opts);
      OrderedWithoutLast(TurnOnCommands(opts), MediaPlayer.RequestRefresh, MediaPlayer.TurningOn);
    }
    assert MediaPlayer.Ordered(TurnOffCommands(opts), MediaPlayer.TurningOff) by {
      MediaPlayer.TurnOffOrdered(opts);
      OrderedWithoutLast(TurnOffCommands(opts), MediaPlayer.RequestRefresh, MediaPlayer.TurningOff);
    }
  }

  /** Lemma: turning off disables exactly the streams turning on enables, in the same order. */
  lemma TurnOffUndoesTurnOn(opts: MediaPlayer.Options)
    ensures |MediaPlayer.StreamCommands(TurnOffCommands(opts))| == |MediaPlayer.StreamCommands(TurnOnCommands(opts))|
    ensures forall i :: 0 <= i < |MediaPlayer.StreamCommands(TurnOnCommands(opts))| ==>
              MediaPlayer.StreamCommands(TurnOffCommands(opts))[i] ==
                MediaPlayer.Undo(MediaPlayer.StreamCommands(TurnOnCommands(opts))[i])
  {
    var refresh := [MediaPlayer.RequestRefresh];
    assert MediaPlayer.StreamCommands(refresh) == [] by {
      MediaPlayer.StreamCommandsOfUniform(refresh);
    }
    assert MediaPlayer.StreamCommands(TurnOnCommands(opts)) ==
           MediaPlayer.StreamCommands(MediaPlayer.TurnOnCommands(opts)) by {
      MediaPlayer.StreamCommandsAppend(TurnOnCommands(opts), refresh);
    }
    assert MediaPlayer.StreamCommands(TurnOffCommands(opts)) ==
           MediaPlayer.StreamCommands(MediaPlayer.TurnOffCommands(opts)) by {
      MediaPlayer.StreamCommandsAppend(TurnOffCommands(opts), refresh);
    }
    MediaPlayer.TurnOffUndoesTurnOn(opts);
  }
}
