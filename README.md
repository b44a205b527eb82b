# J-Tech Digital HDMI matrix integration — Dafny model

This project models the core of a home-automation integration for J-Tech Digital HDMI matrix
switches. A coordinator polls the matrix through a vendor client library. It turns the
responses into one record per matrix output and per matrix input ("source"), plus a flat
mapping of device-wide values. Media-player entities, one per output and one master, derive
their state from those records and issue commands back through the coordinator.

The repository contains two generations of this code, and both are modelled:

- the packaged integration: `custom_components/jtechdigital/coordinator.py` (module
  `Coordinator`) and `custom_components/jtechdigital/media_player.py` (module `MediaPlayer`);
- the older files at the repository root: `_coordinator.py` (module `LegacyCoordinator`) and
  `media_player.py` (module `LegacyMediaPlayer`).

Four small modules hold what they share:

- `Client`: the errors the vendor client raises, and the outcome of one awaited call.
- `Python`: `None`, raising, and list indexing with negative positions.
- `Structures`: the output and source records.
- `Routing`: the inverse routing map, that is, the outputs routed from one source.

Each Python `async` call into the client becomes an input of the model. The coordinator's
cycle takes an `Attempt` per request: the value it returned or the error it raised. A player's
service call returns the list of coordinator commands it would await, in order.

The two coordinators are modelled in the form they have in the source:

- The packaged coordinator is a class with `connected`, `outputs` and `sources` fields. Its
  handlers are loop methods, proved equal to declarative reference functions.
- The older coordinator is a class whose update methods overwrite fields. Each update method
  is proved to produce the state given by a pure rule (`WithStatus`, `WithVideo`, ...).
  The whole poll cycle is proved equal to the pure `Cycle`, and the properties of the cycle
  are lemmas about `Cycle`.
- The older coordinator has 25 device-state attributes (besides the client and the credentials, counting `presets_names`/`preset_names` once). The class groups them by their name prefix into
  four record-valued fields:
  - `info`: the device-wide values;
  - `sources`: the `sources_*` lists;
  - `outputs`: the `outputs_*` lists;
  - `link`: `connected` and the two counts.

  Every Python assignment is still one assignment to a component of these records.

Behaviour worth noting:

- The packaged coordinator builds the combined data from an empty dictionary on every cycle.
  A key whose request failed is absent; it does not keep an earlier value
  (`Coordinator.BuildCombinedData`, `Coordinator.CombinedPower`).
- Only the status response supplies `power` in the packaged coordinator. The older
  coordinator writes power in the order status (on connect only), video, source, output,
  system. The last write wins (`LegacyCoordinator.LastPowerWriterWins`).
- A command that fails with an error that is not a `JtechError` escapes the older
  coordinator's decorator without a refresh (`LegacyCoordinator.CatchErrors`).
- The source records list outputs under the 0-based position of their selected source. The
  players read the record at `source - 1`. So the record a player shows does not list its
  own output, except in one corner case (`MediaPlayer.DisplayedSourceOmitsOutput`).

## Model

| member | source | states |
|---|---|---|
| Coordinator.FetchStatus | custom_components/jtechdigital/coordinator.py:150-174 | each of the seven keys is None exactly when its own request raised, and otherwise holds that request's response; one failure does not affect another key |
| Coordinator.HandleOutputUpdate | custom_components/jtechdigital/coordinator.py:110-126 | skipped (None) iff the output response is missing or has no names; crashes iff some per-output array is shorter than the name list or the CEC response is missing; otherwise one record per output name, in order, with the fields of that position and its CEC selection |
| Coordinator.HandleSourceUpdate | custom_components/jtechdigital/coordinator.py:92-108 | skipped iff the source response is missing or has no names; crashes iff an array is short or the CEC or output response is missing; otherwise record `k` carries name, activity, EDID and CEC selection of position `k` and the 1-based numbers of the outputs routed to `k` |
| Coordinator.SourceListsInvertRouting | custom_components/jtechdigital/coordinator.py:103-106 | output number `n` appears in source record `k` exactly when output `n - 1` selects `k`, which is the output record's `source` |
| Coordinator.SourceListsDisjoint | custom_components/jtechdigital/coordinator.py:103-106 | no output number appears under two different sources |
| Coordinator.SourceListsAscending | custom_components/jtechdigital/coordinator.py:103-106 | every source's output list is in ascending output order |
| Coordinator.CombinedDataCharacterized | custom_components/jtechdigital/coordinator.py:54-84 | a map holding exactly the keys whose owning request returned, each with that response's attribute, is the combined data |
| Coordinator.BuildCombinedData | custom_components/jtechdigital/coordinator.py:54-84 | the combined data has a key exactly when the request owning it returned, with that response's attribute; nothing else is present |
| Coordinator.AddStatusKeys | custom_components/jtechdigital/coordinator.py:56-60 | after the status group, power/model/version are present iff the status request returned, with its values, and earlier keys are kept |
| Coordinator.AddNetworkKeys | custom_components/jtechdigital/coordinator.py:62-71 | after the network group, its eight keys are present iff the network request returned, with its values |
| Coordinator.AddSystemKeys | custom_components/jtechdigital/coordinator.py:73-78 | after the system group, baud rate, beep, lock and mode are present iff the system request returned |
| Coordinator.AddWebDetailsKeys | custom_components/jtechdigital/coordinator.py:80-82 | after the web details group, the title is present iff that request returned |
| Coordinator.CombinedPower | custom_components/jtechdigital/coordinator.py:56-58 | `power` is in the combined data iff the status request returned, and then equals the reported power |
| Coordinator.ConnectFailureClassified | custom_components/jtechdigital/coordinator.py:128-141 | a connect failure asks for re-authentication iff it is an authentication error; a refused connection and any other error fail the update with their own messages |
| Coordinator.ReconcileFailureClassified | custom_components/jtechdigital/coordinator.py:85-90 | an error while reconciling never asks for re-authentication; its message is the authentication one only for an authentication error |
| Coordinator.JtechCoordinator.constructor | custom_components/jtechdigital/coordinator.py:27-31 | no client, not connected, empty output and source lists |
| Coordinator.JtechCoordinator.ClientConnect | custom_components/jtechdigital/coordinator.py:128-141 | a connected coordinator stays connected and does nothing; otherwise it is connected afterwards iff the attempt returned, and a failed attempt yields its classified failure |
| Coordinator.JtechCoordinator.ClientEnsure | custom_components/jtechdigital/coordinator.py:143-148 | a client exists afterwards, and the connection behaves as `ClientConnect` |
| Coordinator.JtechCoordinator.UpdateData | custom_components/jtechdigital/coordinator.py:35-90 | a connect failure propagates and leaves the records; a crash while rebuilding outputs or sources disconnects and fails with "Failed to fetch data", leaving the records not yet replaced; otherwise outputs and sources are this cycle's records and the result is this cycle's combined data |
| Routing.RoutedToMembers | custom_components/jtechdigital/coordinator.py:103-106 | a number is in the inverse routing list iff the output at that position (less the base) selects the source |
| Routing.RoutedToAscending | custom_components/jtechdigital/coordinator.py:103-106 | the inverse routing list is strictly ascending |
| Routing.RoutedToShift | _coordinator.py:251-254 | the 0-based list of the older coordinator and the 1-based list of the packaged one have the same length and differ entry by entry by the base |
| MediaPlayer.OutputState | custom_components/jtechdigital/media_player.py:134-151 | an output counts as powered unless both stream toggles are set and one of its four link flags is down |
| MediaPlayer.OutputInfoAt | custom_components/jtechdigital/media_player.py:95-97 | the record of 1-based output `index`: TypeError when the output list is missing, IndexError when `index - 1` is outside `[-n, n)`, otherwise the element at `index - 1`, counted from the end when negative |
| MediaPlayer.RoutedSource | custom_components/jtechdigital/media_player.py:95-104 | a failed output lookup raises its error; otherwise the result is the lookup of the source record at the output's `source - 1`, with Python's negative wrap, raising when that lookup raises; a record found is one of the source list |
| MediaPlayer.SourceZeroWraps | custom_components/jtechdigital/media_player.py:99-103 | an output routed to source 0 shows the last source record, not an error |
| MediaPlayer.State | custom_components/jtechdigital/media_player.py:215-229 | playing iff the output is powered and its routed source is active; on iff powered and inactive; off iff found and not powered; a failed output or source lookup raises that lookup's error; unavailable is never reported |
| MediaPlayer.SingleToggleNeverOff | custom_components/jtechdigital/media_player.py:138-151 | with at most one stream toggle set, the state is never off |
| MediaPlayer.SourceList | custom_components/jtechdigital/media_player.py:231-234 | the source names in order, one per record; a missing list raises TypeError (the root player's `source_list`, media_player.py:225-228, is the same function over its own records) |
| MediaPlayer.Source | custom_components/jtechdigital/media_player.py:236-244 | the name of the routed source record, raising exactly when that lookup raises, with its error (the root player's `source`, media_player.py:230-238, is the same function over its own records) |
| MediaPlayer.SourceIsListed | custom_components/jtechdigital/media_player.py:231-244 | the source an entity shows is always in its source list |
| MediaPlayer.DisplayedSourceOmitsOutput | custom_components/jtechdigital/media_player.py:99-104 | the source record an entity shows lists its own output iff the output selects source 0 and there is a single source |
| MediaPlayer.SupportedFeatures | custom_components/jtechdigital/media_player.py:159-186 | always the seven base features; volume step and mute iff volume control is set and not "none"; turn on/off iff at least one stream toggle is set; nothing else |
| MediaPlayer.SelectSource | custom_components/jtechdigital/media_player.py:246-252 | selects the 1-based position of the first source with that name, if any, then refreshes; no match sends only the refresh; a missing list raises TypeError |
| MediaPlayer.TurnOnCommands | custom_components/jtechdigital/media_player.py:254-279 | enables HDMI iff its toggle is set and CAT iff its toggle is set; the CEC source-on and display-on/switch commands iff the CEC output toggle is set; never disables or selects; ends with a refresh |
| MediaPlayer.TurnOffCommands | custom_components/jtechdigital/media_player.py:281-300 | display off iff the CEC output toggle, source off iff the CEC source toggle, HDMI and CAT disable iff their toggles; never enables or selects; ends with a refresh |
| MediaPlayer.TurnOnOrdered | custom_components/jtechdigital/media_player.py:254-279 | turning on issues stream enables, then the source power-on, then the display commands, then the refresh, each at most once |
| MediaPlayer.TurnOffOrdered | custom_components/jtechdigital/media_player.py:281-300 | turning off issues the display command, then the source command, then the HDMI and CAT disables, then the refresh |
| MediaPlayer.TurnOnIgnoresCecSourceToggle | custom_components/jtechdigital/media_player.py:263-272 | the CEC source toggle does not change what turning on sends |
| MediaPlayer.StreamCommandsAppend | custom_components/jtechdigital/media_player.py:254-300 | the stream commands of a concatenation are those of each part, in order |
| MediaPlayer.StreamCommandsOfTurnOn | custom_components/jtechdigital/media_player.py:256-261 | the stream commands of turning on are the HDMI enable then the CAT enable, as configured |
| MediaPlayer.StreamCommandsOfTurnOff | custom_components/jtechdigital/media_player.py:294-299 | the stream commands of turning off are the HDMI disable then the CAT disable, as configured |
| MediaPlayer.TurnOffUndoesTurnOn | custom_components/jtechdigital/media_player.py:254-300 | turning off undoes exactly the stream commands of turning on, position by position |
| MediaPlayer.VolumeCommands | custom_components/jtechdigital/media_player.py:303-321 | with "output" one display command 4/3/2, with "source" one source command 19/18/17 for up/down/mute; nothing for any other option and no refresh |
| MediaPlayer.VolumeCommandsDistinct | custom_components/jtechdigital/media_player.py:303-313 | the three volume services send three different commands |
| MediaPlayer.MasterState | custom_components/jtechdigital/media_player.py:423-432 | unavailable iff power is absent or None; on iff power is truthy; off otherwise |
| MediaPlayer.MasterStateAfterCycle | custom_components/jtechdigital/media_player.py:423-432 | after a completed cycle the master is unavailable iff the status request failed, and otherwise follows the reported power |
| LegacyMediaPlayer.Decide | media_player.py:199-220 | off iff a configured stream path is down; playing iff not off and a configured path's source flag is set; idle otherwise |
| LegacyMediaPlayer.State | media_player.py:192-223 | raises exactly when the output or the routed source lookup raises, with that error; otherwise the decision for both records; never unavailable |
| LegacyMediaPlayer.NoTogglesIdle | media_player.py:199-220 | with no stream toggle set a found output is always idle |
| LegacyMediaPlayer.BothTogglesLinksUp | media_player.py:202-206 | with both toggles set and all links up, playing iff the source is active on either path, idle otherwise |
| LegacyMediaPlayer.PrecedenceDiffers | media_player.py:214-216 | with only the HDMI toggle and HDMI down, this player reports off while the packaged player counts the output as powered |
| LegacyMediaPlayer.SupportedFeatures | media_player.py:137-163 | base features always; volume pair iff volume control is configured; turn on/off iff not both stream toggles are set |
| LegacyMediaPlayer.SelectSource | media_player.py:240-245 | selects the 1-based position of the first matching source and stops; nothing without a match; no refresh; a missing list raises TypeError |
| LegacyMediaPlayer.TurnOnCommands | media_player.py:247-271 | the packaged player's turn-on commands without the final refresh |
| LegacyMediaPlayer.TurnOffCommands | media_player.py:273-291 | the packaged player's turn-off commands without the final refresh |
| LegacyMediaPlayer.TurnOnOffOrdered | media_player.py:247-291 | both command sequences keep the packaged player's order |
| LegacyMediaPlayer.TurnOffUndoesTurnOn | media_player.py:247-291 | turning off undoes exactly the stream commands of turning on, position by position |
| LegacyCoordinator.IfGiven | _coordinator.py:151-156 | a non-empty new list replaces the attribute and an empty one leaves it as it was, so it becomes empty only if both are |
| LegacyCoordinator.IfGivenOpt | _coordinator.py:137-142 | a non-empty new string replaces the attribute and an empty one leaves it as it was, so once known it stays known |
| LegacyCoordinator.WithStatus | _coordinator.py:133-142 | power always; model, MAC address and version only when non-empty; every other field unchanged |
| LegacyCoordinator.WithVideo | _coordinator.py:144-156 | power, routing and preset names always; source, output and CAT names only when non-empty; everything else unchanged |
| LegacyCoordinator.WithOutput | _coordinator.py:158-172 | power, routing, scalers and the four link lists always; output and CAT names only when non-empty; everything else unchanged |
| LegacyCoordinator.WithSource | _coordinator.py:174-182 | power, EDIDs and activity always; names only when non-empty; everything else unchanged |
| LegacyCoordinator.WithCec | _coordinator.py:184-194 | the CEC selections always; source names when non-empty; output names replaced when `alloutputname` is non-empty; power untouched |
| LegacyCoordinator.WithNetwork | _coordinator.py:196-201 | power, model and MAC address unconditionally; everything else unchanged |
| LegacyCoordinator.WithSystem | _coordinator.py:203-213 | power, baud rate, beep, lock and mode always; version only when non-empty; everything else unchanged |
| LegacyCoordinator.Cycle | _coordinator.py:103-131 | a cycle whose requests all returned completes with the updated state; anything that escapes is NameError |
| LegacyCoordinator.LastPowerWriterWins | _coordinator.py:120-123 | when every request returns, power ends as the system status reports it and the device is connected |
| LegacyCoordinator.RunFailsIffSomeRequestFails | _coordinator.py:105-123 | the updates stop with an error iff some request of the cycle raised |
| LegacyCoordinator.StatusOnlyOnConnect | _coordinator.py:106-118 | on an already connected device a cycle never changes the model, the MAC address or the counts |
| LegacyCoordinator.ConnectionLossTurnsOff | _coordinator.py:124-127 | a connection error or timeout at any step sets power off and disconnects, raising nothing |
| LegacyCoordinator.OtherErrorsEscape | _coordinator.py:128-131 | any other error escapes as NameError with the fields as far as the updates got; a rejected login changes nothing |
| LegacyCoordinator.SteadyKeepsKnown | _coordinator.py:144-213 | the four steady updates never clear a non-empty name list or forget a known model, MAC address or version |
| LegacyCoordinator.KnownValuesKept | _coordinator.py:103-131 | no cycle clears a non-empty name list or forgets a known model, MAC address or version |
| LegacyCoordinator.Calls | _coordinator.py:216-279 | device on/off and reboot await one power or reboot call; output on/off await the HDMI then the CAT stream call for that output with that flag; setting a source awaits one video-source call for that output and source |
| LegacyCoordinator.Later | _coordinator.py:266-275 | the replies after the first are the later calls' replies |
| LegacyCoordinator.Perform | _coordinator.py:266-275 | the calls issued are a prefix of the body's calls, and all of them when none raised |
| LegacyCoordinator.PerformStopsAtFirstError | _coordinator.py:266-275 | a body raises iff one of its calls raises, and then it stops at the first such call, every earlier call having returned |
| LegacyCoordinator.CatchErrors | _coordinator.py:29-47 | a JtechError is swallowed and the refresh follows as after success; any other exception escapes without a refresh |
| LegacyCoordinator.FailedHdmiEnableSkipsCat | _coordinator.py:265-269 | when enabling the HDMI stream fails with a device error, the CAT stream is not enabled and the refresh still happens |
| LegacyCoordinator.JtechCoordinator.constructor | _coordinator.py:53-91 | every attribute starts unknown or empty and the device is not connected |
| LegacyCoordinator.JtechCoordinator.UpdateStatus | _coordinator.py:133-142 | the fields afterwards are `WithStatus` of the fields before |
| LegacyCoordinator.JtechCoordinator.UpdateVideoStatus | _coordinator.py:144-156 | the fields afterwards are `WithVideo` of the fields before |
| LegacyCoordinator.JtechCoordinator.UpdateOutputStatus | _coordinator.py:158-172 | the fields afterwards are `WithOutput` of the fields before |
| LegacyCoordinator.JtechCoordinator.UpdateSourceStatus | _coordinator.py:174-182 | the fields afterwards are `WithSource` of the fields before |
| LegacyCoordinator.JtechCoordinator.UpdateCecStatus | _coordinator.py:184-194 | the fields afterwards are `WithCec` of the fields before |
| LegacyCoordinator.JtechCoordinator.UpdateNetwork | _coordinator.py:196-201 | the fields afterwards are `WithNetwork` of the fields before |
| LegacyCoordinator.JtechCoordinator.UpdateSystemStatus | _coordinator.py:203-213 | the fields afterwards are `WithSystem` of the fields before |
| LegacyCoordinator.JtechCoordinator.UpdateStatuses | _coordinator.py:120-123 | video, source, output and system updates in order, stopping at the first error, as `Steady` describes |
| LegacyCoordinator.JtechCoordinator.RunUpdates | _coordinator.py:105-123 | connect and read the status when not connected, then the steady updates, as `Run` describes |
| LegacyCoordinator.JtechCoordinator.UpdateData | _coordinator.py:103-131 | fields and outcome afterwards are those of `Cycle` on the fields before |
| LegacyCoordinator.JtechCoordinator.GetOutputInfo | _coordinator.py:231-245 | never returns: a failed validation raises the client's error, a short list raises IndexError, and otherwise the misspelt name raises NameError |
| LegacyCoordinator.JtechCoordinator.GetSourceInfo | _coordinator.py:247-262 | a failed validation raises; otherwise succeeds iff name, activity and EDID exist at `source - 1`, listing exactly the 0-based outputs whose source equals `source`, ascending, with those values and the CEC selection |

## Left out

- Calls into the vendor client library: each becomes an input (`Attempt`, `CycleInputs`, the `valid` flags), because the library is not part of this model.
- The error class hierarchy of the client library is not part of this model. Every client error except `ForeignError` is taken to be a `JtechError`, and a connection timeout is taken not to be a `JtechConnectionError`.
- The concurrency of `asyncio.gather` in the packaged coordinator: only what each request settled to matters, so the requests are taken as already settled.
- The `asyncio.sleep` delays of the players' turn on/off (CEC power and source delays): timing is not modelled, only the order of commands.
- The polling interval, the refresh debouncer, and the platform's retention of the last good data after a failed cycle belong to the Home Assistant framework.
- Entity plumbing is not modelled: `async_setup_entry`, `unique_id`, `device_info`, `device_class`, the option getters and `_handle_coordinator_update`. The option getters become the `Options` record; the defaults they fall back to are not modelled separately.
- The remote-key event handler (`_handle_tv_remote_key_press`) and the media transport services (play, pause, stop, next and previous track) send CEC keys only; they are not modelled.
- The master player's turn on/off: each awaits the coordinator's `async_power_on`/`async_power_off` and then `async_request_refresh`; the power commands are outside the player `Command` type, so these two services are not modelled.
- The packaged coordinator's command methods (`async_enable_output` through `async_power_off`) are single pass-throughs to the client; the players' commands stop at the coordinator (`Command`).
- `_async_send_cec_source` resolves the routed source number before sending; the model keeps only `CecToSource(code)` for the source the output is routed to.
- The root player's volume services are identical to the packaged player's and are covered by `MediaPlayer.VolumeCommands`.
- The root player imports a `coordinator.py` beside it, which is not part of this model. Its source records are taken to carry `cat_active` next to `name` and `active` (`LegacySource`).
- `LegacyCoordinator.JtechCoordinator.UpdateCecStatus` and `UpdateNetwork` are modelled, but the cycle never calls them, as in the source.
- The older coordinator initialises `presets_names` and its video update writes `preset_names`; only the written attribute is modelled (`Info.presetNames`, None until first written).
- The older coordinator's `except err:` handler is modelled as written: evaluating the unbound name raises NameError, so the reset of power and `connected` and the UpdateFailed in that handler never take effect.
- MediaPlayer.TurnOnCommands: the sequence is what the service awaits when every command returns. A command that raises ends the service, so only a prefix is sent, without the refresh. This includes the source CEC command, whose output lookup raises like `RoutedSource`'s.
- MediaPlayer.TurnOffCommands: as for `TurnOnCommands`, a raising command truncates the sequence and skips the refresh.
- MediaPlayer.VolumeCommands: a raising command, including the output lookup before a source command, ends the service; the model gives the command sent when it returns.
- MediaPlayer.SelectSource: the selection command raising ends the service before the refresh; the model gives the sequence when it returns.
- LegacyMediaPlayer.TurnOnCommands: a raising command truncates the sequence, as for the package player.
- LegacyMediaPlayer.TurnOffCommands: a raising command truncates the sequence, as for the package player.
- Response objects and output records are taken to be always truthy, so `if status:` and `if output_info:` test only for None. Strings and lists are truthy when non-empty.
- The `except JtechAuthError` branch of the packaged cycle (coordinator.py:85-87) cannot be reached from the device fetches, because `asyncio.gather(..., return_exceptions=True)` turns every fetch error into None. It is kept in `ReconcileFailure` for a `DeviceError`. The cycle itself only produces `RuntimeError` (a Python crash while rebuilding records).
- The config flow, the remaining entity modules and the integration setup are outside the modelled core.
