/**
 * The polling coordinator of the integration package: one poll cycle connects if needed,
 * settles seven status requests, rebuilds the output and source records, and returns the
 * combined scalar data.
 */
module Coordinator {
  import opened Client
  import opened Python
  import opened Structures
  import opened Routing

  const AuthFailedMessage := "Authentication failed"
  const ConnectFailedMessage := "Failed to connect"
  const FetchDataFailedMessage := "Failed to fetch data"
  const UnknownErrorMessage := "Unknown error occurred"

  // ---------------------------------------------------------------------------------------
  // Device responses (only the attributes the coordinator reads)

  datatype DeviceStatus = DeviceStatus(power: bool, model: string, version: string)

  datatype SourceStatus = SourceStatus(
    sourceNames: seq<string>,
    activeSources: seq<bool>,
    edidIndexes: seq<int>)

  datatype OutputStatus = OutputStatus(
    outputNames: seq<string>,
    selectedSources: seq<int>,
    outputCatNames: seq<string>,
    connectedOutputs: seq<bool>,
    connectedCatOutputs: seq<bool>,
    enabledOutputs: seq<bool>,
    enabledCatOutputs: seq<bool>,
    selectedOutputScalers: seq<int>)

  datatype CecStatus = CecStatus(selectedCecSources: seq<int>, selectedCecOutputs: seq<int>)

  datatype NetworkInfo = NetworkInfo(
    hostname: string,
    ipaddress: string,
    subnet: string,
    gateway: string,
    macaddress: string,
    dhcp: bool,
    telnetport: int,
    tcpport: int)

  datatype SystemStatus = SystemStatus(baudrateIndex: int, beep: bool, lock: bool, mode: int)

  datatype WebDetails = WebDetails(title: string)

  // ---------------------------------------------------------------------------------------
  // Fetching: seven requests, each settling on its own

  /** The seven status requests, in the order they are issued. */
  datatype Request =
    | StatusRequest | SourceRequest | OutputRequest | CecRequest
    | NetworkRequest | SystemRequest | WebDetailsRequest

  /** What each request settled to once all of them have finished. */
  datatype Responses = Responses(
    status: Attempt<DeviceStatus>,
    source: Attempt<SourceStatus>,
    output: Attempt<OutputStatus>,
    cec: Attempt<CecStatus>,
    network: Attempt<NetworkInfo>,
    system: Attempt<SystemStatus>,
    webDetails: Attempt<WebDetails>)

  /** The keyed record of fetch results: one key per request, None where the request raised. */
  datatype Statuses = Statuses(
    status: Option<DeviceStatus>,
    source: Option<SourceStatus>,
    output: Option<OutputStatus>,
    cec: Option<CecStatus>,
    network: Option<NetworkInfo>,
    system: Option<SystemStatus>,
    webDetails: Option<WebDetails>)

  /** Whether request `q` raised. */
  predicate RequestFailed(r: Responses, q: Request) {
    match q
    case StatusRequest => r.status.Raised?
    case SourceRequest => r.source.Raised?
    case OutputRequest => r.output.Raised?
    case CecRequest => r.cec.Raised?
    case NetworkRequest => r.network.Raised?
    case SystemRequest => r.system.Raised?
    case WebDetailsRequest => r.webDetails.Raised?
  }

  /** Whether the key of request `q` holds None. */
  predicate KeyMissing(s: Statuses, q: Request) {
    match q
    case StatusRequest => s.status.None?
    case SourceRequest => s.source.None?
    case OutputRequest => s.output.None?
    case CecRequest => s.cec.None?
    case NetworkRequest => s.network.None?
    case SystemRequest => s.system.None?
    case WebDetailsRequest => s.webDetails.None?
  }

  function Settle<T>(a: Attempt<T>): Option<T> {
    match a
    case Returned(v) => Some(v)
    case Raised(_) => None
  }

  /**
   * `_fetch_status`: each key holds its own request's response, or None when that request
   * raised; a failure of one request therefore leaves every other key as it would have been.
   */
  function FetchStatus(r: Responses): (s: Statuses)
    ensures forall q :: KeyMissing(s, q) <==> RequestFailed(r, q)
    ensures r.status.Returned? ==> s.status == Some(r.status.value)
    ensures r.source.Returned? ==> s.source == Some(r.source.value)
    ensures r.output.Returned? ==> s.output == Some(r.output.value)
    ensures r.cec.Returned? ==> s.cec == Some(r.cec.value)
    ensures r.network.Returned? ==> s.network == Some(r.network.value)
    ensures r.system.Returned? ==> s.system == Some(r.system.value)
    ensures r.webDetails.Returned? ==> s.webDetails == Some(r.webDetails.value)
  {
    Statuses(
      Settle(r.status), Settle(r.source), Settle(r.output), Settle(r.cec),
      Settle(r.network), Settle(r.system), Settle(r.webDetails))
  }

  // ---------------------------------------------------------------------------------------
  // Reconciliation into records

  /** A record list rebuilt by a handler: not built (the handler returns None), built, or
    * abandoned because Python raised (IndexError on a short array, AttributeError on None). */
  datatype Built<+T> = Skipped | Built(items: seq<T>) | Crashed

  function Min(a: int, b: int): int {
    if a <= b then a else b
  }

  /** The number of outputs every per-output array of `o` has an entry for. */
  function OutputArraysLength(o: OutputStatus): int {
    Min(|o.selectedSources|, Min(|o.outputCatNames|, Min(|o.connectedOutputs|,
      Min(|o.connectedCatOutputs|, Min(|o.enabledOutputs|, Min(|o.enabledCatOutputs|,
      |o.selectedOutputScalers|))))))
  }

  /** The record of the output at 0-based position `i`. */
  function OutputRecord(o: OutputStatus, cec: CecStatus, i: nat): OutputInfo
    requires i < |o.outputNames| && i < OutputArraysLength(o)
  {
    OutputInfo(
      o.selectedSources[i], o.outputNames[i], o.outputCatNames[i],
      o.connectedOutputs[i], o.connectedCatOutputs[i],
      o.enabledOutputs[i], o.enabledCatOutputs[i],
      o.selectedOutputScalers[i], i in cec.selectedCecOutputs)
  }

  /** Reference definition of the output records of one cycle. */
  function OutputUpdate(st: Statuses): Built<OutputInfo> {
    if st.output.None? || st.output.value.outputNames == [] then Skipped
    else
      var o := st.output.value;
      if st.cec.None? || OutputArraysLength(o) < |o.outputNames| then Crashed
      else Built(seq(|o.outputNames|, i requires 0 <= i < |o.outputNames| => OutputRecord(o, st.cec.value, i)))
  }

  /** `_handle_output_update`: one record per output name, in order. */
  method HandleOutputUpdate(st: Statuses) returns (r: Built<OutputInfo>)
    ensures r == OutputUpdate(st)
    ensures r.Skipped? <==> st.output.None? || st.output.value.outputNames == []
    ensures r.Crashed? <==>
              && st.output.Some? && st.output.value.outputNames != []
              && (st.cec.None? || OutputArraysLength(st.output.value) < |st.output.value.outputNames|)
    ensures r.Built? ==>
              && st.cec.Some?
              && |r.items| == |st.output.value.outputNames|
              && forall i :: 0 <= i < |r.items| ==>
                   && i < OutputArraysLength(st.output.value)
                   && r.items[i] == OutputRecord(st.output.value, st.cec.value, i)
  {
    if st.output.None? || st.output.value.outputNames == [] {
      return Skipped;
    }
    var o := st.output.value;
    var items: seq<OutputInfo> := [];
    var idx := 0;
    while idx < |o.outputNames|
      invariant 0 <= idx <= |o.outputNames|
      invariant idx <= OutputArraysLength(o)
      invariant idx > 0 ==> st.cec.Some?
      invariant |items| == idx
      invariant forall j :: 0 <= j < idx ==> st.cec.Some? && items[j] == OutputRecord(o, st.cec.value, j)
    {
      if idx >= |o.selectedSources| || idx >= |o.outputCatNames| || idx >= |o.connectedOutputs|
        || idx >= |o.connectedCatOutputs| || idx >= |o.enabledOutputs|
        || idx >= |o.enabledCatOutputs| || idx >= |o.selectedOutputScalers|
      {
        return Crashed;  // IndexError
      }
      if st.cec.None? {
        return Crashed;  // AttributeError: None has no selected_cec_outputs
      }
      var cecSelected := idx in st.cec.value.selectedCecOutputs;
      items := items + [OutputInfo(
        o.selectedSources[idx], o.outputNames[idx], o.outputCatNames[idx],
        o.connectedOutputs[idx], o.connectedCatOutputs[idx],
        o.enabledOutputs[idx], o.enabledCatOutputs[idx],
        o.selectedOutputScalers[idx], cecSelected)];
      idx := idx + 1;
    }
    r := Built(items);
  }

  /** The number of sources every per-source array of `s` has an entry for. */
  function SourceArraysLength(s: SourceStatus): int {
    Min(|s.activeSources|, |s.edidIndexes|)
  }

  /** The record of the source at 0-based position `k`, with its inverse routing list. */
  function SourceRecord(s: SourceStatus, o: OutputStatus, cec: CecStatus, k: nat): SourceInfo
    requires k < |s.sourceNames| && k < SourceArraysLength(s)
  {
    SourceInfo(
      RoutedTo(o.selectedSources, k, 1), s.sourceNames[k], s.activeSources[k],
      s.edidIndexes[k], k in cec.selectedCecSources)
  }

  /** Reference definition of the source records of one cycle. */
  function SourceUpdate(st: Statuses): Built<SourceInfo> {
    if st.source.None? || st.source.value.sourceNames == [] then Skipped
    else
      var s := st.source.value;
      if st.cec.None? || st.output.None? || SourceArraysLength(s) < |s.sourceNames| then Crashed
      else Built(seq(|s.sourceNames|, k requires 0 <= k < |s.sourceNames| =>
                   SourceRecord(s, st.output.value, st.cec.value, k)))
  }

  /**
   * `_handle_source_update`: one record per source name, in order; record `k` lists the
   * 1-based numbers of the outputs whose selected source equals the 0-based position `k`.
   */
  method HandleSourceUpdate(st: Statuses) returns (r: Built<SourceInfo>)
    ensures r == SourceUpdate(st)
    ensures r.Skipped? <==> st.source.None? || st.source.value.sourceNames == []
    ensures r.Crashed? <==>
              && st.source.Some? && st.source.value.sourceNames != []
              && (st.cec.None? || st.output.None?
                  || SourceArraysLength(st.source.value) < |st.source.value.sourceNames|)
    ensures r.Built? ==>
              && st.cec.Some? && st.output.Some?
              && |r.items| == |st.source.value.sourceNames|
              && forall k :: 0 <= k < |r.items| ==>
                   && k < SourceArraysLength(st.source.value)
                   && r.items[k].name == st.source.value.sourceNames[k]
                   && r.items[k].active == st.source.value.activeSources[k]
                   && r.items[k].edidIndex == st.source.value.edidIndexes[k]
                   && (r.items[k].cecSelected <==> k in st.cec.value.selectedCecSources)
                   && r.items[k].outputs == RoutedTo(st.output.value.selectedSources, k, 1)
  {
    if st.source.None? || st.source.value.sourceNames == [] {
      return Skipped;
    }
    var s := st.source.value;
    var items: seq<SourceInfo> := [];
    var idx := 0;
    while idx < |s.sourceNames|
      invariant 0 <= idx <= |s.sourceNames|
      invariant idx <= SourceArraysLength(s)
      invariant idx > 0 ==> st.cec.Some? && st.output.Some?
      invariant |items| == idx
      invariant forall j :: 0 <= j < idx ==>
                  st.cec.Some? && st.output.Some? && items[j] == SourceRecord(s, st.output.value, st.cec.value, j)
    {
      if idx >= |s.activeSources| || idx >= |s.edidIndexes| {
        return Crashed;  // IndexError
      }
      if st.cec.None? || st.output.None? {
        return Crashed;  // AttributeError on None
      }
      var active := s.activeSources[idx];
      var edidIndex := s.edidIndexes[idx];
      var cecSelected := idx in st.cec.value.selectedCecSources;
      var selected := st.output.value.selectedSources;
      var outputs: seq<int> := [];
      var outputIdx := 0;
      while outputIdx < |selected|
        invariant 0 <= outputIdx <= |selected|
        invariant outputs == RoutedTo(selected[..outputIdx], idx, 1)
      {
        assert selected[..outputIdx + 1][..outputIdx] == selected[..outputIdx];
        if selected[outputIdx] == idx {
          outputs := outputs + [outputIdx + 1];
        }
        outputIdx := outputIdx + 1;
      }
      assert selected[..outputIdx] == selected;
      items := items + [SourceInfo(outputs, s.sourceNames[idx], active, edidIndex, cecSelected)];
      idx := idx + 1;
    }
    r := Built(items);
  }

  // ---------------------------------------------------------------------------------------
  // The combined scalar data

  /** A value of the combined data mapping. */
  datatype Value = Null | Bool(b: bool) | Int(i: int) | Str(s: string)

  /** Python truthiness of a value. */
  predicate Truthy(v: Value) {
    match v
    case Null => false
    case Bool(b) => b
    case Int(i) => i != 0
    case Str(s) => s != ""
  }

  /** The keys of the combined data mapping. */
  datatype Key =
    | Power | Model | Version
    | Hostname | IpAddress | Subnet | Gateway | MacAddress | Dhcp | TelnetPort | TcpPort
    | BaudrateIndex | Beep | Lock | Mode
    | Title

  /** The request whose response supplies key `k`. */
  function Owner(k: Key): Request {
    match k
    case Power | Model | Version => StatusRequest
    case Hostname | IpAddress | Subnet | Gateway | MacAddress | Dhcp | TelnetPort | TcpPort => NetworkRequest
    case BaudrateIndex | Beep | Lock | Mode => SystemRequest
    case Title => WebDetailsRequest
  }

  /** The attribute of the owning response that key `k` carries. */
  function Attribute(st: Statuses, k: Key): Value
    requires !KeyMissing(st, Owner(k))
  {
    match k
    case Power => Bool(st.status.value.power)
    case Model => Str(st.status.value.model)
    case Version => Str(st.status.value.version)
    case Hostname => Str(st.network.value.hostname)
    case IpAddress => Str(st.network.value.ipaddress)
    case Subnet => Str(st.network.value.subnet)
    case Gateway => Str(st.network.value.gateway)
    case MacAddress => Str(st.network.value.macaddress)
    case Dhcp => Bool(st.network.value.dhcp)
    case TelnetPort => Int(st.network.value.telnetport)
    case TcpPort => Int(st.network.value.tcpport)
    case BaudrateIndex => Int(st.system.value.baudrateIndex)
    case Beep => Bool(st.system.value.beep)
    case Lock => Bool(st.system.value.lock)
    case Mode => Int(st.system.value.mode)
    case Title => Str(st.webDetails.value.title)
  }

  /** `data` holds exactly the keys owned by the returned requests among `done`, each with
    * its attribute. */
  ghost predicate FilledFrom(st: Statuses, data: map<Key, Value>, done: set<Request>) {
    && (forall k :: k in data <==> Owner(k) in done && !KeyMissing(st, Owner(k)))
    && (forall k :: k in data ==> data[k] == Attribute(st, k))
  }

  const AllKeys: set<Key> :=
    {Power, Model, Version, Hostname, IpAddress, Subnet, Gateway, MacAddress, Dhcp, TelnetPort, TcpPort,
     BaudrateIndex, Beep, Lock, Mode, Title}

  /** Reference definition of the combined data of one cycle: every key whose owning request
    * returned, mapped to that response's attribute. */
  function CombinedData(st: Statuses): map<Key, Value> {
    map k | k in AllKeys && !KeyMissing(st, Owner(k)) :: Attribute(st, k)
  }

  /** Lemma: the reference definition is the only map with the stated keys and values. */
  lemma CombinedDataCharacterized(st: Statuses, data: map<Key, Value>)
    requires forall k :: k in data <==> !KeyMissing(st, Owner(k))
    requires forall k :: k in data ==> data[k] == Attribute(st, k)
    ensures data == CombinedData(st)
  {
    var c := CombinedData(st);
    forall k
      ensures k in AllKeys
    {
      match k
      case Power | Model | Version =>
      case Hostname | IpAddress | Subnet | Gateway | MacAddress | Dhcp | TelnetPort | TcpPort =>
      case BaudrateIndex | Beep | Lock | Mode =>
      case Title =>
    }
    assert data.Keys == c.Keys;
  }

  /** Adds the `status` group of keys to `data` when that request returned. */
  method AddStatusKeys(st: Statuses, data: map<Key, Value>, done: set<Request>)
    returns (r: map<Key, Value>)
    requires StatusRequest !in done && FilledFrom(st, data, done)
    ensures FilledFrom(st, r, done + {StatusRequest})
  {
    r := data;
    if st.status.Some? {
      var s := st.status.value;
      r := r[Power := Bool(s.power)];
      r := r[Model := Str(s.model)];
      r := r[Version := Str(s.version)];
    }
  }

  /** Adds the `network` group of keys to `data` when that request returned. */
  method AddNetworkKeys(st: Statuses, data: map<Key, Value>, done: set<Request>)
    returns (r: map<Key, Value>)
    requires NetworkRequest !in done && FilledFrom(st, data, done)
    ensures FilledFrom(st, r, done + {NetworkRequest})
  {
    r := data;
    if st.network.Some? {
      var n := st.network.value;
      r := r[Hostname := Str(n.hostname)];
      r := r[IpAddress := Str(n.ipaddress)];
      r := r[Subnet := Str(n.subnet)];
      r := r[Gateway := Str(n.gateway)];
      r := r[MacAddress := Str(n.macaddress)];
      r := r[Dhcp := Bool(n.dhcp)];
      r := r[TelnetPort := Int(n.telnetport)];
      r := r[TcpPort := Int(n.tcpport)];
    }
  }

  /** Adds the `system` group of keys to `data` when that request returned. */
  method AddSystemKeys(st: Statuses, data: map<Key, Value>, done: set<Request>)
    returns (r: map<Key, Value>)
    requires SystemRequest !in done && FilledFrom(st, data, done)
    ensures FilledFrom(st, r, done + {SystemRequest})
  {
    r := data;
    if st.system.Some? {
      var y := st.system.value;
      r := r[BaudrateIndex := Int(y.baudrateIndex)];
      r := r[Beep := Bool(y.beep)];
      r := r[Lock := Bool(y.lock)];
      r := r[Mode := Int(y.mode)];
    }
  }

  /** Adds the `web_details` key to `data` when that request returned. */
  method AddWebDetailsKeys(st: Statuses, data: map<Key, Value>, done: set<Request>)
    returns (r: map<Key, Value>)
    requires WebDetailsRequest !in done && FilledFrom(st, data, done)
    ensures FilledFrom(st, r, done + {WebDetailsRequest})
  {
    r := data;
    if st.webDetails.Some? {
      r := r[Title := Str(st.webDetails.value.title)];
    }
  }

  /**
   * The `combined_data` dictionary, filled group by group from a fresh empty dictionary: a key
   * is present exactly when the request that owns it returned, and then carries that
   * response's attribute; nothing from an earlier cycle can be present.
   */
  method BuildCombinedData(st: Statuses) returns (data: map<Key, Value>)
    ensures forall k :: k in data <==> !KeyMissing(st, Owner(k))
    ensures forall k :: k in data ==> data[k] == Attribute(st, k)
    ensures data == CombinedData(st)
  {
    data := map[];
    data := AddStatusKeys(st, data, {});
    data := AddNetworkKeys(st, data, {StatusRequest});
    data := AddSystemKeys(st, data, {StatusRequest, NetworkRequest});
    data := AddWebDetailsKeys(st, data, {StatusRequest, NetworkRequest, SystemRequest});
    var all := {StatusRequest, NetworkRequest, SystemRequest, WebDetailsRequest};
    forall k ensures Owner(k) in all {
    }
    CombinedDataCharacterized(st, data);
  }

  // ---------------------------------------------------------------------------------------
  // Connection and the poll cycle

  /** How a cycle fails towards the platform: ConfigEntryAuthFailed or UpdateFailed. */
  datatype Failure = ReauthRequired(message: string) | UpdateFailed(message: string)

  datatype CycleResult = Data(combined: map<Key, Value>) | Fail(failure: Failure)

  /** The exception `_client_connect` raises for a failed connect. */
  function ConnectFailure(e: ClientError): Failure {
    if e == AuthError then ReauthRequired(AuthFailedMessage)
    else if e == ConnectionError then UpdateFailed(ConnectFailedMessage)
    else UpdateFailed(UnknownErrorMessage)
  }

  /** An exception raised while reconciling: one from the device client, or one Python raises. */
  datatype ReconcileError = DeviceError(error: ClientError) | RuntimeError

  /** The exception the poll cycle raises for an error during reconciliation. */
  function ReconcileFailure(e: ReconcileError): Failure {
    if e == DeviceError(AuthError) then UpdateFailed(AuthFailedMessage)
    else UpdateFailed(FetchDataFailedMessage)
  }

  /** Lemma: only a connect-time authentication error asks for re-authentication; a refused
    * connection and every other error fail the update with their own message. */
  lemma ConnectFailureClassified(e: ClientError)
    ensures ConnectFailure(e).ReauthRequired? <==> e == AuthError
    ensures ConnectFailure(e).message ==
              if e == AuthError then "Authentication failed"
              else if e == ConnectionError then "Failed to connect"
              else "Unknown error occurred"
  {
  }

  /** Lemma: an error during reconciliation never asks for re-authentication, whatever raised it. */
  lemma ReconcileFailureClassified(x: ReconcileError)
    ensures ReconcileFailure(x).UpdateFailed?
    ensures ReconcileFailure(x).message ==
              if x == DeviceError(AuthError) then "Authentication failed" else "Failed to fetch data"
  {
  }

  /** The list a handler's result publishes: None when skipped. */
  function Published<T>(b: Built<T>): Option<seq<T>>
    requires !b.Crashed?
  {
    if b.Built? then Some(b.items) else None
  }

  class JtechCoordinator {
    var hasClient: bool
    var connected: bool
    var outputs: Option<seq<OutputInfo>>
    var sources: Option<seq<SourceInfo>>

    constructor ()
      ensures !hasClient && !connected
      ensures outputs == Some([]) && sources == Some([])
    {
      hasClient := false;
      connected := false;
      outputs := Some([]);
      sources := Some([]);
    }

    /** `_client_connect`: a no-op when connected; otherwise one connect attempt. */
    method ClientConnect(attempt: Attempt<()>) returns (failure: Option<Failure>)
      modifies this`connected
      ensures old(connected) ==> connected && failure.None?
      ensures !old(connected) ==> (connected <==> attempt.Returned?)
      ensures !old(connected) && attempt.Raised? ==> failure == Some(ConnectFailure(attempt.error))
      ensures attempt.Returned? ==> failure.None?
    {
      failure := None;
      if !connected {
        match attempt {
          case Returned(_) =>
            connected := true;
          case Raised(e) =>
            connected := false;
            failure := Some(ConnectFailure(e));
        }
      }
    }

    /** `_client_ensure`: create the client on first use, then connect if needed. */
    method ClientEnsure(attempt: Attempt<()>) returns (failure: Option<Failure>)
      modifies this`hasClient, this`connected
      ensures hasClient
      ensures old(connected) ==> connected && failure.None?
      ensures !old(connected) ==> (connected <==> attempt.Returned?)
      ensures !old(connected) && attempt.Raised? ==> failure == Some(ConnectFailure(attempt.error))
      ensures attempt.Returned? ==> failure.None?
    {
      if !hasClient {
        hasClient := true;
      }
      failure := ClientConnect(attempt);
    }

    /**
     * `_async_update_data`. A connect failure propagates as is. Otherwise the outputs are
     * replaced first, then the sources; a crash in either handler sets `connected` to false and
     * fails the cycle with "Failed to fetch data", leaving whatever was not yet replaced. A
     * cycle that completes returns combined data that depends only on this cycle's responses.
     */
    method UpdateData(attempt: Attempt<()>, responses: Responses) returns (r: CycleResult)
      modifies this
      ensures hasClient
      ensures !old(connected) && attempt.Raised? ==>
                && r == Fail(ConnectFailure(attempt.error))
                && !connected && outputs == old(outputs) && sources == old(sources)
      ensures (old(connected) || attempt.Returned?) && OutputUpdate(FetchStatus(responses)).Crashed? ==>
                && r == Fail(ReconcileFailure(RuntimeError))
                && !connected && outputs == old(outputs) && sources == old(sources)
      ensures (old(connected) || attempt.Returned?) && !OutputUpdate(FetchStatus(responses)).Crashed? ==>
                outputs == Published(OutputUpdate(FetchStatus(responses)))
      ensures (old(connected) || attempt.Returned?) && !OutputUpdate(FetchStatus(responses)).Crashed?
              && SourceUpdate(FetchStatus(responses)).Crashed? ==>
                && r == Fail(ReconcileFailure(RuntimeError))
                && !connected && sources == old(sources)
      ensures (old(connected) || attempt.Returned?) && !OutputUpdate(FetchStatus(responses)).Crashed?
              && !SourceUpdate(FetchStatus(responses)).Crashed? ==>
                && r == Data(CombinedData(FetchStatus(responses)))
                && connected && sources == Published(SourceUpdate(FetchStatus(responses)))
    {
      var failure := ClientEnsure(attempt);
      if failure.Some? {
        return Fail(failure.value);
      }
      var statuses := FetchStatus(responses);
      var builtOutputs := HandleOutputUpdate(statuses);
      if builtOutputs.Crashed? {
        connected := false;
        return Fail(ReconcileFailure(RuntimeError));
      }
      outputs := Published(builtOutputs);
      var builtSources := HandleSourceUpdate(statuses);
      if builtSources.Crashed? {
        connected := false;
        return Fail(ReconcileFailure(RuntimeError));
      }
      sources := Published(builtSources);
      var combined := BuildCombinedData(statuses);
      r := Data(combined);
    }
  }

  // ---------------------------------------------------------------------------------------
  // Properties of one cycle's records

  /** Lemma: the source lists built in one cycle are the exact inverse of the outputs'
    * selected sources: output number `n` is listed under 0-based source `k` exactly when the
    * output at position `n - 1` selects `k`, and under no other source. */
  lemma SourceListsInvertRouting(st: Statuses, k: nat, n: int)
    requires OutputUpdate(st).Built? && SourceUpdate(st).Built?
    requires k < |SourceUpdate(st).items|
    ensures n in SourceUpdate(st).items[k].outputs <==>
              1 <= n <= |st.output.value.selectedSources| && st.output.value.selectedSources[n - 1] == k
    ensures 1 <= n <= |OutputUpdate(st).items| ==>
              (n in SourceUpdate(st).items[k].outputs <==> OutputUpdate(st).items[n - 1].source == k)
  {
    var o := st.output.value;
    assert SourceUpdate(st).items[k] == SourceRecord(st.source.value, o, st.cec.value, k);
    RoutedToMembers(o.selectedSources, k, 1, n);
    if 1 <= n <= |OutputUpdate(st).items| {
      assert OutputUpdate(st).items[n - 1] == OutputRecord(o, st.cec.value, n - 1);
    }
  }

  /** Lemma: in one cycle's source records, no output number appears in two lists. */
  lemma SourceListsDisjoint(st: Statuses, k1: nat, k2: nat, n: int)
    requires SourceUpdate(st).Built?
    requires k1 < k2 < |SourceUpdate(st).items|
    ensures !(n in SourceUpdate(st).items[k1].outputs && n in SourceUpdate(st).items[k2].outputs)
  {
    var sel := st.output.value.selectedSources;
    assert SourceUpdate(st).items[k1].outputs == RoutedTo(sel, k1, 1);
    assert SourceUpdate(st).items[k2].outputs == RoutedTo(sel, k2, 1);
    RoutedToDisjoint(sel, k1, k2, 1, n);
  }

  /** Lemma: every output list of one cycle's source records is in ascending output order. */
  lemma SourceListsAscending(st: Statuses, k: nat)
    requires SourceUpdate(st).Built?
    requires k < |SourceUpdate(st).items|
    ensures Ascending(SourceUpdate(st).items[k].outputs)
  {
    var sel := st.output.value.selectedSources;
    assert SourceUpdate(st).items[k].outputs == RoutedTo(sel, k, 1);
    RoutedToAscending(sel, k, 1);
  }

  /** Lemma: the combined data of a cycle holds the device power exactly when the status
    * request returned; nothing from an earlier cycle can appear in it. */
  lemma CombinedPower(st: Statuses)
    ensures Power in CombinedData(st) <==> st.status.Some?
    ensures st.status.Some? ==> CombinedData(st)[Power] == Bool(st.status.value.power)
  {
  }
}
