/** Device resolution and HTTP helpers of the newer revision (helpers.go): the mDNS reply
    collector, selection of the first working device, the fallback to a configured URL,
    the liveness check, getXML's bounded retry, and curl command construction.
    Every network answer is an input: a reply stream with a cut-off, or a function from
    URL (and attempt number) to the outcome of the request. */
module Helpers {
  import opened Wrappers
  import opened Text
  import opened Http
  import opened Bitbar

  /** getXML gives up after this many attempts. */
  const MaxRetries: nat := 3

  /** The paths isDeviceReachable tries, in order. */
  const ReachabilityEndpoints: seq<string> := ["/Status", "/Volume", "/"]

  // ---------------------------------------------------------------------------
  // Commands

  /** createCommand: `curl -sf <url>` on a URL formatted by hand. */
  function CreateCommand(url: string): (cmd: Cmd)
    ensures cmd.bash == "curl" && !cmd.terminal && cmd.refresh
    ensures cmd.params == [Flag("-sf"), Target(Raw(url))]
  {
    Curl(Raw(url))
  }

  /** What createVolumeCommand yields: the /Volume endpoint of the player with exactly the
      given query parameters, or, when the base URL does not parse, the plain command on it. */
  function VolumeCommand(playerUrl: string, params: map<string, string>): Cmd {
    var baseUrl := playerUrl + "/Volume";
    if ParsesAsUrl(baseUrl) then Curl(Encoded(baseUrl, params)) else CreateCommand(baseUrl)
  }

  /** createVolumeCommand: sets every parameter on the query of `<player>/Volume`, in
      whatever order the map is iterated. */
  method CreateVolumeCommand(playerUrl: string, params: map<string, string>) returns (cmd: Cmd)
    ensures cmd == VolumeCommand(playerUrl, params)
    ensures ParsesAsUrl(playerUrl + "/Volume") ==>
      cmd.params == [Flag("-sf"), Target(Encoded(playerUrl + "/Volume", params))]
    ensures !ParsesAsUrl(playerUrl + "/Volume") ==> cmd == CreateCommand(playerUrl + "/Volume")
  {
    var baseUrl := playerUrl + "/Volume";
    if !ParsesAsUrl(baseUrl) {
      return CreateCommand(baseUrl);
    }
    var query: map<string, string> := map[];
    var pending := params.Keys;
    while pending != {}
      invariant pending <= params.Keys
      invariant query == map k | k in params.Keys - pending :: params[k]
      decreases pending
    {
      var key :| key in pending;
      query := query[key := params[key]];
      pending := pending - {key};
    }
    assert query == params;
    return Curl(Encoded(baseUrl, query));
  }

  // ---------------------------------------------------------------------------
  // Discovery

  datatype IPv4 = IPv4(a: byte, b: byte, c: byte, d: byte)

  /** An mDNS reply: its IPv4 address, when it has one, and its port. */
  datatype ServiceEntry = ServiceEntry(addrV4: Option<IPv4>, port: int)

  function FormatIPv4(ip: IPv4): string {
    IntToString(ip.a) + "." + IntToString(ip.b) + "." + IntToString(ip.c) + "." + IntToString(ip.d)
  }

  /** The device URL `http://<ipv4>:<port>` of a reply; None for a nil reply or one without
      an IPv4 address. */
  function EntryUrl(e: Option<ServiceEntry>): Option<string> {
    match e
    case None => None
    case Some(entry) =>
      match entry.addrV4
      case None => None
      case Some(ip) => Some(DeviceUrl(ip, entry.port))
  }

  /** fmt.Sprintf("http://%s:%d", ip, port). */
  function DeviceUrl(ip: IPv4, port: int): string {
    "http://" + FormatIPv4(ip) + ":" + IntToString(port)
  }

  /** The URL each reply contributes, in stream order. */
  function ReplyUrls(replies: seq<Option<ServiceEntry>>): (urls: seq<Option<string>>)
    ensures |urls| == |replies|
    ensures forall i :: 0 <= i < |replies| ==> urls[i] == EntryUrl(replies[i])
    ensures forall i :: 0 <= i < |replies| ==>
      (urls[i].None? <==> replies[i].None? || replies[i].value.addrV4.None?)
    ensures forall i :: 0 <= i < |replies| && urls[i].Some? ==>
      urls[i].value == "http://" + FormatIPv4(replies[i].value.addrV4.value) + ":"
                       + IntToString(replies[i].value.port)
  {
    seq(|replies|, i requires 0 <= i < |replies| => EntryUrl(replies[i]))
  }

  /** The device list after taking in the reply URLs in order: a URL is appended unless it
      is already there; a reply that gives no URL is skipped. */
  function Collect<T(==)>(urls: seq<Option<T>>): (devices: seq<T>)
    ensures |devices| <= |urls|
    ensures forall k :: 0 <= k < |devices| ==> Some(devices[k]) in urls
    decreases |urls|
  {
    if urls == [] then []
    else
      var devices := Collect(urls[..|urls| - 1]);
      match urls[|urls| - 1]
      case None => devices
      case Some(u) => if u in devices then devices else devices + [u]
  }

  /** The devices gathered from the replies received before the deadline fired or the
      stream closed. */
  function Discovered(replies: seq<Option<ServiceEntry>>, cutoff: nat): seq<string> {
    Collect(ReplyUrls(replies[..if cutoff < |replies| then cutoff else |replies|]))
  }

  /** discoverBluOSDevices, once the mDNS queries have produced `replies` and the deadline
      fires after `cutoff` of them have been received. Both ways out (the stream closes,
      the deadline fires) return the list gathered so far, and never an error. */
  method DiscoverDevices(replies: seq<Option<ServiceEntry>>, cutoff: nat)
    returns (r: Result<seq<string>, string>)
    ensures r == Success(Discovered(replies, cutoff))
  {
    var devices: seq<string> := [];
    var seen: map<string, bool> := map[];
    var i := 0;
    while i < |replies| && i < cutoff
      invariant 0 <= i <= |replies| && i <= cutoff
      invariant devices == Collect(ReplyUrls(replies[..i]))
      invariant forall u :: u in seen && seen[u] <==> u in devices
    {
      var entry := replies[i];
      ReplyUrlsStep(replies, i);
      CollectStep(ReplyUrls(replies[..i]), EntryUrl(entry));
      if entry.Some? && entry.value.addrV4.Some? {
        var deviceUrl := DeviceUrl(entry.value.addrV4.value, entry.value.port);
        if !(deviceUrl in seen && seen[deviceUrl]) {
          devices := devices + [deviceUrl];
          seen := seen[deviceUrl := true];
        }
      }
      i := i + 1;
    }
    // The stream closed (i == |replies|) or the deadline fired (i == cutoff): either way
    // the partial list is returned with no error.
    return Success(devices);
  }

  /** Taking in one more reply URL: a new URL is appended, a known one or none is skipped. */
  lemma CollectStep<T>(urls: seq<Option<T>>, next: Option<T>)
    ensures Collect(urls + [next]) ==
      if next.Some? && next.value !in Collect(urls) then Collect(urls) + [next.value] else Collect(urls)
  {
    assert (urls + [next])[..|urls|] == urls;
  }

  /** Taking in one more reply extends the reply URLs by that reply's URL. */
  lemma ReplyUrlsStep(replies: seq<Option<ServiceEntry>>, i: nat)
    requires i < |replies|
    ensures ReplyUrls(replies[..i + 1]) == ReplyUrls(replies[..i]) + [EntryUrl(replies[i])]
  {
  }

  /** Index of the first reply URL equal to u, or |urls| when none is. */
  function FirstSeen<T(==)>(urls: seq<Option<T>>, u: T): (k: nat)
    ensures k <= |urls|
    ensures k < |urls| ==> urls[k] == Some(u)
    ensures forall i :: 0 <= i < k ==> urls[i] != Some(u)
    decreases |urls|
  {
    if urls == [] then 0
    else if urls[0] == Some(u) then 0
    else 1 + FirstSeen(urls[1..], u)
  }

  /** The discovered list never holds the same URL twice. */
  lemma {:induction false} CollectNoDuplicates<T>(urls: seq<Option<T>>)
    ensures forall i, j :: 0 <= i < j < |Collect(urls)| ==> Collect(urls)[i] != Collect(urls)[j]
    decreases |urls|
  {
    if urls != [] {
      var init := urls[..|urls| - 1];
      CollectNoDuplicates(init);
      var prev := Collect(init);
      var r := Collect(urls);
      if r != prev {
        assert r == prev + [r[|prev|]] && r[|prev|] !in prev;
        forall i, j | 0 <= i < j < |r| ensures r[i] != r[j] {
          if j == |prev| {
            assert r[i] == prev[i];
          }
        }
      }
    }
  }

  /** A URL is discovered exactly when some reply carries it: every reply with a URL
      counts, and replies without one contribute nothing. */
  lemma {:induction false} CollectMembers<T>(urls: seq<Option<T>>, u: T)
    ensures u in Collect(urls) <==> exists i :: 0 <= i < |urls| && urls[i] == Some(u)
    decreases |urls|
  {
    if urls != [] {
      var init := urls[..|urls| - 1];
      CollectMembers(init, u);
      if exists i :: 0 <= i < |urls| && urls[i] == Some(u) {
        var i :| 0 <= i < |urls| && urls[i] == Some(u);
        if i < |init| {
          assert init[i] == urls[i];
        }
      }
      if exists i :: 0 <= i < |init| && init[i] == Some(u) {
        var i :| 0 <= i < |init| && init[i] == Some(u);
        assert urls[i] == init[i];
      }
    }
  }

  /** Once u occurs within the first n replies, later replies do not change where it was
      first seen. */
  lemma {:induction false} FirstSeenExtend<T>(urls: seq<Option<T>>, n: nat, u: T)
    requires n <= |urls| && FirstSeen(urls[..n], u) < n
    ensures FirstSeen(urls, u) == FirstSeen(urls[..n], u)
    decreases n
  {
    assert urls[..n][0] == urls[0];
    if urls[0] != Some(u) {
      assert urls[..n][1..] == urls[1..][..n - 1];
      FirstSeenExtend(urls[1..], n - 1, u);
    }
  }

  /** For a URL already collected before the last reply, the first reply carrying it lies
      before the last reply, and the last reply does not move it. */
  lemma SeenBeforeLastStays<T>(urls: seq<Option<T>>, u: T)
    requires urls != [] && u in Collect(urls[..|urls| - 1])
    ensures FirstSeen(urls, u) == FirstSeen(urls[..|urls| - 1], u) < |urls| - 1
  {
    var init := urls[..|urls| - 1];
    var k :| 0 <= k < |Collect(init)| && Collect(init)[k] == u;
    assert Some(u) in init;
    var i :| 0 <= i < |init| && init[i] == Some(u);
    assert FirstSeen(init, u) <= i;
    FirstSeenExtend(urls, |urls| - 1, u);
  }

  /** Devices appear in the order in which their URL was first seen in the reply stream. */
  lemma {:induction false} CollectFirstSeenOrder<T>(urls: seq<Option<T>>, i: nat, j: nat)
    requires i < j < |Collect(urls)|
    ensures FirstSeen(urls, Collect(urls)[i]) < FirstSeen(urls, Collect(urls)[j])
    decreases |urls|
  {
    var init := urls[..|urls| - 1];
    var prev := Collect(init);
    var r := Collect(urls);
    assert r[i] == prev[i];
    SeenBeforeLastStays(urls, r[i]);
    if j < |prev| {
      CollectFirstSeenOrder(init, i, j);
      assert r[j] == prev[j];
      SeenBeforeLastStays(urls, r[j]);
    } else {
      // r[j] is the URL of the last reply, which no earlier reply carries
      CollectMembers(init, r[j]);
      forall k | 0 <= k < |init| ensures urls[k] != Some(r[j]) {
        assert init[k] == urls[k];
      }
    }
  }

  /** A later deadline only extends the list: what was collected from a prefix of the
      stream is a prefix of what is collected from all of it. */
  lemma {:induction false} CollectPrefix<T>(urls: seq<Option<T>>, n: nat)
    requires n <= |urls|
    ensures Collect(urls[..n]) <= Collect(urls)
    decreases |urls| - n
  {
    if n < |urls| {
      var init := urls[..|urls| - 1];
      assert init[..n] == urls[..n];
      CollectPrefix(init, n);
    } else {
      assert urls[..n] == urls;
    }
  }

  /** The reply URLs with the replies that give none taken out, in order. */
  function Present<T>(urls: seq<Option<T>>): seq<Option<T>>
    decreases |urls|
  {
    if urls == [] then []
    else
      var init := Present(urls[..|urls| - 1]);
      if urls[|urls| - 1].Some? then init + [urls[|urls| - 1]] else init
  }

  /** Dropping every nil reply and every reply without IPv4 address, wherever it occurs,
      leaves the discovered list unchanged. */
  lemma {:induction false} CollectIgnoresInvalid<T>(urls: seq<Option<T>>)
    ensures Collect(Present(urls)) == Collect(urls)
    decreases |urls|
  {
    if urls != [] {
      var last := urls[|urls| - 1];
      var init := urls[..|urls| - 1];
      CollectIgnoresInvalid(init);
      if last.Some? {
        var v := Present(init) + [last];
        assert v[..|v| - 1] == Present(init);
      }
    }
  }

  // ---------------------------------------------------------------------------
  // Selecting a working device and resolving the player URL

  /** Why findValidBluOSDevice failed: nothing was discovered, or none of the `tested`
      candidates answered its /Status probe with 200. */
  datatype DeviceError = NoDevicesFound | NoWorkingDevices(tested: nat)

  /** A candidate works when GET <device>/Status answers 200. */
  predicate Works(device: string, network: string -> Probe) {
    network(device + "/Status") == Status(StatusOK)
  }

  /** The position of the first working candidate, |devices| when there is none. */
  function FirstWorking(devices: seq<string>, network: string -> Probe): (k: nat)
    ensures k <= |devices|
    ensures forall j :: 0 <= j < k ==> !Works(devices[j], network)
    ensures k < |devices| ==> Works(devices[k], network)
    decreases |devices|
  {
    if devices == [] then 0
    else if Works(devices[0], network) then 0
    else 1 + FirstWorking(devices[1..], network)
  }

  /** The probing loop of findValidBluOSDevice: GET /Status of each candidate in list
      order; a connection error or a status other than 200 moves on to the next one. Returns
      the first candidate that answers 200 and probes nothing after it; `probed` lists the
      candidates contacted, in order. */
  method SelectWorkingDevice(devices: seq<string>, network: string -> Probe)
    returns (r: Result<string, DeviceError>, probed: seq<string>)
    ensures devices == [] ==> r == Failure(NoDevicesFound) && probed == []
    ensures var k := FirstWorking(devices, network);
      k < |devices| ==> r == Success(devices[k]) && probed == devices[..k + 1]
    ensures devices != [] && FirstWorking(devices, network) == |devices| ==>
      r == Failure(NoWorkingDevices(|devices|)) && probed == devices
  {
    if |devices| == 0 {
      return Failure(NoDevicesFound), [];
    }
    probed := [];
    var i := 0;
    while i < |devices|
      invariant 0 <= i <= |devices|
      invariant probed == devices[..i]
      invariant forall j :: 0 <= j < i ==> !Works(devices[j], network)
    {
      var statusUrl := devices[i] + "/Status";
      probed := probed + [devices[i]];
      match network(statusUrl) {
        case ConnErr(_) =>
        case Status(code) =>
          if code == StatusOK {
            assert probed == devices[..i + 1];
            return Success(devices[i]), probed;
          }
      }
      i := i + 1;
    }
    assert devices[..i] == devices;
    return Failure(NoWorkingDevices(|devices|)), probed;
  }

  /** findValidBluOSDevice: discovery, then the first discovered device that answers its
      /Status probe with 200. */
  method FindValidDevice(replies: seq<Option<ServiceEntry>>, cutoff: nat, network: string -> Probe)
    returns (r: Result<string, DeviceError>, probed: seq<string>)
    ensures var ds := Discovered(replies, cutoff);
      ds == [] ==> r == Failure(NoDevicesFound) && probed == []
    ensures var ds := Discovered(replies, cutoff); var k := FirstWorking(ds, network);
      k < |ds| ==> r == Success(ds[k]) && probed == ds[..k + 1]
    ensures var ds := Discovered(replies, cutoff);
      ds != [] && FirstWorking(ds, network) == |ds| ==> r == Failure(NoWorkingDevices(|ds|)) && probed == ds
  {
    var discovered := DiscoverDevices(replies, cutoff);
    // discovery never reports an error, so the "device discovery failed" branch is dead
    r, probed := SelectWorkingDevice(discovered.value, network);
  }

  /** getBluOSPlayerURL found neither a device nor a configured URL. */
  datatype ResolveError = NoDeviceFound

  /** getBluOSPlayerURL: the first working discovered device; failing that the configured
      fallback when it is not empty, returned without probing it; otherwise an error.
      Only discovered candidates are ever probed. */
  method GetPlayerUrl(replies: seq<Option<ServiceEntry>>, cutoff: nat, network: string -> Probe, fallback: string)
    returns (r: Result<string, ResolveError>, probed: seq<string>)
    ensures var ds := Discovered(replies, cutoff); var k := FirstWorking(ds, network);
      k < |ds| ==> r == Success(ds[k])
    ensures var ds := Discovered(replies, cutoff);
      FirstWorking(ds, network) == |ds| && fallback != "" ==> r == Success(fallback)
    ensures var ds := Discovered(replies, cutoff);
      FirstWorking(ds, network) == |ds| && fallback == "" ==> r == Failure(NoDeviceFound)
    ensures probed <= Discovered(replies, cutoff)
  {
    var found;
    found, probed := FindValidDevice(replies, cutoff, network);
    if found.Success? {
      return Success(found.value), probed;
    }
    if fallback != "" {
      return Success(fallback), probed;
    }
    return Failure(NoDeviceFound), probed;
  }

  /** isDeviceReachable: tries /Status, /Volume and / in order and answers true at the first
      that gets any HTTP response, whatever its status; false only when all three fail to
      connect. `probed` lists the URLs requested. */
  method IsDeviceReachable(url: string, network: string -> Probe) returns (ok: bool, probed: seq<string>)
    ensures 1 <= |probed| <= |ReachabilityEndpoints|
    ensures forall i :: 0 <= i < |probed| ==> probed[i] == url + ReachabilityEndpoints[i]
    ensures forall i :: 0 <= i < |probed| - 1 ==> network(probed[i]).ConnErr?
    ensures ok <==> network(probed[|probed| - 1]).Status?
    ensures !ok ==> |probed| == |ReachabilityEndpoints|
    ensures ok <==> exists i :: 0 <= i < |ReachabilityEndpoints| && network(url + ReachabilityEndpoints[i]).Status?
  {
    var endpoints := ReachabilityEndpoints;
    probed := [];
    var i := 0;
    while i < |endpoints|
      invariant 0 <= i <= |endpoints| && |probed| == i
      invariant forall j :: 0 <= j < i ==> probed[j] == url + endpoints[j] && network(probed[j]).ConnErr?
    {
      var fullUrl := url + endpoints[i];
      probed := probed + [fullUrl];
      if network(fullUrl).Status? {
        return true, probed;
      }
      i := i + 1;
    }
    return false, probed;
  }

  // ---------------------------------------------------------------------------
  // getXML with retries

  /** How one attempt of getXML ends: the connection error, a status other than 200, the
      body read error, or the body. */
  function AttemptResult(a: Attempt): Result<seq<byte>, FetchError> {
    match a.probe
    case ConnErr(cause) => Failure(GetError(cause))
    case Status(code) =>
      if code != StatusOK then Failure(StatusError(code))
      else
        match a.body
        case Success(data) => Success(data)
        case Failure(cause) => Failure(ReadError(cause))
  }

  /** getXML: at most MaxRetries attempts on the same URL (`network(url, k)` answers
      attempt k), stopping at the first that succeeds; when all fail, the error is the last
      attempt's. */
  method GetXml(url: string, network: (string, nat) -> Attempt)
    returns (r: Result<seq<byte>, FetchError>, attempts: nat)
    ensures 1 <= attempts <= MaxRetries
    ensures forall k :: 1 <= k < attempts ==> AttemptResult(network(url, k)).Failure?
    ensures r == AttemptResult(network(url, attempts))
    ensures r.Failure? ==> attempts == MaxRetries
    ensures r.Success? <==> exists k :: 1 <= k <= MaxRetries && AttemptResult(network(url, k)).Success?
  {
    var lastErr: Option<FetchError> := None;
    var attempt := 1;
    while attempt <= MaxRetries
      invariant 1 <= attempt <= MaxRetries + 1
      invariant forall k :: 1 <= k < attempt ==> AttemptResult(network(url, k)).Failure?
      invariant attempt > 1 ==> lastErr == Some(AttemptResult(network(url, attempt - 1)).error)
    {
      var a := network(url, attempt);
      if a.probe.ConnErr? {
        lastErr := Some(GetError(a.probe.cause));
      } else if a.probe.code != StatusOK {
        lastErr := Some(StatusError(a.probe.code));
      } else if a.body.Failure? {
        lastErr := Some(ReadError(a.body.error));
      } else {
        return Success(a.body.value), attempt;
      }
      attempt := attempt + 1;
    }
    return Failure(lastErr.value), MaxRetries;
  }
}
