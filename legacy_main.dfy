/** The older revision of the plugin (main.go): volume requests through sendVolumeCommand,
    its own createVolumeCommand and single-attempt getXML, and the menu that `main` builds
    in one piece — status lines per player state, radio presets, the volume section and the
    audio-information section. Every HTTP exchange is an input. */
module LegacyMain {
  import opened Wrappers
  import opened Text
  import opened Http
  import opened Structs
  import opened Bitbar

  /** MAX when the configuration does not give a number. */
  const DefaultMaxLength: int := 40

  /** defaultDbStep (2.0) and its negation as %.1f renders them. */
  const DbStepUpText: string := "2.0"
  const DbStepDownText: string := "-2.0"

  // ---------------------------------------------------------------------------
  // Configuration

  /** A key of the .env configuration; a missing key reads as the empty string. */
  function ConfigValue(config: map<string, string>, key: string): string {
    if key in config then config[key] else ""
  }

  /** MAX: the configured number when it reads as one, otherwise 40. */
  function ConfiguredMax(config: map<string, string>): (m: int)
    ensures DecimalValue(ConfigValue(config, "MAX")).None? ==> m == DefaultMaxLength
    ensures DecimalValue(ConfigValue(config, "MAX")).Some? ==> m == DecimalValue(ConfigValue(config, "MAX")).value
  {
    match DecimalValue(ConfigValue(config, "MAX"))
    case Some(n) => n
    case None => DefaultMaxLength
  }

  /** Configuring MAX as the decimal text of a number sets the length limit to it. */
  lemma ConfiguredMaxRoundTrip(config: map<string, string>, n: int)
    ensures ConfiguredMax(config["MAX" := IntToString(n)]) == n
  {
    IntToStringRoundTrip(n);
  }

  // ---------------------------------------------------------------------------
  // HTTP

  /** getXML of this revision: one attempt, no retry. */
  function GetXml(a: Attempt): (r: Result<seq<byte>, FetchError>)
    ensures r.Success? <==> a.probe == Status(StatusOK) && a.body.Success?
    ensures r.Success? ==> r.value == a.body.value
    ensures a.probe.ConnErr? ==> r == Failure(GetError(a.probe.cause))
    ensures a.probe.Status? && a.probe.code != StatusOK ==> r == Failure(StatusError(a.probe.code))
    ensures a.probe == Status(StatusOK) && a.body.Failure? ==> r == Failure(ReadError(a.body.error))
  {
    match a.probe
    case ConnErr(cause) => Failure(GetError(cause))
    case Status(code) =>
      if code != StatusOK then Failure(StatusError(code))
      else match a.body
        case Failure(cause) => Failure(ReadError(cause))
        case Success(data) => Success(data)
  }

  /** The command createVolumeCommand builds. It discards url.Parse's error and then uses
      the parsed URL, so a base URL that does not parse is not a valid input. */
  function VolumeCommand(playerUrl: string, params: map<string, string>): Cmd
    requires ParsesAsUrl(playerUrl + "/Volume")
  {
    Curl(Encoded(playerUrl + "/Volume", params))
  }

  /** createVolumeCommand: `curl -sf <player>/Volume?<params>`, no terminal, refresh. */
  method CreateVolumeCommand(playerUrl: string, params: map<string, string>) returns (cmd: Cmd)
    requires ParsesAsUrl(playerUrl + "/Volume")
    ensures cmd == VolumeCommand(playerUrl, params)
    ensures cmd.bash == "curl" && !cmd.terminal && cmd.refresh
    ensures cmd.params == [Flag("-sf"), Target(Encoded(playerUrl + "/Volume", params))]
  {
    var baseUrl := playerUrl + "/Volume";
    var query: map<string, string> := map[];
    var pending := params.Keys;
    while pending != {}
      invariant pending <= params.Keys
      invariant query == map k | k in params.Keys - pending :: params[k]
      decreases pending
    {
      var key :| key in pending;
      query := query[key := params[key]];
      pending := pending - {key};
    }
    assert query == params;
    cmd := Cmd("curl", [Flag("-sf"), Target(Encoded(baseUrl, query))], false, true);
  }

  // ---------------------------------------------------------------------------
  // Volume requests

  /** One call of sendVolumeCommand: the player and the query parameters it sets. */
  datatype VolumeRequest = VolumeRequest(playerUrl: string, params: map<string, string>)

  datatype VolumeError = InvalidLevel(level: int) | CommandFailed(message: string)

  /** The outcome of a volume operation and the requests it sent, in order. */
  datatype Exchange = Exchange(result: Result<VolumeStatus, VolumeError>, sent: seq<VolumeRequest>)

  /** One sendVolumeCommand call; `send` is what the player answered (or the error text). */
  function Send(req: VolumeRequest, send: VolumeRequest -> Result<VolumeStatus, string>): (x: Exchange)
    ensures x.sent == [req]
    ensures x.result.Success? <==> send(req).Success?
    ensures send(req).Success? ==> x.result == Success(send(req).value)
    ensures send(req).Failure? ==> x.result == Failure(CommandFailed(send(req).error))
  {
    match send(req)
    case Success(status) => Exchange(Success(status), [req])
    case Failure(message) => Exchange(Failure(CommandFailed(message)), [req])
  }

  /** VolumeUp: one request setting db to the default step. */
  function VolumeUp(playerUrl: string, send: VolumeRequest -> Result<VolumeStatus, string>): (x: Exchange)
    ensures x.sent == [VolumeRequest(playerUrl, map["db" := "2.0"])]
    ensures x.result.Success? <==> send(x.sent[0]).Success?
    ensures send(x.sent[0]).Success? ==> x.result == Success(send(x.sent[0]).value)
    ensures send(x.sent[0]).Failure? ==> x.result == Failure(CommandFailed(send(x.sent[0]).error))
  {
    Send(VolumeRequest(playerUrl, map["db" := DbStepUpText]), send)
  }

  /** VolumeDown: one request setting db to the negated default step. */
  function VolumeDown(playerUrl: string, send: VolumeRequest -> Result<VolumeStatus, string>): (x: Exchange)
    ensures x.sent == [VolumeRequest(playerUrl, map["db" := "-2.0"])]
    ensures x.result.Success? <==> send(x.sent[0]).Success?
    ensures send(x.sent[0]).Success? ==> x.result == Success(send(x.sent[0]).value)
    ensures send(x.sent[0]).Failure? ==> x.result == Failure(CommandFailed(send(x.sent[0]).error))
  {
    Send(VolumeRequest(playerUrl, map["db" := DbStepDownText]), send)
  }

  /** SetVolume: a level outside 0..100 is refused before anything is sent; otherwise exactly
      one request carries the single parameter `level`, whose text reads back as the level. */
  function SetVolume(playerUrl: string, level: int, send: VolumeRequest -> Result<VolumeStatus, string>): (x: Exchange)
    ensures level < 0 || level > 100 <==> x.sent == []
    ensures level < 0 || level > 100 ==> x.result == Failure(InvalidLevel(level))
    ensures 0 <= level <= 100 ==>
      && |x.sent| == 1
      && x.sent[0].playerUrl == playerUrl
      && x.sent[0].params.Keys == {"level"}
      && DecimalValue(x.sent[0].params["level"]) == Some(level)
      && (x.result.Success? <==> send(x.sent[0]).Success?)
      && (send(x.sent[0]).Success? ==> x.result == Success(send(x.sent[0]).value))
      && (send(x.sent[0]).Failure? ==> x.result == Failure(CommandFailed(send(x.sent[0]).error)))
  {
    if level < 0 || level > 100 then
      Exchange(Failure(InvalidLevel(level)), [])
    else
      IntToStringRoundTrip(level);
      Send(VolumeRequest(playerUrl, map["level" := IntToString(level)]), send)
  }

  /** ToggleMute: read the current status with an empty query; if that fails, report its
      error and send nothing more; otherwise ask for mute=0 when muted (Mute == 1) and
      mute=1 for any other Mute value. */
  function ToggleMute(playerUrl: string, send: VolumeRequest -> Result<VolumeStatus, string>): (x: Exchange)
    ensures |x.sent| >= 1 && x.sent[0] == VolumeRequest(playerUrl, map[])
    ensures send(VolumeRequest(playerUrl, map[])).Failure? ==>
      x == Exchange(Failure(CommandFailed(send(VolumeRequest(playerUrl, map[])).error)), [VolumeRequest(playerUrl, map[])])
    ensures send(VolumeRequest(playerUrl, map[])).Success? ==>
      var current := send(VolumeRequest(playerUrl, map[])).value;
      && |x.sent| == 2
      && x.sent[1].playerUrl == playerUrl
      && x.sent[1].params.Keys == {"mute"}
      && (x.sent[1].params["mute"] == "0" <==> current.mute == 1)
      && (x.sent[1].params["mute"] == "1" <==> current.mute != 1)
      && (x.result.Success? <==> send(x.sent[1]).Success?)
      && (send(x.sent[1]).Success? ==> x.result == Success(send(x.sent[1]).value))
      && (send(x.sent[1]).Failure? ==> x.result == Failure(CommandFailed(send(x.sent[1]).error)))
  {
    var first := VolumeRequest(playerUrl, map[]);
    match send(first)
    case Failure(message) => Exchange(Failure(CommandFailed(message)), [first])
    case Success(status) =>
      var muteValue := if status.mute == 1 then "0" else "1";
      var second := Send(VolumeRequest(playerUrl, map["mute" := muteValue]), send);
      Exchange(second.result, [first] + second.sent)
  }

  // ---------------------------------------------------------------------------
  // Status lines

  /** The record an unmarshal error leaves behind: every field empty. */
  const EmptyState: StateXml := StateXml("", "", "", "", "", "", "", "", "", "", "", "", "")

  function StreamIcon(service: string): string {
    if service == "AirPlay" then ":airplayaudio:"
    else if service == "Spotify" then ":music.note.tv:"
    else ":radio:"
  }

  /** The command URL and icon of a stream's submenu line. */
  function StreamToggle(st: StateXml, playerUrl: string): (r: (string, string)) {
    if st.service == "AirPlay" && st.mute == "0" then (playerUrl + "/Volume?mute=1", ":speaker.zzz:")
    else if st.service == "AirPlay" && st.mute == "1" then (playerUrl + "/Volume?mute=0", ":speaker.slash:")
    else (playerUrl + "/Pause?toggle=1", ":pause.fill:")
  }

  /** What `main` shows for a status record, per player state; nothing for other states. */
  function StateDisplay(st: StateXml, playerUrl: string, maxLen: int): Display {
    var pauseCmd := Curl(Raw(playerUrl + "/Pause?toggle=1"));
    if st.state == "connecting" then
      Display([":powercord: connecting"], [])
    else if st.state == "play" then
      var icon := if st.shuffle == "1" then ":shuffle:" else ":music.note.list:";
      Display([icon + " " + st.name, icon + " " + st.album, icon + " " + st.artist],
              [NewLine(":pause.fill: " + st.serviceName + ": " + st.name).Command(pauseCmd),
               NewLine(st.quality + " " + st.streamFormat).Alternate()])
    else if st.state == "stream" then
      var icon := StreamIcon(st.service);
      var toggle := StreamToggle(st, playerUrl);
      Display([icon + " " + st.title2, icon + " " + st.title1]
                + (if st.service != "Spotify" then [icon + " " + st.title3] else []),
              [NewLine(toggle.1 + " " + st.serviceName + ": " + st.title3).Length(maxLen).Command(Curl(Raw(toggle.0))),
               NewLine(st.streamFormat).Alternate()])
    else if st.state == "pause" then
      Display([":pause.fill: " + st.title1],
              [NewLine(":play.fill: " + st.serviceName + ": " + st.title1).Length(maxLen).Command(pauseCmd)])
    else if st.state == "stop" then
      Display([":stop.fill: " + st.state],
              if st.service != "" then
                [NewLine(":play.fill: " + st.serviceName + ": " + st.title1).Length(maxLen)
                   .Command(Curl(Raw(playerUrl + "/Play")))]
              else [])
    else
      Display([], [])
  }

  /** The status section: the fetch error in red, or the state display of the record; an
      unmarshal error is ignored, leaving the empty record. */
  function StatusSection(loaded: Loaded<StateXml>, playerUrl: string, maxLen: int): Display {
    match loaded
    case FetchFailed(message) => Display([], [NewLine(message).Color("red").Length(maxLen)])
    case ParseFailed(_) => StateDisplay(EmptyState, playerUrl, maxLen)
    case Parsed(st) => StateDisplay(st, playerUrl, maxLen)
  }

  /** In the play state the icon of the three status lines is :shuffle: exactly when
      Shuffle is "1". */
  lemma PlayStateIcon(st: StateXml, playerUrl: string, maxLen: int)
    requires st.state == "play"
    ensures var icon := if st.shuffle == "1" then ":shuffle:" else ":music.note.list:";
      StateDisplay(st, playerUrl, maxLen).bar == [icon + " " + st.name, icon + " " + st.album, icon + " " + st.artist]
    ensures var d := StateDisplay(st, playerUrl, maxLen);
      |d.bar| == 3 && (":shuffle:" <= d.bar[0] <==> st.shuffle == "1")
  {
    var d := StateDisplay(st, playerUrl, maxLen);
    if st.shuffle != "1" {
      assert d.bar[0][1] == 'm';
    }
  }

  /** In the stop state the submenu line runs /Play and appears only for a non-empty service. */
  lemma StopStateRule(st: StateXml, playerUrl: string, maxLen: int)
    requires st.state == "stop"
    ensures var d := StateDisplay(st, playerUrl, maxLen);
      |d.bar| == 1 && |d.items| <= 1 && (|d.items| == 1 <==> st.service != "") &&
      (st.service != "" ==> d.items[0].cmd == Some(Curl(Raw(playerUrl + "/Play"))))
  {
  }

  /** An unknown state, or a status that did not unmarshal, shows nothing. */
  lemma UnknownStateShowsNothing(st: StateXml, playerUrl: string, maxLen: int, message: string)
    ensures !KnownState(st.state) ==> StateDisplay(st, playerUrl, maxLen) == Display([], [])
    ensures StatusSection(ParseFailed(message), playerUrl, maxLen) == Display([], [])
  {
  }

  /** The status section as `main` builds it. */
  method AddStatusSection(app: Plugin, loaded: Loaded<StateXml>, playerUrl: string, maxLen: int)
    modifies app
    ensures app.bar == old(app.bar) + StatusSection(loaded, playerUrl, maxLen).bar
    ensures app.items == old(app.items) + StatusSection(loaded, playerUrl, maxLen).items
  {
    if loaded.FetchFailed? {
      app.Add(NewLine(loaded.message).Color("red").Length(maxLen));
      return;
    }
    var state := if loaded.Parsed? then loaded.value else EmptyState;
    var c := playerUrl + "/Pause?toggle=1";
    var cmd := Curl(Raw(c));
    if state.state == "connecting" {
      var icon := ":powercord:";
      assert icon + " connecting" == ":powercord: connecting";
      app.StatusLine(icon + " connecting");
    } else if state.state == "play" {
      var icon := ":music.note.list:";
      if state.shuffle == "1" {
        icon := ":shuffle:";
      }
      var icon2 := ":pause.fill:";
      assert icon2 + " " == ":pause.fill: ";
      app.StatusLine(icon + " " + state.name);
      app.StatusLine(icon + " " + state.album);
      app.StatusLine(icon + " " + state.artist);
      app.Add(NewLine(icon2 + " " + state.serviceName + ": " + state.name).Command(cmd));
      app.Add(NewLine(state.quality + " " + state.streamFormat).Alternate());
    } else if state.state == "stream" {
      AddStreamLines(app, state, playerUrl, maxLen);
    } else if state.state == "pause" {
      app.StatusLine(":pause.fill: " + state.title1);
      app.Add(NewLine(":play.fill: " + state.serviceName + ": " + state.title1).Length(maxLen).Command(cmd));
    } else if state.state == "stop" {
      cmd := Curl(Raw(playerUrl + "/Play"));
      app.StatusLine(":stop.fill: " + state.state);
      if state.service != "" {
        app.Add(NewLine(":play.fill: " + state.serviceName + ": " + state.title1).Length(maxLen).Command(cmd));
      }
    }
  }

  /** The "stream" branch, which reassigns the command and its icon for AirPlay. */
  method AddStreamLines(app: Plugin, state: StateXml, playerUrl: string, maxLen: int)
    requires state.state == "stream"
    modifies app
    ensures app.bar == old(app.bar) + StateDisplay(state, playerUrl, maxLen).bar
    ensures app.items == old(app.items) + StateDisplay(state, playerUrl, maxLen).items
    ensures |app.bar| == |old(app.bar)| + (if state.service == "Spotify" then 2 else 3)
    ensures |app.items| == |old(app.items)| + 2
  {
    var c := playerUrl + "/Pause?toggle=1";
    var cmd := Curl(Raw(c));
    var icon := StreamIcon(state.service);
    var icon2 := ":pause.fill:";
    if state.service == "AirPlay" {
      if state.mute == "0" {
        c := playerUrl + "/Volume?mute=1";
        icon2 := ":speaker.zzz:";
      } else if state.mute == "1" {
        c := playerUrl + "/Volume?mute=0";
        icon2 := ":speaker.slash:";
      }
      cmd := Curl(Raw(c));
    }
    assert (c, icon2) == StreamToggle(state, playerUrl);
    app.StatusLine(icon + " " + state.title2);
    app.StatusLine(icon + " " + state.title1);
    if state.service != "Spotify" {
      app.StatusLine(icon + " " + state.title3);
    }
    app.Add(NewLine(icon2 + " " + state.serviceName + ": " + state.title3).Length(maxLen).Command(cmd));
    app.Add(NewLine(state.streamFormat).Alternate());
  }

  // ---------------------------------------------------------------------------
  // Radio presets

  function PresetLine(p: Preset, playerUrl: string): Line {
    NewLine(p.id + " - " + p.name).Command(Curl(Raw(playerUrl + "/Preset?id=" + p.id)))
  }

  /** The presets section: the fetch error in red, or one line per preset (an unmarshal
      error is ignored and leaves no presets). */
  function PresetLines(loaded: Loaded<seq<Preset>>, playerUrl: string, maxLen: int): seq<Line> {
    match loaded
    case FetchFailed(message) => [NewLine(message).Color("red").Length(maxLen)]
    case ParseFailed(_) => []
    case Parsed(presets) => seq(|presets|, i requires 0 <= i < |presets| => PresetLine(presets[i], playerUrl))
  }

  /** Each preset gets one line, in input order, running <player>/Preset?id=<ID>. */
  lemma PresetLinesShape(presets: seq<Preset>, playerUrl: string, maxLen: int)
    ensures var lines := PresetLines(Parsed(presets), playerUrl, maxLen);
      |lines| == |presets| &&
      forall i :: 0 <= i < |presets| ==>
        lines[i].text == presets[i].id + " - " + presets[i].name &&
        lines[i].cmd == Some(Curl(Raw(playerUrl + "/Preset?id=" + presets[i].id)))
  {
  }

  method AddPresets(app: Plugin, loaded: Loaded<seq<Preset>>, playerUrl: string, maxLen: int)
    modifies app
    ensures app.items == old(app.items) + PresetLines(loaded, playerUrl, maxLen)
    ensures app.bar == old(app.bar)
  {
    match loaded {
      case FetchFailed(message) =>
        app.Add(NewLine(message).Color("red").Length(maxLen));
      case ParseFailed(_) =>
      case Parsed(presets) =>
        ghost var lines := PresetLines(loaded, playerUrl, maxLen);
        for i := 0 to |presets|
          invariant app.items == old(app.items) + lines[..i]
          invariant app.bar == old(app.bar)
        {
          var p := presets[i];
          var c := playerUrl + "/Preset?id=" + p.id;
          app.Add(NewLine(p.id + " - " + p.name).Command(Curl(Raw(c))));
          assert lines[..i + 1] == lines[..i] + [lines[i]];
        }
        assert lines[..|presets|] == lines;
    }
  }

  // ---------------------------------------------------------------------------
  // Volume section

  /** The level presets of this revision, quietest first. */
  const LevelPresets: seq<VolumePreset> := [
    VolumePreset("🔈 Low (20%)", 20),
    VolumePreset("🔉 Medium (50%)", 50),
    VolumePreset("🔊 High (80%)", 80),
    VolumePreset("📢 Max (100%)", 100)
  ]

  /** A fine dB step: its caption and the step as %.1f renders it. */
  datatype DbStep = DbStep(caption: string, db: string)

  const FineSteps: seq<DbStep> := [
    DbStep("🔊 Volume Up (1dB)", "1.0"),
    DbStep("🔉 Volume Down (1dB)", "-1.0"),
    DbStep("🔊 Volume Up (0.5dB)", "0.5"),
    DbStep("🔉 Volume Down (0.5dB)", "-0.5")
  ]

  function MuteToggleLine(status: VolumeStatus, playerUrl: string): Line
    requires ParsesAsUrl(playerUrl + "/Volume")
  {
    if status.mute == 1 then NewLine("🔈 Unmute").Command(VolumeCommand(playerUrl, map["mute" := "0"]))
    else NewLine("🔇 Mute").Command(VolumeCommand(playerUrl, map["mute" := "1"]))
  }

  function LevelPresetLines(playerUrl: string): seq<Line>
    requires ParsesAsUrl(playerUrl + "/Volume")
  {
    seq(|LevelPresets|, i requires 0 <= i < |LevelPresets| =>
      NewLine(LevelPresets[i].caption).Command(VolumeCommand(playerUrl, map["level" := IntToString(LevelPresets[i].level)])))
  }

  function FineStepLines(playerUrl: string): seq<Line>
    requires ParsesAsUrl(playerUrl + "/Volume")
  {
    seq(|FineSteps|, i requires 0 <= i < |FineSteps| =>
      NewLine(FineSteps[i].caption).Command(VolumeCommand(playerUrl, map["db" := FineSteps[i].db])))
  }

  /** The level line, then the dB line when the dB level is not zero. */
  function LevelLines(status: VolumeStatus, dbText: string): seq<Line> {
    (if status.mute == 1 then [NewLine("🔇 Volume: Muted (" + IntToString(status.level) + "%)")]
     else [NewLine("🔊 Volume: " + IntToString(status.level) + "%")])
    + (if status.db != 0.0 then [NewLine("🎛 Volume dB: " + dbText + " dB").Alternate()] else [])
  }

  /** Volume up and down by the default step, the mute toggle and the presets heading. */
  function StepAndToggleLines(status: VolumeStatus, playerUrl: string): seq<Line>
    requires ParsesAsUrl(playerUrl + "/Volume")
  {
    [NewLine("🔊 Volume Up").Command(VolumeCommand(playerUrl, map["db" := DbStepUpText])),
     NewLine("🔉 Volume Down").Command(VolumeCommand(playerUrl, map["db" := DbStepDownText])),
     MuteToggleLine(status, playerUrl),
     NewLine("--- Volume Presets ---").Alternate()]
  }

  /** The controls shown for a volume status that unmarshalled. */
  function VolumeControlLines(status: VolumeStatus, playerUrl: string, dbText: string): seq<Line>
    requires ParsesAsUrl(playerUrl + "/Volume")
  {
    LevelLines(status, dbText)
    + StepAndToggleLines(status, playerUrl)
    + LevelPresetLines(playerUrl)
    + [NewLine("--- Fine Volume Control ---").Alternate()]
    + FineStepLines(playerUrl)
  }

  const VolumeHeader: Line := NewLine("--- Volume Controls ---").Alternate()

  /** The volume section: its heading, then an error line or the controls. */
  function VolumeSectionLines(loaded: Loaded<VolumeStatus>, playerUrl: string, dbText: string): seq<Line>
    requires loaded.Parsed? ==> ParsesAsUrl(playerUrl + "/Volume")
  {
    [VolumeHeader] +
    match loaded
    case FetchFailed(_) => [NewLine("⚠️ Could not get volume").Color("red")]
    case ParseFailed(_) => [NewLine("⚠️ Error parsing volume data").Color("red")]
    case Parsed(status) => VolumeControlLines(status, playerUrl, dbText)
  }

  /** After the level (and dB) lines come volume up and down by the default step, the
      toggle — Unmute with mute=0 exactly when Mute == 1, Mute with mute=1 otherwise —
      and the level presets 20, 50, 80, 100 in that order. */
  lemma VolumeControlRules(status: VolumeStatus, playerUrl: string, dbText: string)
    requires ParsesAsUrl(playerUrl + "/Volume")
    ensures var lines := VolumeControlLines(status, playerUrl, dbText);
      var k := if status.db != 0.0 then 2 else 1;
      && |lines| == k + 13
      && lines[k].cmd == Some(VolumeCommand(playerUrl, map["db" := "2.0"]))
      && lines[k + 1].cmd == Some(VolumeCommand(playerUrl, map["db" := "-2.0"]))
      && (lines[k + 2].text == "🔈 Unmute" <==> status.mute == 1)
      && lines[k + 2].cmd == Some(VolumeCommand(playerUrl, map["mute" := if status.mute == 1 then "0" else "1"]))
      && forall i :: 0 <= i < 4 ==>
           lines[k + 4 + i].cmd == Some(VolumeCommand(playerUrl, map["level" := IntToString([20, 50, 80, 100][i])]))
  {
    var lines := VolumeControlLines(status, playerUrl, dbText);
    var k := if status.db != 0.0 then 2 else 1;
    assert |LevelLines(status, dbText)| == k;
    forall i | 0 <= i < 4
      ensures lines[k + 4 + i] == LevelPresetLines(playerUrl)[i]
    {
    }
    if status.mute != 1 {
      assert lines[k + 2].text[0] == '🔇' != "🔈 Unmute"[0];
    }
  }

  method AddVolumeSection(app: Plugin, loaded: Loaded<VolumeStatus>, playerUrl: string, dbText: string)
    requires loaded.Parsed? ==> ParsesAsUrl(playerUrl + "/Volume")
    modifies app
    ensures app.items == old(app.items) + VolumeSectionLines(loaded, playerUrl, dbText)
    ensures app.bar == old(app.bar)
  {
    app.Add(VolumeHeader);
    match loaded {
      case FetchFailed(_) =>
        app.Add(NewLine("⚠️ Could not get volume").Color("red"));
      case ParseFailed(_) =>
        app.Add(NewLine("⚠️ Error parsing volume data").Color("red"));
      case Parsed(volStatus) =>
        ghost var before := app.items;
        AddVolumeControls(app, volStatus, playerUrl, dbText);
        assert before == old(app.items) + [VolumeHeader];
        AppendAssociates(old(app.items), [VolumeHeader], VolumeControlLines(volStatus, playerUrl, dbText));
    }
  }

  /** The controls of the volume section, for a status that unmarshalled. */
  method AddVolumeControls(app: Plugin, volStatus: VolumeStatus, playerUrl: string, dbText: string)
    requires ParsesAsUrl(playerUrl + "/Volume")
    modifies app
    ensures app.items == old(app.items) + VolumeControlLines(volStatus, playerUrl, dbText)
    ensures app.bar == old(app.bar)
  {
    AddLevelLines(app, volStatus, dbText);
    AddStepAndToggle(app, volStatus, playerUrl);
    AddLevelPresets(app, playerUrl);
    app.Add(NewLine("--- Fine Volume Control ---").Alternate());
    AddFineSteps(app, playerUrl);
    ghost var tail := StepAndToggleLines(volStatus, playerUrl) + LevelPresetLines(playerUrl)
      + [NewLine("--- Fine Volume Control ---").Alternate()] + FineStepLines(playerUrl);
    assert app.items == old(app.items) + LevelLines(volStatus, dbText) + tail;
    assert VolumeControlLines(volStatus, playerUrl, dbText) == LevelLines(volStatus, dbText) + tail;
    AppendAssociates(old(app.items), LevelLines(volStatus, dbText), tail);
  }

  /** Appending a section's lines in parts, or all at once, gives the same menu. */
  lemma AppendAssociates<T>(a: seq<T>, b: seq<T>, c: seq<T>)
    ensures a + b + c == a + (b + c)
  {
  }

  /** The level line and the optional dB line. */
  method AddLevelLines(app: Plugin, volStatus: VolumeStatus, dbText: string)
    modifies app
    ensures app.items == old(app.items) + LevelLines(volStatus, dbText)
    ensures app.bar == old(app.bar)
    ensures |app.items| == |old(app.items)| + (if volStatus.db != 0.0 then 2 else 1)
  {
    if volStatus.mute == 1 {
      app.Add(NewLine("🔇 Volume: Muted (" + IntToString(volStatus.level) + "%)"));
    } else {
      app.Add(NewLine("🔊 Volume: " + IntToString(volStatus.level) + "%"));
    }
    if volStatus.db != 0.0 {
      app.Add(NewLine("🎛 Volume dB: " + dbText + " dB").Alternate());
    }
  }

  /** Volume up and down, then Unmute or Mute, then the presets heading. */
  method AddStepAndToggle(app: Plugin, volStatus: VolumeStatus, playerUrl: string)
    requires ParsesAsUrl(playerUrl + "/Volume")
    modifies app
    ensures app.items == old(app.items) + StepAndToggleLines(volStatus, playerUrl)
    ensures app.bar == old(app.bar)
    ensures |app.items| == |old(app.items)| + 4
    ensures app.items[|old(app.items)| + 2].text == "🔈 Unmute" <==> volStatus.mute == 1
  {
    var volumeUpCmd := CreateVolumeCommand(playerUrl, map["db" := DbStepUpText]);
    var volumeDownCmd := CreateVolumeCommand(playerUrl, map["db" := DbStepDownText]);
    app.Add(NewLine("🔊 Volume Up").Command(volumeUpCmd));
    app.Add(NewLine("🔉 Volume Down").Command(volumeDownCmd));
    var muteCmd := CreateVolumeCommand(playerUrl, map["mute" := "1"]);
    var unmuteCmd := CreateVolumeCommand(playerUrl, map["mute" := "0"]);
    if volStatus.mute == 1 {
      app.Add(NewLine("🔈 Unmute").Command(unmuteCmd));
    } else {
      app.Add(NewLine("🔇 Mute").Command(muteCmd));
    }
    app.Add(NewLine("--- Volume Presets ---").Alternate());
  }

  /** The loop over the level presets. */
  method AddLevelPresets(app: Plugin, playerUrl: string)
    requires ParsesAsUrl(playerUrl + "/Volume")
    modifies app
    ensures app.items == old(app.items) + LevelPresetLines(playerUrl)
    ensures app.bar == old(app.bar)
  {
    ghost var presetLines := LevelPresetLines(playerUrl);
    for i := 0 to |LevelPresets|
      invariant app.items == old(app.items) + presetLines[..i]
      invariant app.bar == old(app.bar)
    {
      var preset := LevelPresets[i];
      var presetCmd := CreateVolumeCommand(playerUrl, map["level" := IntToString(preset.level)]);
      app.Add(NewLine(preset.caption).Command(presetCmd));
      assert presetLines[..i + 1] == presetLines[..i] + [presetLines[i]];
    }
    assert presetLines[..|LevelPresets|] == presetLines;
  }

  /** The loop over the fine dB steps. */
  method AddFineSteps(app: Plugin, playerUrl: string)
    requires ParsesAsUrl(playerUrl + "/Volume")
    modifies app
    ensures app.items == old(app.items) + FineStepLines(playerUrl)
    ensures app.bar == old(app.bar)
  {
    ghost var stepLines := FineStepLines(playerUrl);
    for i := 0 to |FineSteps|
      invariant app.items == old(app.items) + stepLines[..i]
      invariant app.bar == old(app.bar)
    {
      var step := FineSteps[i];
      var fineCmd := CreateVolumeCommand(playerUrl, map["db" := step.db]);
      app.Add(NewLine(step.caption).Command(fineCmd));
      assert stepLines[..i + 1] == stepLines[..i] + [stepLines[i]];
    }
    assert stepLines[..|FineSteps|] == stepLines;
  }

  // ---------------------------------------------------------------------------
  // Audio information

  /** The audio-information section, from a second fetch of /Status. */
  function AudioInfoLines(loaded: Loaded<StateXml>): seq<Line> {
    if loaded.Parsed? && loaded.value.state != "stop" then
      [NewLine("--- Audio Information ---").Alternate()]
      + (if loaded.value.quality != "" then [NewLine("🎧 Quality: " + loaded.value.quality)] else [])
      + (if loaded.value.streamFormat != "" then [NewLine("🎛 Format: " + loaded.value.streamFormat)] else [])
    else []
  }

  /** The section appears only for a status that unmarshalled and is not "stop"; its
      Quality and Format lines appear exactly when those fields are not empty. */
  lemma AudioInfoRules(loaded: Loaded<StateXml>)
    ensures AudioInfoLines(loaded) != [] <==> loaded.Parsed? && loaded.value.state != "stop"
    ensures loaded.Parsed? ==>
      var lines := AudioInfoLines(loaded);
      && ((exists i :: 0 <= i < |lines| && lines[i].text == "🎧 Quality: " + loaded.value.quality)
            <==> loaded.value.state != "stop" && loaded.value.quality != "")
      && ((exists i :: 0 <= i < |lines| && lines[i].text == "🎛 Format: " + loaded.value.streamFormat)
            <==> loaded.value.state != "stop" && loaded.value.streamFormat != "")
  {
    if loaded.Parsed? && loaded.value.state != "stop" {
      var st := loaded.value;
      var lines := AudioInfoLines(loaded);
      var q := "🎧 Quality: " + st.quality;
      var f := "🎛 Format: " + st.streamFormat;
      assert q[0] == '🎧' && f[0] == '🎛';
      assert lines[0].text[0] == '-';
      if st.quality != "" {
        assert lines[1].text == q;
      } else {
        assert forall i :: 0 <= i < |lines| ==> lines[i].text[0] != '🎧';
      }
      if st.streamFormat != "" {
        assert lines[|lines| - 1].text == f;
      } else {
        assert forall i :: 0 <= i < |lines| ==> lines[i].text[0] != '🎛';
      }
    }
  }

  method AddAudioInfo(app: Plugin, loaded: Loaded<StateXml>)
    modifies app
    ensures app.items == old(app.items) + AudioInfoLines(loaded)
    ensures app.bar == old(app.bar)
  {
    if loaded.Parsed? && loaded.value.state != "stop" {
      var state := loaded.value;
      app.Add(NewLine("--- Audio Information ---").Alternate());
      if state.quality != "" {
        app.Add(NewLine("🎧 Quality: " + state.quality));
      }
      if state.streamFormat != "" {
        app.Add(NewLine("🎛 Format: " + state.streamFormat));
      }
    }
  }

  // ---------------------------------------------------------------------------
  // The whole menu

  /** `main`: the player URL and length limit come from the configuration; the documents
      are what the four fetches returned (/Status twice, /Presets, /Volume). */
  method BuildMenu(config: map<string, string>, status: Loaded<StateXml>, presets: Loaded<seq<Preset>>,
                   volume: Loaded<VolumeStatus>, audio: Loaded<StateXml>, dbText: string)
    returns (app: Plugin)
    requires volume.Parsed? ==> ParsesAsUrl(ConfigValue(config, "BLUE_URL") + "/Volume")
    ensures fresh(app)
    ensures app.bar == StatusSection(status, ConfigValue(config, "BLUE_URL"), ConfiguredMax(config)).bar
    ensures app.items ==
      StatusSection(status, ConfigValue(config, "BLUE_URL"), ConfiguredMax(config)).items
      + PresetLines(presets, ConfigValue(config, "BLUE_URL"), ConfiguredMax(config))
      + VolumeSectionLines(volume, ConfigValue(config, "BLUE_URL"), dbText)
      + AudioInfoLines(audio)
  {
    var maxLen := ConfiguredMax(config);
    var bluePlayerUrl := ConfigValue(config, "BLUE_URL");
    app := new Plugin();
    AddStatusSection(app, status, bluePlayerUrl, maxLen);
    ghost var statusLines := app.items;
    assert statusLines == StatusSection(status, bluePlayerUrl, maxLen).items;
    AddPresets(app, presets, bluePlayerUrl, maxLen);
    ghost var presetLines := PresetLines(presets, bluePlayerUrl, maxLen);
    assert app.items == statusLines + presetLines;
    AddVolumeSection(app, volume, bluePlayerUrl, dbText);
    ghost var volumeLines := VolumeSectionLines(volume, bluePlayerUrl, dbText);
    assert app.items == statusLines + presetLines + volumeLines;
    AddAudioInfo(app, audio);
  }
}
