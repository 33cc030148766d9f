/** The dropdown menu of the newer revision (menu.go): the status display per player state,
    radio presets, volume information with its symbol and colour bands, volume presets and
    the mute toggle. Each XML document arrives already fetched and unmarshalled, as a
    Loaded value; each section is a method appending to the plugin, specified by a function
    giving the lines it appends. */
module Menu {
  import opened Wrappers
  import opened Text
  import opened Http
  import opened Structs
  import opened Bitbar
  import opened Helpers

  const SpeakerSlash: string := ":speaker.slash.fill:"
  const SpeakerWave1: string := ":speaker.wave.1.fill:"
  const SpeakerWave2: string := ":speaker.wave.2.fill:"
  const SpeakerWave3: string := ":speaker.wave.3.fill:"
  const Megaphone: string := ":megaphone.fill:"

  // ---------------------------------------------------------------------------
  // Volume symbol and colour

  /** getVolumeSymbol: the slash whenever muted; otherwise a band of the level. */
  function VolumeSymbol(level: int, isMuted: bool): (s: string)
    ensures isMuted ==> s == SpeakerSlash
    ensures !isMuted && level <= 0 ==> s == SpeakerSlash
    ensures !isMuted && 1 <= level <= 32 ==> s == SpeakerWave1
    ensures !isMuted && 33 <= level <= 65 ==> s == SpeakerWave2
    ensures !isMuted && 66 <= level <= 99 ==> s == SpeakerWave3
    ensures !isMuted && level >= 100 ==> s == Megaphone
  {
    if isMuted then SpeakerSlash
    else if level <= 0 then SpeakerSlash
    else if level > 0 && level < 33 then SpeakerWave1
    else if level >= 33 && level < 66 then SpeakerWave2
    else if level >= 66 && level < 100 then SpeakerWave3
    else Megaphone
  }

  /** How loud a volume symbol looks, from the slash (0) to the megaphone (4). */
  function SymbolLoudness(s: string): nat {
    if s == SpeakerWave1 then 1
    else if s == SpeakerWave2 then 2
    else if s == SpeakerWave3 then 3
    else if s == Megaphone then 4
    else 0
  }

  /** Unmuted, a louder level never gets a quieter-looking symbol. */
  lemma VolumeSymbolMonotone(low: int, high: int)
    requires low <= high
    ensures SymbolLoudness(VolumeSymbol(low, false)) <= SymbolLoudness(VolumeSymbol(high, false))
  {
  }

  /** The colour of the volume lines when not muted (muted lines are red). */
  function VolumeColour(level: int): (c: string)
    ensures c == "red" <==> level > 85
    ensures c == "orange" <==> 61 <= level <= 85
    ensures c == "blue" <==> 31 <= level <= 60
    ensures c == "green" <==> level <= 30
  {
    if level > 85 then "red"
    else if level > 60 then "orange"
    else if level > 30 then "blue"
    else "green"
  }

  // ---------------------------------------------------------------------------
  // Volume information

  /** What addVolumeInfo returns when the volume XML does not unmarshal. */
  const DefaultVolumeStatus: VolumeStatus := VolumeStatus(-30.0, 0, 50, "unknown")

  /** The fine-control command as menu.go:305 and menu.go:308 build it: they pass the
      volume URL, which already ends in /Volume, where the player URL is expected. */
  function FineVolumeCommandAsWritten(volumeUrl: string, db: string): Cmd {
    VolumeCommand(volumeUrl, map["db" := db])
  }

  /** The fine-control command as intended: a dB step on the player's /Volume endpoint. */
  function FineVolumeCommand(playerUrl: string, db: string): Cmd {
    VolumeCommand(playerUrl, map["db" := db])
  }

  /** As written, the fine-control command asks for <player>/Volume/Volume, not for the
      endpoint every other volume command uses. */
  lemma FineVolumeCommandAsWrittenDoublesPath(playerUrl: string, db: string)
    requires ParsesAsUrl(playerUrl + "/Volume/Volume")
    ensures FineVolumeCommandAsWritten(playerUrl + "/Volume", db).params[1]
      == Target(Encoded(playerUrl + "/Volume/Volume", map["db" := db]))
    ensures FineVolumeCommandAsWritten(playerUrl + "/Volume", db) != FineVolumeCommand(playerUrl, db)
  {
    assert playerUrl + "/Volume" + "/Volume" == playerUrl + "/Volume/Volume";
    assert ParsesAsUrl(playerUrl + "/Volume") by {
      var s := playerUrl + "/Volume/Volume";
      assert forall i :: 0 <= i < |playerUrl + "/Volume"| ==> (playerUrl + "/Volume")[i] == s[i];
    }
    assert |playerUrl + "/Volume/Volume"| != |playerUrl + "/Volume"|;
  }

  /** The corrected fine-control command goes to the same endpoint, with the same kind of
      query, as the volume presets and the mute toggle. */
  lemma FineVolumeCommandTargetsVolume(playerUrl: string, db: string)
    requires ParsesAsUrl(playerUrl + "/Volume")
    ensures FineVolumeCommand(playerUrl, db).params == [Flag("-sf"), Target(Encoded(playerUrl + "/Volume", map["db" := db]))]
  {
  }

  /** The lines addVolumeInfo appends. */
  function VolumeInfoLines(loaded: Loaded<VolumeStatus>, playerUrl: string, dbText: string): seq<Line> {
    match loaded
    case FetchFailed(_) => [NewLine("⚠️ Could not get volume").Color("red")]
    case ParseFailed(_) => [NewLine("⚠️ Error parsing volume data").Color("red")]
    case Parsed(vs) =>
      var symbol := VolumeSymbol(vs.level, vs.mute == 1);
      if vs.mute == 1 then
        [NewLine(symbol + " Volume: " + dbText + " dB (Muted)").Color("red"),
         NewLine(symbol + " Volume: " + IntToString(vs.level) + "% (Muted)").Alternate().Color("red")]
      else
        var colour := VolumeColour(vs.level);
        [NewLine(symbol + " Volume: " + dbText + " dB").Color(colour),
         NewLine(symbol + " Volume: " + IntToString(vs.level) + "%").Alternate().Color(colour),
         NewLine(":speaker.wave.3.fill: Volume Up (1dB)").Command(FineVolumeCommand(playerUrl, "1.0")).Alternate(),
         NewLine(":speaker.wave.1.fill: Volume Down (1dB)").Command(FineVolumeCommand(playerUrl, "-1.0")).Alternate()]
  }

  /** The status addVolumeInfo hands to the later sections: none when the fetch failed,
      the default when the XML did not unmarshal, the parsed one otherwise. */
  function VolumeInfoStatus(loaded: Loaded<VolumeStatus>): (vs: Option<VolumeStatus>)
    ensures loaded.FetchFailed? <==> vs.None?
    ensures loaded.ParseFailed? ==> vs == Some(VolumeStatus(-30.0, 0, 50, "unknown"))
    ensures loaded.Parsed? ==> vs == Some(loaded.value)
  {
    match loaded
    case FetchFailed(_) => None
    case ParseFailed(_) => Some(DefaultVolumeStatus)
    case Parsed(vs) => Some(vs)
  }

  /** The two volume lines of a parsed status are red when muted, and otherwise take the
      colour band of the level; the symbol is the slash whenever muted. */
  lemma VolumeInfoColours(vs: VolumeStatus, playerUrl: string, dbText: string)
    ensures var lines := VolumeInfoLines(Parsed(vs), playerUrl, dbText);
      |lines| >= 2 &&
      forall i :: 0 <= i < 2 ==>
        lines[i].color == Some(if vs.mute == 1 then "red" else VolumeColour(vs.level))
    ensures vs.mute == 1 ==> |VolumeInfoLines(Parsed(vs), playerUrl, dbText)| == 2
  {
  }

  /** addVolumeInfo. `dbText` is the dB level as %.1f renders it. */
  method AddVolumeInfo(app: Plugin, loaded: Loaded<VolumeStatus>, playerUrl: string, dbText: string)
    returns (vs: Option<VolumeStatus>)
    modifies app
    ensures app.items == old(app.items) + VolumeInfoLines(loaded, playerUrl, dbText)
    ensures app.bar == old(app.bar)
    ensures vs == VolumeInfoStatus(loaded)
  {
    match loaded {
      case FetchFailed(_) =>
        app.Add(NewLine("⚠️ Could not get volume").Color("red"));
        return None;
      case ParseFailed(_) =>
        app.Add(NewLine("⚠️ Error parsing volume data").Color("red"));
        return Some(DefaultVolumeStatus);
      case Parsed(status) =>
        var volumeSymbol := VolumeSymbol(status.level, status.mute == 1);
        if status.mute == 1 {
          app.Add(NewLine(volumeSymbol + " Volume: " + dbText + " dB (Muted)").Color("red"));
          app.Add(NewLine(volumeSymbol + " Volume: " + IntToString(status.level) + "% (Muted)").Alternate().Color("red"));
        } else {
          var volColor := VolumeColour(status.level);
          app.Add(NewLine(volumeSymbol + " Volume: " + dbText + " dB").Color(volColor));
          app.Add(NewLine(volumeSymbol + " Volume: " + IntToString(status.level) + "%").Alternate().Color(volColor));
          var up := CreateVolumeCommand(playerUrl, map["db" := "1.0"]);
          app.Add(NewLine(":speaker.wave.3.fill: Volume Up (1dB)").Command(up).Alternate());
          var down := CreateVolumeCommand(playerUrl, map["db" := "-1.0"]);
          app.Add(NewLine(":speaker.wave.1.fill: Volume Down (1dB)").Command(down).Alternate());
        }
        return Some(status);
    }
  }

  // ---------------------------------------------------------------------------
  // Volume presets and mute toggle

  /** The volume presets, loudest first. */
  const VolumePresets: seq<VolumePreset> := [
    VolumePreset(":megaphone.fill: Max (100%)", 100),
    VolumePreset(":speaker.wave.3.fill: High (80%)", 80),
    VolumePreset(":speaker.wave.2.fill: Medium (50%)", 50),
    VolumePreset(":speaker.wave.1.fill: Low (20%)", 20)
  ]

  /** A preset is highlighted when the current level lies within 5 of it. */
  predicate NearPreset(presetLevel: int, current: int) {
    presetLevel - 5 <= current <= presetLevel + 5
  }

  function VolumePresetLine(p: VolumePreset, playerUrl: string, current: int): Line {
    var line := NewLine(p.caption).Command(VolumeCommand(playerUrl, map["level" := IntToString(p.level)]));
    if NearPreset(p.level, current) then line.Color("blue") else line
  }

  /** The lines addVolumePresets appends: nothing without a volume status. */
  function VolumePresetLines(playerUrl: string, vs: Option<VolumeStatus>): seq<Line> {
    match vs
    case None => []
    case Some(status) =>
      seq(|VolumePresets|, i requires 0 <= i < |VolumePresets| => VolumePresetLine(VolumePresets[i], playerUrl, status.level))
  }

  /** The presets come in the order 100, 80, 50, 20, each setting its level; a preset is
      highlighted exactly when the level is within 5 of it, so at most one is. */
  lemma VolumePresetHighlight(playerUrl: string, status: VolumeStatus)
    ensures var lines := VolumePresetLines(playerUrl, Some(status));
      && |lines| == 4
      && (forall i :: 0 <= i < 4 ==>
            lines[i].cmd == Some(VolumeCommand(playerUrl, map["level" := IntToString([100, 80, 50, 20][i])])))
      && (forall i :: 0 <= i < 4 ==>
            (lines[i].color == Some("blue") <==> -5 <= status.level - [100, 80, 50, 20][i] <= 5))
      && (forall i, j :: 0 <= i < j < 4 ==> !(lines[i].color == Some("blue") && lines[j].color == Some("blue")))
  {
  }

  /** addVolumePresets. */
  method AddVolumePresets(app: Plugin, playerUrl: string, vs: Option<VolumeStatus>)
    modifies app
    ensures app.items == old(app.items) + VolumePresetLines(playerUrl, vs)
    ensures app.bar == old(app.bar)
  {
    if vs.None? {
      return;
    }
    var currentVol := vs.value.level;
    ghost var lines := VolumePresetLines(playerUrl, vs);
    for i := 0 to |VolumePresets|
      invariant app.items == old(app.items) + lines[..i]
      invariant app.bar == old(app.bar)
    {
      var preset := VolumePresets[i];
      var presetCmd := CreateVolumeCommand(playerUrl, map["level" := IntToString(preset.level)]);
      var line := NewLine(preset.caption).Command(presetCmd);
      if preset.level - 5 <= currentVol && currentVol <= preset.level + 5 {
        line := line.Color("blue");
      }
      app.Add(line);
      assert lines[..i + 1] == lines[..i] + [line];
    }
    assert lines[..|VolumePresets|] == lines;
  }

  /** The line addMuteToggle appends: Unmute (mute=0) when muted, Mute (mute=1) otherwise. */
  function MuteToggleLines(playerUrl: string, vs: Option<VolumeStatus>): seq<Line> {
    match vs
    case None => []
    case Some(status) =>
      if status.mute == 1 then [NewLine(":speaker.wave.2.fill: Unmute").Command(VolumeCommand(playerUrl, map["mute" := "0"]))]
      else [NewLine(":speaker.slash.fill: Mute").Command(VolumeCommand(playerUrl, map["mute" := "1"]))]
  }

  /** The toggle asks for the opposite of the current state: mute=0 exactly when the
      status says muted (Mute == 1), and mute=1 for any other Mute value. */
  lemma MuteToggleRequestsOpposite(playerUrl: string, status: VolumeStatus)
    requires ParsesAsUrl(playerUrl + "/Volume")
    ensures var lines := MuteToggleLines(playerUrl, Some(status));
      |lines| == 1 && lines[0].cmd.Some? &&
      exists m :: lines[0].cmd.value.params == [Flag("-sf"), Target(Encoded(playerUrl + "/Volume", map["mute" := m]))] &&
        (m == "1" <==> status.mute != 1) && (m == "0" <==> status.mute == 1)
  {
    var m := if status.mute == 1 then "0" else "1";
    assert MuteToggleLines(playerUrl, Some(status))[0].cmd.value.params
      == [Flag("-sf"), Target(Encoded(playerUrl + "/Volume", map["mute" := m]))];
  }

  /** addMuteToggle. */
  method AddMuteToggle(app: Plugin, playerUrl: string, vs: Option<VolumeStatus>)
    modifies app
    ensures app.items == old(app.items) + MuteToggleLines(playerUrl, vs)
    ensures app.bar == old(app.bar)
  {
    if vs.None? {
      return;
    }
    if vs.value.mute == 1 {
      var unmuteCmd := CreateVolumeCommand(playerUrl, map["mute" := "0"]);
      app.Add(NewLine(":speaker.wave.2.fill: Unmute").Command(unmuteCmd));
    } else {
      var muteCmd := CreateVolumeCommand(playerUrl, map["mute" := "1"]);
      app.Add(NewLine(":speaker.slash.fill: Mute").Command(muteCmd));
    }
  }

  // ---------------------------------------------------------------------------
  // Radio presets

  function RadioPresetLine(p: Preset, playerUrl: string): Line {
    NewLine(":star.fill: " + p.id + " - " + p.name).Command(CreateCommand(playerUrl + "/Preset?id=" + p.id))
  }

  /** The lines addRadioPresets appends. */
  function RadioPresetLines(loaded: Loaded<seq<Preset>>, playerUrl: string): seq<Line> {
    match loaded
    case FetchFailed(_) => [NewLine("⚠️ Error loading presets").Color("red")]
    case ParseFailed(_) => [NewLine("⚠️ Error parsing presets").Color("red")]
    case Parsed(presets) =>
      seq(|presets|, i requires 0 <= i < |presets| => RadioPresetLine(presets[i], playerUrl))
      + (if |presets| == 0 then [NewLine("No presets found").Color("gray")] else [])
  }

  /** One line per preset, in input order, each running <player>/Preset?id=<ID>; the
      "No presets found" line appears exactly when the list is empty. */
  lemma RadioPresetLinesShape(presets: seq<Preset>, playerUrl: string)
    ensures var lines := RadioPresetLines(Parsed(presets), playerUrl);
      && |lines| == (if presets == [] then 1 else |presets|)
      && (forall i :: 0 <= i < |presets| ==>
            lines[i].cmd == Some(CreateCommand(playerUrl + "/Preset?id=" + presets[i].id)))
      && (lines[|lines| - 1].text == "No presets found" <==> presets == [])
  {
    var lines := RadioPresetLines(Parsed(presets), playerUrl);
    if presets != [] {
      assert lines[|lines| - 1] == RadioPresetLine(presets[|presets| - 1], playerUrl);
      assert lines[|lines| - 1].text[0] == ':' != "No presets found"[0];
    }
  }

  /** addRadioPresets. */
  method AddRadioPresets(app: Plugin, loaded: Loaded<seq<Preset>>, playerUrl: string)
    modifies app
    ensures app.items == old(app.items) + RadioPresetLines(loaded, playerUrl)
    ensures app.bar == old(app.bar)
  {
    match loaded {
      case FetchFailed(_) =>
        app.Add(NewLine("⚠️ Error loading presets").Color("red"));
      case ParseFailed(_) =>
        app.Add(NewLine("⚠️ Error parsing presets").Color("red"));
      case Parsed(presets) =>
        ghost var lines := seq(|presets|, i requires 0 <= i < |presets| => RadioPresetLine(presets[i], playerUrl));
        for i := 0 to |presets|
          invariant app.items == old(app.items) + lines[..i]
          invariant app.bar == old(app.bar)
        {
          var p := presets[i];
          var cmd := CreateCommand(playerUrl + "/Preset?id=" + p.id);
          app.Add(NewLine(":star.fill: " + p.id + " - " + p.name).Command(cmd));
          assert lines[..i + 1] == lines[..i] + [lines[i]];
        }
        assert lines[..|presets|] == lines;
        if |presets| == 0 {
          app.Add(NewLine("No presets found").Color("gray"));
        }
    }
  }

  // ---------------------------------------------------------------------------
  // Status display

  function StreamIcon(service: string): string {
    if service == "AirPlay" then ":airplayaudio:"
    else if service == "Spotify" then ":music.note.list:"
    else if service == "Capture" then ":display:"
    else ":radio.fill:"
  }

  /** The command URL and icon of a stream's submenu line: for AirPlay, toggle the mute
      state it reports; otherwise pause. */
  function StreamToggle(st: StateXml, playerUrl: string): (r: (string, string)) {
    if st.service == "AirPlay" && st.mute == "0" then (playerUrl + "/Volume?mute=1", ":speaker.wave.1.fill:")
    else if st.service == "AirPlay" && st.mute == "1" then (playerUrl + "/Volume?mute=0", ":speaker.slash.fill:")
    else (playerUrl + "/Pause?toggle=1", ":pause.circle.fill:")
  }

  /** What createStatusDisplay shows for a parsed status, per player state. */
  function StateDisplay(st: StateXml, playerUrl: string, maxLen: int): Display {
    var pauseCmd := CreateCommand(playerUrl + "/Pause?toggle=1");
    if st.state == "connecting" then
      Display([":bolt.fill: connecting"], [])
    else if st.state == "play" then
      var icon := if st.shuffle == "1" then ":shuffle.circle.fill:" else ":play.circle.fill:";
      Display([icon + " " + st.name, icon + " " + st.album, icon + " " + st.artist],
              [NewLine(":pause.circle.fill: " + st.serviceName + ": " + st.name).Command(pauseCmd),
               NewLine(":music.note.list: " + st.quality).Alternate()])
    else if st.state == "stream" then
      var icon := StreamIcon(st.service);
      var toggle := StreamToggle(st, playerUrl);
      Display([icon + " " + st.title2, icon + " " + st.title1]
                + (if st.service != "Spotify" then [icon + " " + st.title3] else []),
              [NewLine(toggle.1 + " " + st.serviceName + ": " + st.title3).Length(maxLen).Command(CreateCommand(toggle.0)),
               NewLine(st.streamFormat).Alternate()])
    else if st.state == "pause" then
      Display([":pause.circle.fill: " + st.title1],
              [NewLine(":play.circle.fill: " + st.serviceName + ": " + st.title1).Length(maxLen).Command(pauseCmd)])
    else if st.state == "stop" then
      Display([":stop.circle.fill: " + st.state],
              if st.service != "" then
                [NewLine(":play.circle.fill: " + st.serviceName + ": " + st.title1).Length(maxLen)
                   .Command(CreateCommand(playerUrl + "/Play"))]
              else [])
    else
      Display([":questionmark.circle.fill: " + st.state],
              [NewLine("State: " + st.state), NewLine("Service: " + st.service), NewLine("Title: " + st.title1)])
  }

  /** What createStatusDisplay shows: the fetch error in red, three lines for XML that
      does not unmarshal, or the state display. */
  function StatusDisplay(loaded: Loaded<StateXml>, playerUrl: string, maxLen: int): Display {
    match loaded
    case FetchFailed(message) => Display([], [NewLine(message).Color("red").Length(maxLen)])
    case ParseFailed(message) =>
      Display([], [NewLine("XML parsing error - Limited display available").Color("orange"),
                   NewLine("Error: " + message).Color("red"),
                   NewLine("Raw data available - device is connected").Color("blue")])
    case Parsed(st) => StateDisplay(st, playerUrl, maxLen)
  }

  /** The state rules of createStatusDisplay: "stop" runs /Play and has a submenu line only
      for a non-empty service; "stream" drops the third status line for Spotify; AirPlay
      reporting mute 0 gets mute=1, mute 1 gets mute=0; an unknown state gets the
      question-mark icon; every parsed status puts something in the status bar. */
  lemma StateDisplayRules(st: StateXml, playerUrl: string, maxLen: int)
    ensures var d := StateDisplay(st, playerUrl, maxLen);
      && |d.bar| >= 1
      && (st.state == "stop" ==>
            (|d.items| == 1 <==> st.service != "") && |d.items| <= 1 &&
            (st.service != "" ==> d.items[0].cmd == Some(CreateCommand(playerUrl + "/Play"))))
      && (st.state == "stream" ==> (|d.bar| == 2 <==> st.service == "Spotify") && |d.bar| in {2, 3})
      && (st.state == "stream" && st.service == "AirPlay" && st.mute == "0" ==>
            d.items[0].cmd == Some(CreateCommand(playerUrl + "/Volume?mute=1")))
      && (st.state == "stream" && st.service == "AirPlay" && st.mute == "1" ==>
            d.items[0].cmd == Some(CreateCommand(playerUrl + "/Volume?mute=0")))
      && (st.state == "play" ==> |d.bar| == 3)
      && (!KnownState(st.state) ==> d.bar == [":questionmark.circle.fill: " + st.state])
  {
  }

  /** createStatusDisplay. */
  method CreateStatusDisplay(app: Plugin, loaded: Loaded<StateXml>, playerUrl: string, maxLen: int)
    modifies app
    ensures app.bar == old(app.bar) + StatusDisplay(loaded, playerUrl, maxLen).bar
    ensures app.items == old(app.items) + StatusDisplay(loaded, playerUrl, maxLen).items
  {
    match loaded {
      case FetchFailed(message) =>
        app.Add(NewLine(message).Color("red").Length(maxLen));
      case ParseFailed(message) =>
        app.Add(NewLine("XML parsing error - Limited display available").Color("orange"));
        app.Add(NewLine("Error: " + message).Color("red"));
        app.Add(NewLine("Raw data available - device is connected").Color("blue"));
      case Parsed(state) =>
        AddStateDisplay(app, state, playerUrl, maxLen);
    }
  }

  /** The state switch of createStatusDisplay. */
  method AddStateDisplay(app: Plugin, state: StateXml, playerUrl: string, maxLen: int)
    modifies app
    ensures app.bar == old(app.bar) + StateDisplay(state, playerUrl, maxLen).bar
    ensures app.items == old(app.items) + StateDisplay(state, playerUrl, maxLen).items
  {
    var c := playerUrl + "/Pause?toggle=1";
    var cmd := CreateCommand(c);
    if state.state == "connecting" {
      app.StatusLine(":bolt.fill: connecting");
    } else if state.state == "play" {
      var icon := ":play.circle.fill:";
      if state.shuffle == "1" {
        icon := ":shuffle.circle.fill:";
      }
      var icon2 := ":pause.circle.fill:";
      assert icon2 + " " == ":pause.circle.fill: ";
      app.StatusLine(icon + " " + state.name);
      app.StatusLine(icon + " " + state.album);
      app.StatusLine(icon + " " + state.artist);
      app.Add(NewLine(icon2 + " " + state.serviceName + ": " + state.name).Command(cmd));
      app.Add(NewLine(":music.note.list: " + state.quality).Alternate());
    } else if state.state == "stream" {
      AddStreamDisplay(app, state, playerUrl, maxLen);
    } else if state.state == "pause" {
      app.StatusLine(":pause.circle.fill: " + state.title1);
      app.Add(NewLine(":play.circle.fill: " + state.serviceName + ": " + state.title1).Length(maxLen).Command(cmd));
    } else if state.state == "stop" {
      cmd := CreateCommand(playerUrl + "/Play");
      app.StatusLine(":stop.circle.fill: " + state.state);
      if state.service != "" {
        app.Add(NewLine(":play.circle.fill: " + state.serviceName + ": " + state.title1).Length(maxLen).Command(cmd));
      }
    } else {
      app.StatusLine(":questionmark.circle.fill: " + state.state);
      app.Add(NewLine("State: " + state.state));
      app.Add(NewLine("Service: " + state.service));
      app.Add(NewLine("Title: " + state.title1));
    }
  }

  /** The "stream" case of createStatusDisplay, which reassigns the command and its icon
      for AirPlay. */
  method AddStreamDisplay(app: Plugin, state: StateXml, playerUrl: string, maxLen: int)
    requires state.state == "stream"
    modifies app
    ensures app.bar == old(app.bar) + StateDisplay(state, playerUrl, maxLen).bar
    ensures app.items == old(app.items) + StateDisplay(state, playerUrl, maxLen).items
    ensures |app.bar| == |old(app.bar)| + (if state.service == "Spotify" then 2 else 3)
    ensures |app.items| == |old(app.items)| + 2
  {
    var c := playerUrl + "/Pause?toggle=1";
    var cmd := CreateCommand(c);
    var icon := StreamIcon(state.service);
    var icon2 := ":pause.circle.fill:";
    if state.service == "AirPlay" {
      if state.mute == "0" {
        c := playerUrl + "/Volume?mute=1";
        icon2 := ":speaker.wave.1.fill:";
      } else if state.mute == "1" {
        c := playerUrl + "/Volume?mute=0";
        icon2 := ":speaker.slash.fill:";
      }
      cmd := CreateCommand(c);
    }
    assert (c, icon2) == StreamToggle(state, playerUrl);
    app.StatusLine(icon + " " + state.title2);
    app.StatusLine(icon + " " + state.title1);
    if state.service != "Spotify" {
      app.StatusLine(icon + " " + state.title3);
    }
    app.Add(NewLine(icon2 + " " + state.serviceName + ": " + state.title3).Length(maxLen).Command(cmd));
    app.Add(NewLine(state.streamFormat).Alternate());
  }

  // ---------------------------------------------------------------------------
  // The whole menu

  /** buildPlayerMenu: status display, separator, radio presets, separator, volume
      information, volume presets and mute toggle, the last two driven by the status that
      addVolumeInfo returned. */
  method BuildPlayerMenu(app: Plugin, playerUrl: string, maxLen: int, status: Loaded<StateXml>,
                         presets: Loaded<seq<Preset>>, volume: Loaded<VolumeStatus>, dbText: string)
    modifies app
    ensures app.bar == old(app.bar) + StatusDisplay(status, playerUrl, maxLen).bar
    ensures app.items == old(app.items)
      + StatusDisplay(status, playerUrl, maxLen).items + [NewLine("---")]
      + RadioPresetLines(presets, playerUrl) + [NewLine("---")]
      + VolumeInfoLines(volume, playerUrl, dbText)
      + VolumePresetLines(playerUrl, VolumeInfoStatus(volume))
      + MuteToggleLines(playerUrl, VolumeInfoStatus(volume))
  {
    CreateStatusDisplay(app, status, playerUrl, maxLen);
    app.Add(NewLine("---"));
    AddRadioPresets(app, presets, playerUrl);
    app.Add(NewLine("---"));
    var volStatus := AddVolumeInfo(app, volume, playerUrl, dbText);
    AddVolumePresets(app, playerUrl, volStatus);
    AddMuteToggle(app, playerUrl, volStatus);
  }

  /** A volume fetch that fails leaves out the presets and the mute toggle; XML that does
      not unmarshal still shows them, for the default status (level 50, unmuted), so the
      Medium preset is highlighted and the toggle offers Mute. */
  lemma VolumeFailureControls(playerUrl: string)
    ensures forall m :: VolumePresetLines(playerUrl, VolumeInfoStatus(FetchFailed(m))) == []
    ensures forall m :: MuteToggleLines(playerUrl, VolumeInfoStatus(FetchFailed(m))) == []
    ensures forall m :: var lines := VolumePresetLines(playerUrl, VolumeInfoStatus(ParseFailed(m)));
      |lines| == 4 && lines[2].color == Some("blue") && lines[0].color.None? && lines[1].color.None? && lines[3].color.None?
    ensures forall m :: MuteToggleLines(playerUrl, VolumeInfoStatus(ParseFailed(m)))[0].text == ":speaker.slash.fill: Mute"
  {
  }
}
