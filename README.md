# BluOS menu-bar plugin — a Dafny model

This project models the decision logic of a BluOS menu-bar plugin for SwiftBar/BitBar.
The plugin finds a BluOS player on the local network, or uses a configured URL. It fetches
the player's `/Status`, `/Presets` and `/Volume` XML documents. From them it builds a
status-bar title and a dropdown menu of `curl` commands.

Every network answer is an input to the model:

- The mDNS reply stream is a sequence of optional replies with a cut-off index. The
  cut-off is how many replies arrived before the deadline.
- An HTTP probe is a `Probe`: a connection error or a status code.
- A `getXML` attempt is an `Attempt`: a probe plus the outcome of reading the body.
- A fetched and unmarshalled document is a `Loaded<T>`: fetch failed, XML did not
  unmarshal, or the record.

The menu builder (go-bitbar's plugin and submenu) is the class `Bitbar.Plugin`. Its
methods append status lines and dropdown lines.

Modules:

- `Helpers` (helpers.go): device discovery and de-duplication, selection of the first
  working device, the fallback URL, the liveness check, the three-attempt `getXML`, and
  curl commands.
- `Menu` (menu.go): the status display per player state, radio presets, volume
  information with its symbol and colour bands, the volume presets with their ±5
  highlight, and the mute toggle.
- `LegacyMain` (main.go): the older single-file revision. It covers `SetVolume`,
  `ToggleMute`, its own `createVolumeCommand` and `getXML`, and the menu that `main`
  builds.
- `Revisions`: where the two revisions agree.
- Support modules:
  - `Text`: `strconv.Itoa` and its inverse.
  - `Http`: probe outcomes and getXML errors.
  - `Structs`: the XML fields the plugin reads.
  - `Bitbar`: commands, lines and the plugin.
  - `Wrappers`: `Option` and `Result`.

## Model

| member | source | states |
|---|---|---|
| Helpers.CreateCommand | helpers.go:145-152 | the command is `curl -sf <url>`, with no terminal and a refresh afterwards |
| Helpers.CreateVolumeCommand | helpers.go:52-73 | the loop sets exactly the given parameters on the query of `<player>/Volume`; a base URL that does not parse falls back to the plain command on it |
| Helpers.ReplyUrls | helpers.go:204-208 | each reply gives its `http://<ipv4>:<port>` URL, in stream order; a nil reply or one without IPv4 gives none |
| Helpers.Collect | helpers.go:209-214 | a reply's URL is appended only when the list does not hold it yet: the list is never longer than the replies, and every device in it is the URL of some reply |
| Helpers.DiscoverDevices | helpers.go:156-222 | the loop returns, with no error, the de-duplicated URLs of exactly the replies before the cut-off, whether the stream closed or the deadline fired |
| Helpers.FirstSeen | helpers.go:209-213 | the index of the first reply carrying a URL, with nothing carrying it before |
| Helpers.CollectNoDuplicates | helpers.go:209-214 | the discovered list never holds the same URL twice |
| Helpers.CollectMembers | helpers.go:204-213 | a URL is discovered if and only if some reply before the cut-off carries it |
| Helpers.CollectFirstSeenOrder | helpers.go:206-213 | devices appear in the order their URL was first seen |
| Helpers.CollectPrefix | helpers.go:197-219 | what an earlier deadline collects is a prefix of what a later one collects |
| Helpers.CollectIgnoresInvalid | helpers.go:204 | removing nil replies and replies without IPv4, wherever they occur, does not change the result |
| Helpers.FirstWorking | helpers.go:239-255 | the position of the first candidate whose `/Status` answers 200; none before it works |
| Helpers.SelectWorkingDevice | helpers.go:232-260 | an empty list fails with no devices found; otherwise the first working candidate wins and nothing after it is probed; if none works, the error reports the number tested, which is the list length |
| Helpers.FindValidDevice | helpers.go:226-261 | discovery and then selection, with the same three outcomes over the discovered list |
| Helpers.GetPlayerUrl | helpers.go:264-280 | a working discovered device wins; otherwise a non-empty fallback is returned unverified; otherwise there is an error; only discovered devices are probed |
| Helpers.IsDeviceReachable | helpers.go:284-311 | probes `/Status`, `/Volume` and `/` in order and stops at the first HTTP response of any status; false if and only if all three fail to connect |
| Helpers.GetXml | helpers.go:84-138 | at most 3 attempts; the result is the first attempt that gets 200 and reads its body; every earlier attempt failed; after 3 failures it returns the last attempt's error |
| Menu.VolumeSymbol | menu.go:222-239 | the slash when muted; unmuted: ≤0 slash, 1..32 wave.1, 33..65 wave.2, 66..99 wave.3, ≥100 megaphone |
| Menu.VolumeSymbolMonotone | menu.go:227-238 | unmuted, a louder level never gets a quieter-looking symbol |
| Menu.VolumeColour | menu.go:286-295 | red if and only if level > 85, orange iff 61..85, blue iff 31..60, green iff ≤ 30 |
| Menu.VolumeInfoStatus | menu.go:241-313 | no status when the fetch failed; the default (-30 dB, unmuted, level 50, etag "unknown") when the XML did not unmarshal; the parsed status otherwise |
| Menu.VolumeInfoColours | menu.go:280-301 | both volume lines are red when muted and take the level's colour band otherwise; muted shows no fine controls |
| Menu.AddVolumeInfo | menu.go:241-313 | appends the volume lines and returns the status the later sections use |
| Menu.FineVolumeCommandAsWrittenDoublesPath | menu.go:304-309 | as written, the fine-control commands go to `<player>/Volume/Volume` |
| Menu.FineVolumeCommandTargetsVolume | menu.go:304-309 | the corrected fine-control command goes to `<player>/Volume?db=…` |
| Menu.VolumePresetHighlight | menu.go:323-344 | presets come in the order 100, 80, 50, 20, each setting its level; highlighted if and only if the level is within ±5; at most one is highlighted |
| Menu.AddVolumePresets | menu.go:316-345 | the loop appends the preset lines; with no status it appends nothing |
| Menu.MuteToggleRequestsOpposite | menu.go:353-359 | one toggle line, asking for mute=0 if and only if Mute==1 and for mute=1 otherwise |
| Menu.AddMuteToggle | menu.go:348-360 | appends the toggle; with no status it appends nothing |
| Menu.RadioPresetLinesShape | menu.go:206-216 | one line per preset in input order, running `<player>/Preset?id=<ID>`; "No presets found" if and only if the list is empty |
| Menu.AddRadioPresets | menu.go:189-217 | the loop appends the preset lines, or one red line for a fetch or parse error |
| Menu.StateDisplayRules | menu.go:85-185 | stop runs /Play and has a submenu line only for a non-empty service; a Spotify stream has 2 status lines and other streams 3; AirPlay with mute 0 asks for mute=1 and with mute 1 for mute=0; an unknown state gets the question-mark icon; the status bar is never empty |
| Menu.CreateStatusDisplay | menu.go:46-186 | appends the status lines and submenu lines of the state display, the fetch error, or the three parse-error lines |
| Menu.AddStateDisplay | menu.go:81-185 | appends exactly the status lines and submenu lines of the state display, whose per-state rules Menu.StateDisplayRules states |
| Menu.AddStreamDisplay | menu.go:109-151 | for a stream, appends exactly the stream's display: 2 status lines for Spotify and 3 otherwise, then the toggle line and the format line |
| Menu.BuildPlayerMenu | menu.go:13-43 | status display, separator, radio presets, separator, volume info, volume presets and mute toggle, the last two driven by the status from the volume info |
| Menu.VolumeFailureControls | menu.go:244-271 | a failed volume fetch hides the presets and the toggle; unparsable volume XML shows them for level 50, so Medium is highlighted and the toggle offers Mute |
| LegacyMain.ConfiguredMax | main.go:129-132 | the length limit is the number MAX reads as (an optional sign and decimal digits), and stays 40 when MAX does not read as one |
| LegacyMain.ConfiguredMaxRoundTrip | main.go:129-132 | MAX configured as the decimal text of n gives a limit of n |
| LegacyMain.GetXml | main.go:428-445 | one attempt: success if and only if status 200 and the body reads; otherwise the GET, status or read error |
| LegacyMain.CreateVolumeCommand | main.go:92-108 | the command is `curl -sf <player>/Volume?<params>`, with no terminal and a refresh afterwards |
| LegacyMain.Send | main.go:28-53 | one request is sent; the player's status is returned unchanged on success, and the player's error is returned on failure |
| LegacyMain.VolumeUp | main.go:55-61 | one request with db=2.0; it returns the player's status, or the player's error |
| LegacyMain.VolumeDown | main.go:63-69 | one request with db=-2.0; it returns the player's status, or the player's error |
| LegacyMain.SetVolume | main.go:110-120 | a level below 0 or above 100 is refused with nothing sent; otherwise one request carries the single parameter `level`, whose text reads back as the level, and the player's status or error for that request is returned |
| LegacyMain.ToggleMute | main.go:71-89 | reads the status first; if that fails it returns the error and sends nothing more; otherwise it sends mute=0 if and only if Mute==1, and mute=1 otherwise, and returns the player's status or error for that second request |
| LegacyMain.PlayStateIcon | main.go:158-174 | in play, the status lines are the name, album and artist, each after the icon, which is `:shuffle:` when Shuffle=="1" and `:music.note.list:` otherwise |
| LegacyMain.StopStateRule | main.go:227-237 | in stop, the command targets /Play, and the submenu line appears if and only if Service is non-empty |
| LegacyMain.UnknownStateShowsNothing | main.go:144-239 | any other state, and a status whose XML did not unmarshal, shows nothing |
| LegacyMain.AddStatusSection | main.go:141-239 | appends the state display, or the fetch error in red |
| LegacyMain.AddStreamLines | main.go:175-219 | for a stream, appends exactly the stream's display: 2 status lines for Spotify and 3 otherwise, then the toggle line and the format line |
| LegacyMain.PresetLinesShape | main.go:246-256 | one line per preset in input order, running `<player>/Preset?id=<ID>` |
| LegacyMain.AddPresets | main.go:240-257 | the loop appends the preset lines, or the fetch error in red |
| LegacyMain.VolumeControlRules | main.go:283-315 | volume up and down by the default step, then Unmute (mute=0) if and only if Mute==1, else Mute (mute=1), then the presets 20, 50, 80, 100 in order |
| LegacyMain.AddVolumeSection | main.go:259-334 | appends the heading, then the error line or the controls |
| LegacyMain.AddVolumeControls | main.go:271-332 | appends the level, dB, step, toggle, preset and fine-step lines |
| LegacyMain.AddLevelLines | main.go:272-281 | appends exactly the level lines: the level line, muted or not, then a dB line if and only if the dB value is non-zero |
| LegacyMain.AddStepAndToggle | main.go:284-301 | appends exactly four lines: Volume Up and Volume Down by the default step, the toggle, which is Unmute if and only if Mute==1, and the presets heading |
| LegacyMain.AddLevelPresets | main.go:312-315 | the loop appends one line per level preset |
| LegacyMain.AddFineSteps | main.go:329-332 | the loop appends one line per fine dB step |
| LegacyMain.AudioInfoRules | main.go:336-350 | the section appears if and only if the status parsed and is not stop; the Quality and Format lines appear if and only if those fields are non-empty |
| LegacyMain.AddAudioInfo | main.go:336-350 | appends the audio-information lines |
| LegacyMain.BuildMenu | main.go:129-354 | a fresh plugin holding the status, presets, volume and audio sections in that order, for the configured player URL and MAX |
| Text.IntToStringRoundTrip | main.go:117 | reading back the decimal text `strconv.Itoa` writes gives the number again |
| Revisions.SameAttemptOutcome | helpers.go:98-133 | one attempt of the newer retry loop ends as the older single-attempt getXML does (main.go:428-445) |
| Revisions.SameVolumeCommand | helpers.go:52-73 | both createVolumeCommand functions build the same command (main.go:92-108) |
| Revisions.SameMuteToggleCommand | menu.go:353-359 | both mute toggles run the same command for the same status (main.go:291-298) |

## Left out

- The mDNS query, the goroutine and the channel, `context.WithTimeout` and the sleeps
  (helpers.go:168-192). The reply stream is an input, and the deadline is the cut-off index.
- Time is not modelled. This covers:
  - the 500 ms delay between getXML retries;
  - the 10 s getXML client timeout;
  - the 3 s timeout of the device probes;
  - the 15 s timeout of the reachability check;
  - the 5 s discovery timeout of getBluOSPlayerURL.
- XML unmarshalling. Documents arrive as `Loaded` values. In main.go the status unmarshal
  (main.go:146) and the presets unmarshal (main.go:245) ignore their error; the model then
  uses the empty record or the empty preset list. The volume unmarshal (main.go:267) and the
  audio-information unmarshal (main.go:339) check their error, and the model follows them.
  A document decoded partway before its error is not modelled.
- The text of a fetch error is an input (`FetchFailed(message)`); the model does not
  rebuild the `fmt.Errorf` texts of getXML and sendVolumeCommand.
- The exact query encoding of `url.Values.Encode` and `URL.String`. A query is kept as a
  map. The only `url.Parse` failure modelled is an ASCII control character.
- The `%.1f` rendering of dB values and the float conversions `vol2db` and `Db2vol`. The
  rendered dB text is an input (`dbText`). The constant steps appear as their rendered
  text ("2.0", "1.0", "-0.5", …).
- `LegacyMain.CreateVolumeCommand` and `LegacyMain.VolumeCommand` require that
  `<player>/Volume` parses as a URL. main.go:94 discards url.Parse's error and would then
  call `Query()` on a nil URL. The requirement holds at every call in main, which reaches
  createVolumeCommand only after a GET of the same `<player>/Volume` URL succeeded
  (main.go:263).
- `LegacyMain.ConfiguredMax`: the 64-bit range check of `strconv.Atoi` is not modelled.
- The `DropDown(false)` and `Length(MAX)` settings of status-bar lines. A status line
  keeps only its text.
- go-bitbar rendering, godotenv loading, `log.Fatalln` in `init`, all logging and the
  XML debug previews.
- The commented-out mpv code (main.go:356-419).
- Discovery never fails, so findValidBluOSDevice's "device discovery failed" branch
  (helpers.go:228-230) is dead code. It is not modelled.
- sendVolumeCommand (helpers.go:19-47 and main.go:28-53):
  - Its request building and parsing are abstracted as the `send` input of the volume
    operations.
  - The newer copy has no caller in the menu code.
- `Menu.AddVolumeInfo` takes the player URL, from which menu.go forms the volume URL.
  It uses the corrected fine-control command (see Findings).
- A discovery timeout of zero or less is not rejected: the code does not check it.
- In Go, a menu line is coloured through a pointer after it was appended; the model sets
  the colour before appending. The resulting menu is the same.

## Findings

| source | as written | input that shows it | evidently intended | confidence | as-written member | corrected member |
|---|---|---|---|---|---|---|
| menu.go:304-309 | addVolumeInfo passes `volumeUrl`, which already ends in `/Volume`, to `createVolumeCommand`, which appends `/Volume` again | player `http://10.0.0.5:11000`: the Volume Up (1dB) line runs `curl -sf http://10.0.0.5:11000/Volume/Volume?db=1.0` | `http://10.0.0.5:11000/Volume?db=1.0`, the endpoint every other volume command uses | high; not executed | Menu.FineVolumeCommandAsWrittenDoublesPath | Menu.FineVolumeCommandTargetsVolume |
