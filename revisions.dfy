/** Where the two revisions of the plugin agree: a single getXML attempt is judged the
    same way, the /Volume command is the same, and both mute toggles ask for the same
    change of state. */
module Revisions {
  import opened Wrappers
  import opened Http
  import opened Structs
  import opened Bitbar
  import Helpers
  import Menu
  import LegacyMain

  /** One attempt of the newer getXML's retry loop ends as the older getXML does. */
  lemma SameAttemptOutcome(a: Attempt)
    ensures Helpers.AttemptResult(a) == LegacyMain.GetXml(a)
  {
  }

  /** Both createVolumeCommand functions build the same command for a base URL that parses. */
  lemma SameVolumeCommand(playerUrl: string, params: map<string, string>)
    requires ParsesAsUrl(playerUrl + "/Volume")
    ensures Helpers.VolumeCommand(playerUrl, params) == LegacyMain.VolumeCommand(playerUrl, params)
  {
  }

  /** Both revisions' mute toggles run the same command for the same volume status. */
  lemma SameMuteToggleCommand(playerUrl: string, status: VolumeStatus)
    requires ParsesAsUrl(playerUrl + "/Volume")
    ensures Menu.MuteToggleLines(playerUrl, Some(status))[0].cmd == LegacyMain.MuteToggleLine(status, playerUrl).cmd
  {
  }
}
