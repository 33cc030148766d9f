/** The fields of the player's XML documents that the plugin reads (structs.go), and the
    labelled volume levels both revisions offer as presets. */
module Structs {

  /** The /Status document: only the fields the menu code looks at. */
  datatype StateXml = StateXml(
    state: string,
    service: string,
    serviceName: string,
    shuffle: string,
    mute: string,
    name: string,
    album: string,
    artist: string,
    title1: string,
    title2: string,
    title3: string,
    quality: string,
    streamFormat: string)

  /** The /Volume document: dB level, mute flag (1 when muted), level 0..100 and entity tag. */
  datatype VolumeStatus = VolumeStatus(db: real, mute: int, level: int, etag: string)

  /** The player states that both revisions' menus know how to show. */
  predicate KnownState(state: string) {
    state in {"connecting", "play", "stream", "pause", "stop"}
  }

  /** One entry of the /Presets document. */
  datatype Preset = Preset(id: string, name: string)

  /** A volume preset of the menu: its caption and the level it sets. */
  datatype VolumePreset = VolumePreset(caption: string, level: int)
}
