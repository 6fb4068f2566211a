/** The single cue-state record that every copy of the server keeps and
    publishes (`currentState` in the JavaScript copies, `CueState` in the
    Rust copy; the field names follow the JSON the displays receive). */
module Cue {
  import opened Wrappers

  datatype CueState = CueState(
    sequenceName: string,
    cueNumber: string,
    cueName: string,
    progress: real,
    isActive: bool,
    lastUpdate: Option<string>,
    connected: bool)

  /** The sentinel cue number meaning "unknown". */
  const Unknown: string := "--"

  /** The record at process start: unknown cue number, empty labels, no
      progress, neither active nor connected, never updated. */
  const Initial: CueState := CueState("", Unknown, "", 0.0, false, None, false)
}
