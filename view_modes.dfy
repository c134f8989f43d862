/**
 * The enum `ViewModeState` (ViewModeState.kt): the two views of the music
 * application, each carrying a `state` string.
 */
module ViewModes {
  import opened Options

  datatype ViewModeState = VIEW_MODE_FOLDER | VIEW_MODE_PLAYBACK

  /** The enum's `entries`, in declaration order. */
  function Entries(): (r: seq<ViewModeState>)
    ensures |r| == 2
    ensures r[0] == VIEW_MODE_FOLDER && r[1] == VIEW_MODE_PLAYBACK
    ensures VIEW_MODE_FOLDER in r && VIEW_MODE_PLAYBACK in r
    ensures r[0] != r[1]
  {
    [VIEW_MODE_FOLDER, VIEW_MODE_PLAYBACK]
  }

  /** The `state` property: each variant's string is its own name. */
  function State(v: ViewModeState): (r: string)
    ensures FromState(r) == Some(v)
  {
    match v
    case VIEW_MODE_FOLDER => "VIEW_MODE_FOLDER"
    case VIEW_MODE_PLAYBACK => "VIEW_MODE_PLAYBACK"
  }

  /** The variant whose `state` string is `s`, if any. */
  function FromState(s: string): Option<ViewModeState>
  {
    if s == "VIEW_MODE_FOLDER" then Some(VIEW_MODE_FOLDER)
    else if s == "VIEW_MODE_PLAYBACK" then Some(VIEW_MODE_PLAYBACK)
    else None
  }

  /** `state` is injective, and a string is a `state` exactly when it decodes. */
  lemma StateInjective(v: ViewModeState, w: ViewModeState, s: string)
    ensures State(v) == State(w) ==> v == w
    ensures FromState(s) == Some(v) <==> s == State(v)
  {
    assert FromState(State(v)) == Some(v);
    assert FromState(State(w)) == Some(w);
  }
}
