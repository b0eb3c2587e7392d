/**
 * Scenes and their states, reduced to the fields the session decodes for
 * them and the selector a scene is addressed by.
 */
module Scenes {
  import opened Wrappers
  import opened Selectors
  import opened Colors

  /** One partial configuration: what to apply to the lights its selector picks. */
  datatype State = State(selector: Selector, brightness: Option<real>, color: Option<Color>, power: Option<bool>)

  datatype Scene = Scene(uuid: string, name: string, states: seq<State>)

  /** A scene is addressed as `scene_id:<uuid>`. */
  function SceneSelector(s: Scene): (r: Selector)
    ensures r.kind == SceneID && r.value == s.uuid
  {
    Selector(SceneID, s.uuid)
  }
}
