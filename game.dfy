/** The game shell of src/core/Game.ts: the fixed configuration, the input
    record written by the key handlers through the key map, and the frame
    loop's time step.

    The window's key events are the calls `KeyDown(code)` and
    `KeyUp(code)`; the clock reading of a frame is the parameter `now`. The
    scene the game starts is a `SceneManagement.Scene`. */
module GameShell {
  import opened Wrappers
  import opened CoreTypes
  import opened SceneManagement

  const DefaultConfig := GameConfig(1024.0, 768.0, 0x1A1A2E, 0.8, 60)

  /** The fields of the input record the key map can name. */
  datatype Action = Left | Right | Jump | Restart | Next | Debug

  /** The key map from event codes to input fields. */
  const KeyMap: map<string, Action> := map[
    "ArrowLeft" := Left, "KeyA" := Left,
    "ArrowRight" := Right, "KeyD" := Right,
    "Space" := Jump, "ArrowUp" := Jump, "KeyW" := Jump,
    "KeyR" := Restart, "KeyN" := Next, "KeyQ" := Debug]

  /** The action a code is mapped to, if any. */
  function ActionOf(code: string): Option<Action> {
    if code in KeyMap then Some(KeyMap[code]) else None
  }

  /** Which codes name which action: two per movement direction, three for
      jumping, one for each of restart, next and debug, and no others. */
  lemma KeysOfActions(code: string)
    ensures ActionOf(code) == Some(Left) <==> code == "ArrowLeft" || code == "KeyA"
    ensures ActionOf(code) == Some(Right) <==> code == "ArrowRight" || code == "KeyD"
    ensures ActionOf(code) == Some(Jump) <==> code == "Space" || code == "ArrowUp" || code == "KeyW"
    ensures ActionOf(code) == Some(Restart) <==> code == "KeyR"
    ensures ActionOf(code) == Some(Next) <==> code == "KeyN"
    ensures ActionOf(code) == Some(Debug) <==> code == "KeyQ"
    ensures ActionOf(code).None? <==> code !in KeyMap.Keys
  {
  }

  /** The field of the input record an action names. */
  function Holds(input: InputState, a: Action): bool {
    match a
    case Left => input.left
    case Right => input.right
    case Jump => input.jump
    case Restart => input.restart
    case Next => input.next
    case Debug => input.debug
  }

  /** `this.input[action] = value`: that field becomes `value`, every other
      field keeps its value. */
  function SetAction(input: InputState, a: Action, value: bool): (r: InputState)
    ensures Holds(r, a) == value
    ensures forall b: Action | b != a :: Holds(r, b) == Holds(input, b)
  {
    match a
    case Left => input.(left := value)
    case Right => input.(right := value)
    case Jump => input.(jump := value)
    case Restart => input.(restart := value)
    case Next => input.(next := value)
    case Debug => input.(debug := value)
  }

  /** A key event on the input record: a mapped code sets its action to
      whether the key went down; an unmapped code changes nothing. */
  function KeyEvent(input: InputState, code: string, down: bool): (r: InputState)
    ensures code !in KeyMap ==> r == input
    ensures code in KeyMap ==> Holds(r, KeyMap[code]) == down
    ensures forall b: Action | ActionOf(code) != Some(b) :: Holds(r, b) == Holds(input, b)
  {
    match ActionOf(code)
    case None => input
    case Some(a) => SetAction(input, a, down)
  }

  /** Releasing any key of an action clears the action, even while another
      key of the same action is still held down. */
  lemma {:induction false} ReleaseClears(input: InputState, held: string, released: string)
    requires held in KeyMap && released in KeyMap && KeyMap[held] == KeyMap[released]
    ensures !Holds(KeyEvent(KeyEvent(input, held, true), released, false), KeyMap[held])
  {
  }

  /** Pressing and releasing a key of an action that was not held gives the
      input back as it was. */
  lemma PressReleaseRestores(input: InputState, code: string)
    requires code in KeyMap ==> !Holds(input, KeyMap[code])
    ensures KeyEvent(KeyEvent(input, code, true), code, false) == input
  {
    match ActionOf(code)
    case None =>
    case Some(a) =>
      assert KeyMap[code] == a;
      SetClearRestores(input, a);
  }

  /** Setting a field that was clear and clearing it again restores the
      record. */
  lemma SetClearRestores(input: InputState, a: Action)
    requires !Holds(input, a)
    ensures SetAction(SetAction(input, a, true), a, false) == input
  {
    match a
    case Left =>
    case Right =>
    case Jump =>
    case Restart =>
    case Next =>
    case Debug =>
  }

  /** The frame loop's time step in units of a 60 Hz frame: 1 on the first
      frame (no earlier reading), otherwise the milliseconds since the last
      frame over 16.67. */
  function DeltaTime(lastTime: real, now: real): (dt: real)
    ensures lastTime == 0.0 ==> dt == 1.0
    ensures lastTime != 0.0 ==> dt * 16.67 == now - lastTime
  {
    if lastTime == 0.0 then 1.0 else (now - lastTime) / 16.67
  }

  /** Frames 16.67 ms apart step by exactly one unit, and a later reading
      gives a positive step. */
  lemma DeltaTimeUnits(lastTime: real, now: real)
    requires lastTime != 0.0
    ensures now == lastTime + 16.67 ==> DeltaTime(lastTime, now) == 1.0
    ensures now > lastTime ==> DeltaTime(lastTime, now) > 0.0
  {
  }

  class Game {
    const config: GameConfig
    var input: InputState
    var lastTime: real
    /** Made by `start`; none before. */
    var sceneManager: SceneManager?

    /** The 1024×768 configuration with gravity 0.8 and nothing held. */
    constructor ()
      ensures config == DefaultConfig && config.width == 1024.0 && config.height == 768.0 && config.gravity == 0.8
      ensures input == NoInput && forall a: Action :: !Holds(input, a)
      ensures lastTime == 0.0 && sceneManager == null
    {
      config := DefaultConfig;
      input := NoInput;
      lastTime := 0.0;
      sceneManager := null;
    }

    /** The keydown handler. */
    method KeyDown(code: string)
      modifies this`input
      ensures input == KeyEvent(old(input), code, true)
    {
      if code in KeyMap {
        var action := KeyMap[code];
        input := SetAction(input, action, true);
      }
    }

    /** The keyup handler. */
    method KeyUp(code: string)
      modifies this`input
      ensures input == KeyEvent(old(input), code, false)
    {
      if code in KeyMap {
        var action := KeyMap[code];
        input := SetAction(input, action, false);
      }
    }

    /** `start` without the renderer: a new scene manager, the state set to
        loading, the scene installed, then the state set to playing. */
    method Start(scene: Scene)
      modifies this`sceneManager, scene
      ensures sceneManager != null && fresh(sceneManager) && sceneManager.Valid()
      ensures sceneManager.currentScene == scene && sceneManager.gameState == Playing
      ensures scene.log == old(scene.log) + [Initialised]
    {
      sceneManager := new SceneManager();
      sceneManager.gameState := Loading;
      sceneManager.ChangeScene(scene);
      sceneManager.gameState := Playing;
    }

    /** `gameLoop`: the step from the last reading, the reading kept, and
        the scene manager's update with that step. */
    method GameLoop(now: real)
      requires sceneManager != null
      modifies this`lastTime, sceneManager.currentScene
      ensures lastTime == now
      ensures var m := sceneManager;
        Forwards(m.currentScene != null, m.gameState) ==>
          m.currentScene.log == old(m.currentScene.log) + [UpdatedBy(DeltaTime(old(lastTime), now))]
      ensures var m := sceneManager;
        !Forwards(m.currentScene != null, m.gameState) && m.currentScene != null ==>
          m.currentScene.log == old(m.currentScene.log)
    {
      var deltaTime := DeltaTime(lastTime, now);
      lastTime := now;
      sceneManager.Update(deltaTime);
    }

    method Pause()
      requires sceneManager != null
      modifies sceneManager`gameState
      ensures sceneManager.gameState == Paused
    {
      sceneManager.Pause();
    }

    method Resume()
      requires sceneManager != null
      modifies sceneManager`gameState
      ensures sceneManager.gameState == Playing
    {
      sceneManager.Resume();
    }
  }
}
