/** The scene switcher of src/core/SceneManager.ts: at most one current
    scene, whose container is the stage's only child, updated only while the
    game is playing.

    The abstract `Scene` of src/scenes/Scene.ts has no logic of its own; it
    is modelled by a stand-in that records the calls it receives, so that
    what the manager does to a scene can be stated. */
module SceneManagement {
  import opened CoreTypes

  datatype SceneEvent = Initialised | UpdatedBy(deltaTime: real) | Destroyed

  /** A scene: the calls made on it so far, in order. */
  class Scene {
    var log: seq<SceneEvent>

    constructor ()
      ensures log == []
    {
      log := [];
    }

    method Init()
      modifies this`log
      ensures log == old(log) + [Initialised]
    {
      log := log + [Initialised];
    }

    method Update(deltaTime: real)
      modifies this`log
      ensures log == old(log) + [UpdatedBy(deltaTime)]
    {
      log := log + [UpdatedBy(deltaTime)];
    }

    method Destroy()
      modifies this`log
      ensures log == old(log) + [Destroyed]
    {
      log := log + [Destroyed];
    }
  }

  /** `Container.removeChild`: the first occurrence of `x` leaves the list;
      a list without `x` is unchanged. */
  function RemoveChild(s: seq<Scene>, x: Scene): (r: seq<Scene>)
    ensures x !in s ==> r == s
    ensures x in s ==> |r| == |s| - 1 && multiset(r) == multiset(s) - multiset{x}
    decreases |s|
  {
    if s == [] then []
    else
      assert s == [s[0]] + s[1..];
      if s[0] == x then s[1..] else [s[0]] + RemoveChild(s[1..], x)
  }

  /** Removing a child and adding it again at the end gives back the same
      children, in any order. */
  lemma RemoveThenAdd(s: seq<Scene>, x: Scene)
    requires x in s
    ensures multiset(RemoveChild(s, x) + [x]) == multiset(s)
  {
    assert x in multiset(s);
  }

  /** `update` reaches the scene only when there is one and the game is
      playing. */
  predicate Forwards(hasScene: bool, state: GameState) {
    hasScene && state == Playing
  }

  /** Paused, loading, menu and game-over states hold every update back. */
  lemma OnlyPlayingForwards(hasScene: bool, state: GameState)
    ensures Forwards(hasScene, state) <==> hasScene && state.Playing?
    ensures state != Playing ==> !Forwards(hasScene, state)
  {
  }

  class SceneManager {
    var currentScene: Scene?
    /** The stage's children. */
    var stage: seq<Scene>
    var gameState: GameState

    /** The stage shows exactly the current scene. */
    ghost predicate Valid()
      reads this
    {
      if currentScene == null then stage == [] else stage == [currentScene]
    }

    /** No scene yet, and the game is loading. */
    constructor ()
      ensures Valid() && currentScene == null && stage == [] && gameState == Loading
    {
      currentScene := null;
      stage := [];
      gameState := Loading;
    }

    /** `changeScene`: the previous scene leaves the stage and is destroyed,
        then the new scene becomes current, joins the stage and is
        initialised. The game state is left as it was. */
    method ChangeScene(scene: Scene)
      requires Valid()
      modifies this`currentScene, this`stage, currentScene, scene
      ensures Valid() && currentScene == scene && stage == [scene]
      ensures old(currentScene) == null ==> scene.log == old(scene.log) + [Initialised]
      ensures old(currentScene) != null && old(currentScene) != scene ==>
        && old(currentScene).log == old(currentScene.log) + [Destroyed]
        && scene.log == old(scene.log) + [Initialised]
      ensures old(currentScene) == scene ==> scene.log == old(scene.log) + [Destroyed, Initialised]
    {
      if currentScene != null {
        stage := RemoveChild(stage, currentScene);
        currentScene.Destroy();
      }
      currentScene := scene;
      stage := stage + [scene];
      scene.Init();
    }

    /** `update`: the delta reaches the current scene only while playing. */
    method Update(deltaTime: real)
      modifies currentScene
      ensures Forwards(currentScene != null, gameState) ==>
        currentScene.log == old(currentScene.log) + [UpdatedBy(deltaTime)]
      ensures !Forwards(currentScene != null, gameState) && currentScene != null ==>
        currentScene.log == old(currentScene.log)
    {
      if currentScene != null && gameState == Playing {
        currentScene.Update(deltaTime);
      }
    }

    method Pause()
      modifies this`gameState
      ensures gameState == Paused
    {
      gameState := Paused;
    }

    /** `resume`: playing again, whatever the state was. */
    method Resume()
      modifies this`gameState
      ensures gameState == Playing
    {
      gameState := Playing;
    }

    function GetCurrentScene(): (s: Scene?)
      reads this
      requires Valid()
      ensures s == null <==> stage == []
      ensures s != null ==> stage == [s]
    {
      currentScene
    }
  }
}
