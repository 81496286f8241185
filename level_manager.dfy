/** The level list and progress of src/levels/LevelManager.ts: a bounded
    level index moved by index, next and previous, loading through the level
    loader with a built-in fallback level on failure, and the saved progress
    restored into range.

    The loader (`SVGLevelLoader.loadLevel` together with the fetch of the
    file) is the function `loader`, given when the manager is made; the
    progress store is what `SaveProgress` returns and `LoadProgress` is
    given. */
module LevelNavigation {
  import opened Wrappers
  import opened CoreTypes
  import opened LevelTypes
  import Text

  const LevelPaths: seq<string> := ["/levels/level1.svg", "/levels/level2.svg", "/levels/level3.svg"]

  /** The level used when loading fails. */
  const FallbackLevel: LevelData := LevelData(
    "Fallback Level", 1600.0, 800.0, Vector2(100.0, 500.0),
    [ Platform(0.0, 740.0, 1600.0, 60.0, None),
      Platform(200.0, 600.0, 150.0, 20.0, None),
      Platform(400.0, 500.0, 120.0, 20.0, None),
      Platform(600.0, 400.0, 100.0, 20.0, None),
      Platform(800.0, 350.0, 80.0, 20.0, None) ],
    [ CollectibleData(275.0, 580.0, Coin),
      CollectibleData(325.0, 580.0, Coin),
      CollectibleData(460.0, 470.0, Gem),
      CollectibleData(650.0, 360.0, Star),
      CollectibleData(840.0, 320.0, Coin) ],
    None, None,
    Some(BackgroundData(Some("#1a1a2e"), None, Some(true))))

  /** The fallback level is 1600×800 with the start at (100, 500), five
      platforms of which the first is the 60-high ground strip along the
      whole bottom, five collectibles, and no enemies or orbs. */
  lemma FallbackLevelShape()
    ensures FallbackLevel.width == 1600.0 && FallbackLevel.height == 800.0
    ensures FallbackLevel.playerStart == Vector2(100.0, 500.0)
    ensures |FallbackLevel.platforms| == 5 && |FallbackLevel.collectibles| == 5
    ensures var ground := FallbackLevel.platforms[0];
      ground.x == 0.0 && ground.width == FallbackLevel.width
      && ground.y + ground.height == FallbackLevel.height && ground.height == 60.0
    ensures forall p | p in FallbackLevel.platforms :: 0.0 <= p.x && p.x + p.width <= FallbackLevel.width
    ensures FallbackLevel.enemies.None? && FallbackLevel.orbs.None?
  {
  }

  /** What `saveProgress` writes under "platformer-progress". */
  datatype Progress = Progress(currentLevel: int, unlockedLevels: int)

  /** What `loadProgress` finds: nothing (or the empty text), text that is
      not JSON, or a parsed object whose `currentLevel` may be missing. */
  datatype Stored = NoEntry | Unparsable | Parsed(currentLevel: Option<int>)

  /** The store after `saveProgress` wrote `p`: reading it back parses to
      the same `currentLevel`. */
  function StoredAfterSave(p: Progress): Stored {
    Parsed(Some(p.currentLevel))
  }

  function Max(a: int, b: int): int { if a >= b then a else b }
  function Min(a: int, b: int): int { if a <= b then a else b }

  /** The index `loadProgress` leaves: unchanged without a readable entry,
      otherwise the saved index (0 when missing) clamped into [0, count - 1]. */
  function RestoredIndex(saved: Stored, index: int, count: nat): (r: int)
    ensures !saved.Parsed? ==> r == index
    ensures saved.Parsed? && count >= 1 ==> 0 <= r < count
    ensures saved.Parsed? && count >= 1 ==>
      var v := saved.currentLevel.GetOr(0);
      (0 <= v < count ==> r == v) && (v < 0 ==> r == 0) && (v >= count ==> r == count - 1)
  {
    if saved.Parsed? then Max(0, Min(saved.currentLevel.GetOr(0), count - 1)) else index
  }

  /** A saved index in range is restored exactly. */
  lemma SaveLoadRoundTrip(index: int, other: int, count: nat)
    requires 0 <= index < count
    ensures RestoredIndex(StoredAfterSave(Progress(index, index + 1)), other, count) == index
  {
  }

  function OutOfBoundsMessage(index: int): string {
    "Level index " + Text.IntToString(index) + " out of bounds"
  }

  class LevelManager {
    const loader: string -> Result<LevelData, string>
    const availableLevels: seq<string>
    var currentLevel: Option<LevelData>
    var levelIndex: int

    /** The index always names one of the levels. */
    ghost predicate Valid()
      reads this
    {
      availableLevels == LevelPaths && 0 <= levelIndex < |availableLevels|
    }

    /** Starts at the first of the three levels with nothing loaded. */
    constructor (loader: string -> Result<LevelData, string>)
      ensures Valid()
      ensures this.loader == loader && currentLevel.None? && levelIndex == 0
    {
      this.loader := loader;
      availableLevels := LevelPaths;
      currentLevel := None;
      levelIndex := 0;
    }

    /** `loadLevel`: a loaded level becomes the current one; a failure gives
        the fallback level and leaves the current level as it was. */
    method LoadLevel(levelPath: string) returns (level: LevelData)
      modifies this`currentLevel
      ensures loader(levelPath).Ok? ==> level == loader(levelPath).value && currentLevel == Some(level)
      ensures loader(levelPath).Err? ==> level == FallbackLevel && currentLevel == old(currentLevel)
    {
      var result := loader(levelPath);
      if result.Ok? {
        currentLevel := Some(result.value);
        level := result.value;
      } else {
        level := FallbackLevel;
      }
    }

    /** `loadLevelByIndex`: an index outside the list is rejected and nothing
        changes; otherwise it becomes the level index and that level is
        loaded. */
    method LoadLevelByIndex(index: int) returns (r: Result<LevelData, string>)
      requires Valid()
      modifies this`currentLevel, this`levelIndex
      ensures Valid()
      ensures r.Err? <==> !(0 <= index < |availableLevels|)
      ensures r.Err? ==>
        r.error == OutOfBoundsMessage(index) && levelIndex == old(levelIndex) && currentLevel == old(currentLevel)
      ensures r.Ok? ==>
        && levelIndex == index
        && (loader(availableLevels[index]).Ok? ==> r.value == loader(availableLevels[index]).value && currentLevel == Some(r.value))
        && (loader(availableLevels[index]).Err? ==> r.value == FallbackLevel && currentLevel == old(currentLevel))
    {
      if index < 0 || index >= |availableLevels| {
        return Err(OutOfBoundsMessage(index));
      }
      levelIndex := index;
      var level := LoadLevel(availableLevels[index]);
      r := Ok(level);
    }

    /** `loadNextLevel`: nothing past the last level; otherwise the index
        moves up by one and that level is loaded. */
    method LoadNextLevel() returns (r: Option<LevelData>)
      requires Valid()
      modifies this`currentLevel, this`levelIndex
      ensures Valid()
      ensures r.None? <==> old(levelIndex) == |availableLevels| - 1
      ensures r.None? ==> levelIndex == old(levelIndex) && currentLevel == old(currentLevel)
      ensures r.Some? ==>
        && levelIndex == old(levelIndex) + 1
        && (loader(availableLevels[levelIndex]).Ok? ==>
              r.value == loader(availableLevels[levelIndex]).value && currentLevel == Some(r.value))
        && (loader(availableLevels[levelIndex]).Err? ==>
              r.value == FallbackLevel && currentLevel == old(currentLevel))
    {
      if levelIndex + 1 >= |availableLevels| {
        return None;
      }
      levelIndex := levelIndex + 1;
      var result := LoadLevelByIndex(levelIndex);
      r := if result.Ok? then Some(result.value) else None;
    }

    /** `loadPreviousLevel`: nothing before the first level; otherwise the
        index moves down by one and that level is loaded. */
    method LoadPreviousLevel() returns (r: Option<LevelData>)
      requires Valid()
      modifies this`currentLevel, this`levelIndex
      ensures Valid()
      ensures r.None? <==> old(levelIndex) == 0
      ensures r.None? ==> levelIndex == old(levelIndex) && currentLevel == old(currentLevel)
      ensures r.Some? ==>
        && levelIndex == old(levelIndex) - 1
        && (loader(availableLevels[levelIndex]).Ok? ==>
              r.value == loader(availableLevels[levelIndex]).value && currentLevel == Some(r.value))
        && (loader(availableLevels[levelIndex]).Err? ==>
              r.value == FallbackLevel && currentLevel == old(currentLevel))
    {
      if levelIndex <= 0 {
        return None;
      }
      levelIndex := levelIndex - 1;
      var result := LoadLevelByIndex(levelIndex);
      r := if result.Ok? then Some(result.value) else None;
    }

    function GetCurrentLevel(): Option<LevelData>
      reads this
    {
      currentLevel
    }

    function GetCurrentLevelIndex(): int
      reads this
    {
      levelIndex
    }

    function GetTotalLevels(): (n: nat)
      reads this
      requires Valid()
      ensures n == 3 && GetCurrentLevelIndex() < n
    {
      |availableLevels|
    }

    /** `saveProgress`: the current index and one more level unlocked. */
    method SaveProgress() returns (p: Progress)
      ensures p.currentLevel == levelIndex && p.unlockedLevels == levelIndex + 1
    {
      p := Progress(levelIndex, levelIndex + 1);
    }

    /** `loadProgress`: a readable entry sets the index to the saved one
        clamped into the list; no entry or an unreadable one changes
        nothing. */
    method LoadProgress(saved: Stored)
      requires Valid()
      modifies this`levelIndex
      ensures Valid()
      ensures levelIndex == RestoredIndex(saved, old(levelIndex), |availableLevels|)
    {
      if saved.Parsed? {
        levelIndex := Max(0, Min(saved.currentLevel.GetOr(0), |availableLevels| - 1));
      }
    }
  }
}
