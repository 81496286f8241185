/** The level description produced by the loader (src/levels/types.ts).
    Fields that TypeScript marks optional (`?`) are `Option`s. */
module LevelTypes {
  import opened Wrappers
  import opened CoreTypes

  datatype PlatformKind = Normal | Moving | Breakable | Ice

  datatype Platform = Platform(x: real, y: real, width: real, height: real, kind: Option<PlatformKind>)

  datatype CollectibleKind = Coin | Gem | Star

  datatype CollectibleData = CollectibleData(x: real, y: real, kind: CollectibleKind)

  datatype LevelOrbData = LevelOrbData(x: real, y: real, targetLevel: real)

  datatype EnemyKind = Goomba | Spike | Flying

  datatype EnemyData = EnemyData(x: real, y: real, kind: EnemyKind, patrolDistance: Option<real>)

  datatype BackgroundData = BackgroundData(color: Option<string>, gradient: Option<seq<string>>, stars: Option<bool>)

  datatype LevelData = LevelData(
    name: string,
    width: real,
    height: real,
    playerStart: Vector2,
    platforms: seq<Platform>,
    collectibles: seq<CollectibleData>,
    orbs: Option<seq<LevelOrbData>>,
    enemies: Option<seq<EnemyData>>,
    background: Option<BackgroundData>)
}
