/** Turns a parsed SVG level document into a level description
    (src/levels/SVGLevelLoader.ts). A document is the list of its elements in
    document order, the root element included; fetching the file and the XML
    parser are not part of this model. The role of an element is read from
    its `class` attribute by substring matching, as the selectors
    `[class*="..."]` do. */
module SVGLevelLoader {
  import opened Wrappers
  import opened CoreTypes
  import opened LevelTypes
  import opened Text

  datatype Element = Element(tagName: string, attributes: map<string, string>)

  type Document = seq<Element>

  // ---------------------------------------------------------------------------
  // Attributes

  /** `element.getAttribute(name) || fallback`: an absent and an empty
      attribute both give the fallback text. */
  function AttributeOr(e: Element, name: string, fallback: string): string {
    if name in e.attributes && e.attributes[name] != "" then e.attributes[name] else fallback
  }

  predicate Absent(e: Element, name: string) {
    name !in e.attributes || e.attributes[name] == ""
  }

  /** `Number.parseFloat(element.getAttribute(name) || fallback)`. */
  function NumberAttribute(e: Element, name: string, fallback: string): real {
    ParseFloat(AttributeOr(e, name, fallback))
  }

  /** The fallback texts used by the loader read as the numbers they spell. */
  lemma AbsentAttributeDefaults(e: Element, name: string)
    requires Absent(e, name)
    ensures NumberAttribute(e, name, "0") == 0.0
    ensures NumberAttribute(e, name, "2") == 2.0
    ensures NumberAttribute(e, name, "100") == 100.0
    ensures NumberAttribute(e, name, "768") == 768.0
    ensures NumberAttribute(e, name, "1024") == 1024.0
  {
    ReadsZero();
    ReadsTwo();
    ReadsHundred();
    ReadsWidth();
    ReadsHeight();
  }

  lemma ReadsZero() ensures ParseFloat("0") == 0.0 {
    ReadDigits("0");
    assert "0"[..0] == "";
  }

  lemma ReadsTwo() ensures ParseFloat("2") == 2.0 {
    ReadDigits("2");
    assert "2"[..0] == "";
  }

  lemma ReadsHundred() ensures ParseFloat("100") == 100.0 {
    ReadDigits("100");
    assert "100"[..2] == "10" && "10"[..1] == "1" && "1"[..0] == "";
  }

  lemma ReadsWidth() ensures ParseFloat("1024") == 1024.0 {
    ReadDigits("1024");
    assert "1024"[..3] == "102" && "102"[..2] == "10" && "10"[..1] == "1" && "1"[..0] == "";
  }

  lemma ReadsHeight() ensures ParseFloat("768") == 768.0 {
    ReadDigits("768");
    assert "768"[..2] == "76" && "76"[..1] == "7" && "7"[..0] == "";
  }

  /** An attribute holding the decimal text of a number reads as that number,
      whatever the fallback. */
  lemma PresentAttributeReads(e: Element, name: string, fallback: string, n: nat)
    requires name in e.attributes && e.attributes[name] == NatToString(n)
    ensures NumberAttribute(e, name, fallback) == n as real
  {
    ReadNatString(n);
  }

  function ClassName(e: Element): string {
    AttributeOr(e, "class", "")
  }

  /** The `[class*="word"]` test. A `.word` class selector only matches
      elements that this test matches too, so the loader's selector lists
      such as `.platform, [class*="platform"]` select exactly these. */
  predicate HasClass(e: Element, word: string) {
    Contains(ClassName(e), word)
  }

  /** `element.tagName.toLowerCase()`. */
  function TagName(e: Element): string {
    ToLower(e.tagName)
  }

  // ---------------------------------------------------------------------------
  // Selecting elements

  /** `querySelectorAll`: the elements whose class matches, in document order. */
  function SelectAll(doc: Document, word: string): (r: Document)
    ensures |r| <= |doc|
    ensures forall e :: e in r <==> e in doc && HasClass(e, word)
    decreases |doc|
  {
    if doc == [] then []
    else (if HasClass(doc[0], word) then [doc[0]] else []) + SelectAll(doc[1..], word)
  }

  /** Selection keeps document order: selecting from a concatenation selects
      from each part in turn. */
  lemma {:induction false} SelectAllAppend(a: Document, b: Document, word: string)
    ensures SelectAll(a + b, word) == SelectAll(a, word) + SelectAll(b, word)
    decreases |a|
  {
    if a == [] {
      assert a + b == b;
    } else {
      assert (a + b)[0] == a[0];
      assert (a + b)[1..] == a[1..] + b;
      SelectAllAppend(a[1..], b, word);
    }
  }

  /** `querySelector`: the first element whose class matches. */
  function Select(doc: Document, word: string): (r: Option<Element>)
    ensures r == if SelectAll(doc, word) == [] then None else Some(SelectAll(doc, word)[0])
    decreases |doc|
  {
    if doc == [] then None
    else if HasClass(doc[0], word) then Some(doc[0])
    else Select(doc[1..], word)
  }

  /** `querySelector('svg')`: the first element named `svg`. */
  function FindSvgRoot(doc: Document): (r: Option<Element>)
    ensures r.None? <==> forall e | e in doc :: e.tagName != "svg"
    ensures r.Some? ==> r.value in doc && r.value.tagName == "svg"
    decreases |doc|
  {
    if doc == [] then None
    else if doc[0].tagName == "svg" then Some(doc[0])
    else FindSvgRoot(doc[1..])
  }

  /** The `forEach` + `push` pattern of the extract methods: convert each
      element and keep the results that are not null, in order. */
  function FilterMap<T>(es: seq<Element>, f: Element -> Option<T>): seq<T>
    decreases |es|
  {
    if es == [] then []
    else FilterMap(es[..|es| - 1], f) + (match f(es[|es| - 1]) case Some(v) => [v] case None => [])
  }

  lemma FilterMapStep<T>(es: seq<Element>, i: nat, f: Element -> Option<T>)
    requires i < |es|
    ensures FilterMap(es[..i + 1], f) ==
      FilterMap(es[..i], f) + (match f(es[i]) case Some(v) => [v] case None => [])
  {
    assert es[..i + 1][..i] == es[..i];
  }

  lemma {:induction false} FilterMapAppend<T>(a: seq<Element>, b: seq<Element>, f: Element -> Option<T>)
    ensures FilterMap(a + b, f) == FilterMap(a, f) + FilterMap(b, f)
    decreases |b|
  {
    if b == [] {
      assert a + b == a;
    } else {
      assert (a + b)[..|a + b| - 1] == a + b[..|b| - 1];
      assert (a + b)[|a + b| - 1] == b[|b| - 1];
      FilterMapAppend(a, b[..|b| - 1], f);
    }
  }

  /** When no conversion fails, every element gives exactly one entry. */
  lemma {:induction false} FilterMapTotal<T>(es: seq<Element>, f: Element -> Option<T>)
    requires forall e | e in es :: f(e).Some?
    ensures |FilterMap(es, f)| == |es|
    ensures forall k | 0 <= k < |es| :: FilterMap(es, f)[k] == f(es[k]).value
    decreases |es|
  {
    if es != [] {
      var init := es[..|es| - 1];
      assert forall e | e in init :: e in es;
      FilterMapTotal(init, f);
    }
  }

  // ---------------------------------------------------------------------------
  // Kinds by precedence

  /** `k` is the kind of the first entry of `table` whose word occurs in the
      class text `c`, or `fallback` when none does. */
  ghost predicate IsFirstMatch<K>(c: string, table: seq<(string, K)>, fallback: K, k: K) {
    exists j: nat :: FirstMatchAt(c, table, fallback, k, j)
  }

  /** Entry `j` is the first whose word occurs in `c` and gives `k`; `j` is
      the table's length when no word occurs and `k` is the fallback. */
  ghost predicate FirstMatchAt<K>(c: string, table: seq<(string, K)>, fallback: K, k: K, j: nat) {
    && j <= |table|
    && (forall i | 0 <= i < j :: !Contains(c, table[i].0))
    && (if j < |table| then Contains(c, table[j].0) && k == table[j].1 else k == fallback)
  }

  /** The kind of the first entry of `table` whose word occurs in `c`, or
      `fallback`: the `if (className.includes(...)) ... else if ...` chains. */
  function FirstMatch<K>(c: string, table: seq<(string, K)>, fallback: K): K
    decreases |table|
  {
    if table == [] then fallback
    else if Contains(c, table[0].0) then table[0].1
    else FirstMatch(c, table[1..], fallback)
  }

  lemma {:induction false} FirstMatchIsFirst<K>(c: string, table: seq<(string, K)>, fallback: K)
    ensures IsFirstMatch(c, table, fallback, FirstMatch(c, table, fallback))
    decreases |table|
  {
    var k := FirstMatch(c, table, fallback);
    if table == [] {
      assert FirstMatchAt(c, table, fallback, k, 0);
    } else if Contains(c, table[0].0) {
      assert FirstMatchAt(c, table, fallback, k, 0);
    } else {
      var rest := table[1..];
      FirstMatchIsFirst(c, rest, fallback);
      var j: nat :| FirstMatchAt(c, rest, fallback, k, j);
      forall i | 0 <= i < j + 1
        ensures !Contains(c, table[i].0)
      {
        if i > 0 {
          assert table[i] == rest[i - 1];
        }
      }
      if j < |rest| {
        assert table[j + 1] == rest[j];
      }
      assert FirstMatchAt(c, table, fallback, k, j + 1);
    }
  }

  const PlatformKindWords: seq<(string, PlatformKind)> :=
    [("moving", Moving), ("breakable", Breakable), ("ice", Ice)]

  function PlatformKindOf(c: string): (k: PlatformKind)
    ensures IsFirstMatch(c, PlatformKindWords, Normal, k)
  {
    FirstMatchIsFirst(c, PlatformKindWords, Normal);
    FirstMatch(c, PlatformKindWords, Normal)
  }

  const CollectibleKindWords: seq<(string, CollectibleKind)> := [("gem", Gem), ("star", Star)]

  function CollectibleKindOf(c: string): (k: CollectibleKind)
    ensures IsFirstMatch(c, CollectibleKindWords, Coin, k)
  {
    FirstMatchIsFirst(c, CollectibleKindWords, Coin);
    FirstMatch(c, CollectibleKindWords, Coin)
  }

  const EnemyKindWords: seq<(string, EnemyKind)> := [("spike", Spike), ("flying", Flying)]

  function EnemyKindOf(c: string): (k: EnemyKind)
    ensures IsFirstMatch(c, EnemyKindWords, Goomba, k)
  {
    FirstMatchIsFirst(c, EnemyKindWords, Goomba);
    FirstMatch(c, EnemyKindWords, Goomba)
  }

  /** "platform moving ice" is a moving platform: `moving` outranks `ice`. */
  lemma MovingOutranksIce()
    ensures PlatformKindOf("platform moving ice") == Moving
  {
    assert OccursAt("platform moving ice", "moving", 9);
  }

  // ---------------------------------------------------------------------------
  // Converting elements

  function ConvertElementToPlatform(e: Element): (r: Option<Platform>)
    ensures r.Some? <==> TagName(e) == "rect"
  {
    if TagName(e) == "rect" then
      Some(Platform(
        NumberAttribute(e, "x", "0"),
        NumberAttribute(e, "y", "0"),
        NumberAttribute(e, "width", "0"),
        NumberAttribute(e, "height", "0"),
        Some(PlatformKindOf(ClassName(e)))))
    else None
  }

  /** A circle gives its centre attributes, a rect the centre of its box, any
      other element its raw x and y. The result is never null. */
  function GetElementPosition(e: Element): (p: Option<Vector2>)
    ensures p.Some?
    ensures TagName(e) == "circle" ==>
      p.value == Vector2(NumberAttribute(e, "cx", "0"), NumberAttribute(e, "cy", "0"))
    ensures TagName(e) == "rect" ==>
      var x := NumberAttribute(e, "x", "0");
      var y := NumberAttribute(e, "y", "0");
      && p.value.x - x == x + NumberAttribute(e, "width", "0") - p.value.x
      && p.value.y - y == y + NumberAttribute(e, "height", "0") - p.value.y
    ensures TagName(e) != "circle" && TagName(e) != "rect" ==>
      p.value == Vector2(NumberAttribute(e, "x", "0"), NumberAttribute(e, "y", "0"))
  {
    if TagName(e) == "circle" then
      Some(Vector2(NumberAttribute(e, "cx", "0"), NumberAttribute(e, "cy", "0")))
    else if TagName(e) == "rect" then
      var x := NumberAttribute(e, "x", "0");
      var y := NumberAttribute(e, "y", "0");
      var width := NumberAttribute(e, "width", "0");
      var height := NumberAttribute(e, "height", "0");
      Some(Vector2(x + width / 2.0, y + height / 2.0))
    else
      Some(Vector2(NumberAttribute(e, "x", "0"), NumberAttribute(e, "y", "0")))
  }

  function ConvertElementToCollectible(e: Element): (r: Option<CollectibleData>)
    ensures r.Some?
    ensures Vector2(r.value.x, r.value.y) == GetElementPosition(e).value
  {
    var position := GetElementPosition(e);
    if position.None? then None
    else Some(CollectibleData(position.value.x, position.value.y, CollectibleKindOf(ClassName(e))))
  }

  function ConvertElementToEnemy(e: Element): (r: Option<EnemyData>)
    ensures r.Some?
    ensures Vector2(r.value.x, r.value.y) == GetElementPosition(e).value
  {
    var position := GetElementPosition(e);
    if position.None? then None
    else
      Some(EnemyData(position.value.x, position.value.y, EnemyKindOf(ClassName(e)),
        Some(NumberAttribute(e, "data-patrol", "100"))))
  }

  function ConvertElementToOrb(e: Element): (r: Option<LevelOrbData>)
    ensures r.Some?
    ensures Vector2(r.value.x, r.value.y) == GetElementPosition(e).value
  {
    var position := GetElementPosition(e);
    if position.None? then None
    else Some(LevelOrbData(position.value.x, position.value.y, NumberAttribute(e, "data-target-level", "2")))
  }

  /** Without `data-patrol` an enemy patrols 100 units; without
      `data-target-level` an orb leads to level 2. */
  lemma DataAttributeDefaults(e: Element)
    ensures Absent(e, "data-patrol") ==> ConvertElementToEnemy(e).value.patrolDistance == Some(100.0)
    ensures Absent(e, "data-target-level") ==> ConvertElementToOrb(e).value.targetLevel == 2.0
  {
    if Absent(e, "data-patrol") {
      AbsentAttributeDefaults(e, "data-patrol");
    }
    if Absent(e, "data-target-level") {
      AbsentAttributeDefaults(e, "data-target-level");
    }
  }

  // ---------------------------------------------------------------------------
  // The level's lists

  function PlatformsOf(doc: Document): seq<Platform> {
    FilterMap(SelectAll(doc, "platform"), ConvertElementToPlatform)
  }

  function CollectiblesOf(doc: Document): seq<CollectibleData> {
    FilterMap(SelectAll(doc, "collectible"), ConvertElementToCollectible)
  }

  function EnemiesOf(doc: Document): seq<EnemyData> {
    FilterMap(SelectAll(doc, "enemy"), ConvertElementToEnemy)
  }

  function OrbsOf(doc: Document): seq<LevelOrbData> {
    FilterMap(SelectAll(doc, "orb"), ConvertElementToOrb)
  }

  /** A single element is a platform exactly when it is a rect whose class
      contains "platform"; absent geometry reads as 0. */
  lemma PlatformsOfSingle(e: Element)
    ensures PlatformsOf([e]) ==
      if TagName(e) == "rect" && HasClass(e, "platform") then
        [Platform(NumberAttribute(e, "x", "0"), NumberAttribute(e, "y", "0"),
                  NumberAttribute(e, "width", "0"), NumberAttribute(e, "height", "0"),
                  Some(PlatformKindOf(ClassName(e))))]
      else []
    ensures TagName(e) == "rect" && HasClass(e, "platform") && Absent(e, "x") ==> PlatformsOf([e])[0].x == 0.0
  {
    assert SelectAll([e], "platform") == if HasClass(e, "platform") then [e] else [];
    if HasClass(e, "platform") {
      assert FilterMap([e], ConvertElementToPlatform) == FilterMap([e][..0], ConvertElementToPlatform)
        + (match ConvertElementToPlatform(e) case Some(v) => [v] case None => []);
    }
    if Absent(e, "x") {
      AbsentAttributeDefaults(e, "x");
    }
  }

  /** The platforms of a document are those of its first part followed by
      those of the rest: every qualifying element contributes once, in order. */
  lemma PlatformsInDocumentOrder(a: Document, b: Document)
    ensures PlatformsOf(a + b) == PlatformsOf(a) + PlatformsOf(b)
  {
    SelectAllAppend(a, b, "platform");
    FilterMapAppend(SelectAll(a, "platform"), SelectAll(b, "platform"), ConvertElementToPlatform);
  }

  /** Element positions are never null, so every element whose class contains
      "collectible", "enemy" or "orb" gives exactly one entry of its list. */
  lemma PointEntitiesOnePerElement(doc: Document)
    ensures |CollectiblesOf(doc)| == |SelectAll(doc, "collectible")|
    ensures forall k | 0 <= k < |SelectAll(doc, "collectible")| ::
      CollectiblesOf(doc)[k] == ConvertElementToCollectible(SelectAll(doc, "collectible")[k]).value
    ensures |EnemiesOf(doc)| == |SelectAll(doc, "enemy")|
    ensures forall k | 0 <= k < |SelectAll(doc, "enemy")| ::
      EnemiesOf(doc)[k] == ConvertElementToEnemy(SelectAll(doc, "enemy")[k]).value
    ensures |OrbsOf(doc)| == |SelectAll(doc, "orb")|
    ensures forall k | 0 <= k < |SelectAll(doc, "orb")| ::
      OrbsOf(doc)[k] == ConvertElementToOrb(SelectAll(doc, "orb")[k]).value
  {
    FilterMapTotal(SelectAll(doc, "collectible"), ConvertElementToCollectible);
    FilterMapTotal(SelectAll(doc, "enemy"), ConvertElementToEnemy);
    FilterMapTotal(SelectAll(doc, "orb"), ConvertElementToOrb);
  }

  /** The categories are not exclusive: an element whose class names both an
      enemy and an orb is listed as both. */
  lemma EnemyAndOrbAtOnce(e: Element)
    requires HasClass(e, "enemy") && HasClass(e, "orb")
    ensures EnemiesOf([e]) == [ConvertElementToEnemy(e).value]
    ensures OrbsOf([e]) == [ConvertElementToOrb(e).value]
  {
    assert SelectAll([e], "enemy") == [e];
    assert SelectAll([e], "orb") == [e];
    PointEntitiesOnePerElement([e]);
  }

  method ExtractPlatforms(doc: Document) returns (platforms: seq<Platform>)
    ensures platforms == PlatformsOf(doc)
  {
    platforms := [];
    var elements := SelectAll(doc, "platform");
    for i := 0 to |elements|
      invariant platforms == FilterMap(elements[..i], ConvertElementToPlatform)
    {
      FilterMapStep(elements, i, ConvertElementToPlatform);
      var platform := ConvertElementToPlatform(elements[i]);
      if platform.Some? {
        platforms := platforms + [platform.value];
      }
    }
    assert elements[..|elements|] == elements;
  }

  method ExtractCollectibles(doc: Document) returns (collectibles: seq<CollectibleData>)
    ensures collectibles == CollectiblesOf(doc)
  {
    collectibles := [];
    var elements := SelectAll(doc, "collectible");
    for i := 0 to |elements|
      invariant collectibles == FilterMap(elements[..i], ConvertElementToCollectible)
    {
      FilterMapStep(elements, i, ConvertElementToCollectible);
      var collectible := ConvertElementToCollectible(elements[i]);
      if collectible.Some? {
        collectibles := collectibles + [collectible.value];
      }
    }
    assert elements[..|elements|] == elements;
  }

  method ExtractEnemies(doc: Document) returns (enemies: seq<EnemyData>)
    ensures enemies == EnemiesOf(doc)
  {
    enemies := [];
    var elements := SelectAll(doc, "enemy");
    for i := 0 to |elements|
      invariant enemies == FilterMap(elements[..i], ConvertElementToEnemy)
    {
      FilterMapStep(elements, i, ConvertElementToEnemy);
      var enemy := ConvertElementToEnemy(elements[i]);
      if enemy.Some? {
        enemies := enemies + [enemy.value];
      }
    }
    assert elements[..|elements|] == elements;
  }

  method ExtractOrbs(doc: Document) returns (orbs: seq<LevelOrbData>)
    ensures orbs == OrbsOf(doc)
  {
    orbs := [];
    var elements := SelectAll(doc, "orb");
    for i := 0 to |elements|
      invariant orbs == FilterMap(elements[..i], ConvertElementToOrb)
    {
      FilterMapStep(elements, i, ConvertElementToOrb);
      var orb := ConvertElementToOrb(elements[i]);
      if orb.Some? {
        orbs := orbs + [orb.value];
      }
    }
    assert elements[..|elements|] == elements;
  }

  // ---------------------------------------------------------------------------
  // Player start and background

  /** The position of the first element whose class contains "player-start". */
  function ExtractPlayerStart(doc: Document): (r: Option<Vector2>)
    ensures r.None? <==> SelectAll(doc, "player-start") == []
    ensures r.Some? ==> r == GetElementPosition(SelectAll(doc, "player-start")[0])
  {
    var start := Select(doc, "player-start");
    if start.None? then None else GetElementPosition(start.value)
  }

  const DefaultPlayerStart := Vector2(100.0, 500.0)

  /** The first element whose class contains "background": its `fill` and
      its `data-stars` flag, each undefined when absent or empty. */
  function ExtractBackground(doc: Document): (r: Option<BackgroundData>)
    ensures r.None? <==> SelectAll(doc, "background") == []
    ensures r.Some? ==>
      var e := SelectAll(doc, "background")[0];
      && r.value.gradient.None?
      && (r.value.color.None? <==> Absent(e, "fill"))
      && (r.value.color.Some? ==> r.value.color.value == e.attributes["fill"])
      && (r.value.stars.None? <==> Absent(e, "data-stars"))
      && (r.value.stars == Some(true) <==> !Absent(e, "data-stars") && ToLower(e.attributes["data-stars"]) == "true")
  {
    var found := Select(doc, "background");
    if found.None? then None
    else
      var e := found.value;
      var color := if Absent(e, "fill") then None else Some(e.attributes["fill"]);
      var stars := if Absent(e, "data-stars") then None else Some(ToLower(e.attributes["data-stars"]) == "true");
      Some(BackgroundData(color, None, stars))
  }

  // ---------------------------------------------------------------------------
  // Dimensions and name

  /** `Number(parts[k])`, where a missing item is `undefined` (NaN). */
  function ItemNumber(parts: seq<string>, k: nat): real {
    if k < |parts| then ToNumber(parts[k]) else NaNStandIn
  }

  /** Width and height: the third and fourth space-separated items of a
      non-empty `viewBox`, otherwise the `width` and `height` attributes with
      1024 and 768 as fallbacks. */
  function ExtractLevelDimensions(svg: Element): (real, real) {
    var viewBox := AttributeOr(svg, "viewBox", "");
    if viewBox != "" then
      var parts := Split(viewBox, ' ');
      (ItemNumber(parts, 2), ItemNumber(parts, 3))
    else
      (NumberAttribute(svg, "width", "1024"), NumberAttribute(svg, "height", "768"))
  }

  lemma DigitsLackSpace(s: string)
    requires AllDigits(s)
    ensures ' ' !in s
  {
  }

  /** A viewBox written as "minX minY width height" gives that width and height. */
  lemma DimensionsFromViewBox(svg: Element, minX: string, minY: string, w: nat, h: nat)
    requires ' ' !in minX && ' ' !in minY
    requires "viewBox" in svg.attributes
    requires svg.attributes["viewBox"] == Join([minX, minY, NatToString(w), NatToString(h)], " ")
    ensures ExtractLevelDimensions(svg) == (w as real, h as real)
  {
    var ws, hs := NatToString(w), NatToString(h);
    var items := [minX, minY, ws, hs];
    DigitsLackSpace(ws);
    DigitsLackSpace(hs);
    SplitJoin(items, ' ');
    assert Join(items, " ") == minX + " " + Join(items[1..], " ");
    ReadNatString(w);
    ReadNatString(h);
  }

  /** Without a viewBox, missing width and height give 1024 by 768. */
  lemma DefaultDimensions(svg: Element)
    requires Absent(svg, "viewBox") && Absent(svg, "width") && Absent(svg, "height")
    ensures ExtractLevelDimensions(svg) == (1024.0, 768.0)
  {
    AbsentAttributeDefaults(svg, "width");
    AbsentAttributeDefaults(svg, "height");
  }

  /** The last '/'-separated segment (or "unknown" when it is empty) with the
      first ".svg" removed. */
  function ExtractLevelName(svgPath: string): (name: string)
    ensures '/' !in name
  {
    var parts := Split(svgPath, '/');
    var last := parts[|parts| - 1];
    var filename := if last == "" then "unknown" else last;
    ReplaceFirst(filename, ".svg", "")
  }

  lemma {:induction false} SplitLast(a: string, sep: char, b: string)
    requires sep !in b
    ensures var parts := Split(a + [sep] + b, sep); parts[|parts| - 1] == b
    decreases |a|
  {
    if a == [] {
      assert a + [sep] + b == [sep] + b;
      assert ([sep] + b)[1..] == b;
      SplitWithoutSeparator(b, sep);
    } else {
      assert (a + [sep] + b)[1..] == a[1..] + [sep] + b;
      SplitLast(a[1..], sep, b);
    }
  }

  /** "dir/level1.svg" is named "level1". */
  lemma LevelNameOfFile(dir: string, stem: string)
    requires '/' !in stem && '.' !in stem && stem != ""
    ensures ExtractLevelName(dir + "/" + stem + ".svg") == stem
  {
    var file := stem + ".svg";
    assert '/' !in file by { assert file[|stem|..] == ".svg"; }
    assert dir + "/" + stem + ".svg" == dir + ['/'] + file;
    SplitLast(dir, '/', file);
    assert OccursAt(file, ".svg", |stem|);
    forall i: nat | i < |stem|
      ensures !OccursAt(file, ".svg", i)
    {
      assert file[i] == stem[i];
    }
    assert file[..|stem|] == stem;
    assert file[|stem| + 4..] == "";
  }

  /** A path ending in '/' has an empty last segment and is named "unknown". */
  lemma LevelNameOfDirectory(dir: string)
    ensures ExtractLevelName(dir + "/") == "unknown"
  {
    assert dir + "/" == dir + ['/'] + "";
    SplitLast(dir, '/', "");
    MissingChar("unknown", ".svg", 0);
  }

  // ---------------------------------------------------------------------------
  // Loading and validating

  const NoRootMessage := "Invalid SVG file - no root SVG element found"

  /** `loadLevel` after the fetch and the parse: a missing root element is the
      error the loader rethrows; otherwise the level is assembled from the
      extractors, with (100, 500) when there is no player start. */
  method LoadLevel(svgPath: string, doc: Document) returns (r: Result<LevelData, string>)
    ensures r.Err? <==> FindSvgRoot(doc).None?
    ensures r.Err? ==> r.error == "Failed to load level from " + svgPath + ": Error: " + NoRootMessage
    ensures r.Ok? ==>
      var dims := ExtractLevelDimensions(FindSvgRoot(doc).value);
      r.value == LevelData(
        ExtractLevelName(svgPath), dims.0, dims.1,
        ExtractPlayerStart(doc).GetOr(DefaultPlayerStart),
        PlatformsOf(doc), CollectiblesOf(doc),
        Some(OrbsOf(doc)), Some(EnemiesOf(doc)),
        ExtractBackground(doc))
  {
    var svgElement := FindSvgRoot(doc);
    if svgElement.None? {
      return Err("Failed to load level from " + svgPath + ": Error: " + NoRootMessage);
    }
    var (width, height) := ExtractLevelDimensions(svgElement.value);
    var platforms := ExtractPlatforms(doc);
    var collectibles := ExtractCollectibles(doc);
    var enemies := ExtractEnemies(doc);
    var orbs := ExtractOrbs(doc);
    var playerStart := ExtractPlayerStart(doc).GetOr(DefaultPlayerStart);
    var background := ExtractBackground(doc);
    var levelName := ExtractLevelName(svgPath);
    r := Ok(LevelData(levelName, width, height, playerStart, platforms, collectibles,
                      Some(orbs), Some(enemies), background));
  }

  const NoRootError := "No root SVG element found"
  const NoPlayerStartError := "No player starting position found (class=\"player-start\")"
  const NoPlatformsError := "No platforms found (class=\"platform\")"
  const BadDimensionsError := "Invalid level dimensions"

  datatype Validation = Validation(valid: bool, errors: seq<string>)

  function Flag(b: bool): nat { if b then 1 else 0 }

  lemma MessagesDistinct()
    ensures NoPlayerStartError != NoPlatformsError
    ensures NoPlayerStartError != BadDimensionsError
    ensures NoPlatformsError != BadDimensionsError
  {
    assert |NoPlayerStartError| != |NoPlatformsError|;
    assert |NoPlayerStartError| != |BadDimensionsError|;
    assert |NoPlatformsError| != |BadDimensionsError|;
  }

  /** The messages the three content checks add, in the order they run. */
  function ContentErrors(missingStart: bool, noPlatforms: bool, badDimensions: bool): (errors: seq<string>)
    ensures NoPlayerStartError in errors <==> missingStart
    ensures NoPlatformsError in errors <==> noPlatforms
    ensures BadDimensionsError in errors <==> badDimensions
    ensures forall m | m in errors :: m in [NoPlayerStartError, NoPlatformsError, BadDimensionsError]
    ensures |errors| == Flag(missingStart) + Flag(noPlatforms) + Flag(badDimensions)
  {
    MessagesDistinct();
    (if missingStart then [NoPlayerStartError] else [])
      + (if noPlatforms then [NoPlatformsError] else [])
      + (if badDimensions then [BadDimensionsError] else [])
  }

  /** `validateLevel` on a parsed document. Each failed check adds one
      message, in the order the checks run; a missing background adds none;
      the level is valid exactly when no message was added. */
  method ValidateLevel(doc: Document) returns (v: Validation)
    ensures v.valid <==> v.errors == []
    ensures FindSvgRoot(doc).None? ==> v.errors == [NoRootError]
    ensures FindSvgRoot(doc).Some? ==>
      var dims := ExtractLevelDimensions(FindSvgRoot(doc).value);
      v.errors == ContentErrors(
        SelectAll(doc, "player-start") == [],
        SelectAll(doc, "platform") == [],
        dims.0 <= 0.0 || dims.1 <= 0.0)
  {
    var errors: seq<string> := [];
    var svgElement := FindSvgRoot(doc);
    if svgElement.None? {
      errors := errors + [NoRootError];
      return Validation(false, errors);
    }
    var missingStart := Select(doc, "player-start").None?;
    if missingStart {
      errors := errors + [NoPlayerStartError];
    }
    ghost var afterStart := errors;
    assert afterStart == if missingStart then [NoPlayerStartError] else [];
    var noPlatforms := |SelectAll(doc, "platform")| == 0;
    if noPlatforms {
      errors := errors + [NoPlatformsError];
    }
    ghost var afterPlatforms := errors;
    assert afterPlatforms == afterStart + if noPlatforms then [NoPlatformsError] else [];
    var dims := ExtractLevelDimensions(svgElement.value);
    var badDimensions := dims.0 <= 0.0 || dims.1 <= 0.0;
    if badDimensions {
      errors := errors + [BadDimensionsError];
    }
    assert errors == afterPlatforms + if badDimensions then [BadDimensionsError] else [];
    v := Validation(|errors| == 0, errors);
  }
}
