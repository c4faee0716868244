/** `LEVEL_CONFIG`: the emoji and embed colour of each price level, the
    lookup of the alert's level with its fallback, and the Radar colour
    override. */
module Levels {
  import opened Wrappers
  import opened Text

  /** An entry of `LEVEL_CONFIG`. */
  datatype LevelStyle = LevelStyle(emoji: string, color: nat)

  const Red: nat := 0xe74c3c

  const ExecutionStyle := LevelStyle("\U{1F535}", 0x3498db)

  const LevelTable: map<string, LevelStyle> := map[
    "execution" := ExecutionStyle,
    "demand" := LevelStyle("\U{1F7E1}", 0xf1c40f),
    "pivot" := LevelStyle("⚪", 0x95a5a6),
    "strength" := LevelStyle("\U{1F7E2}", 0x2ecc71),
    "invalidation" := LevelStyle("\U{1F534}", Red)
  ]

  /** The colours of the table. */
  const TableColors: set<nat> := {0x3498db, 0xf1c40f, 0x95a5a6, 0x2ecc71, Red}

  /** `LEVEL_CONFIG[level] || LEVEL_CONFIG.execution` as intended: the level's
      own entry, and the execution entry for every other level. */
  function Style(level: string): (r: LevelStyle)
    ensures r in LevelTable.Values && r.color in TableColors
    ensures level !in LevelTable ==> r == ExecutionStyle
  {
    if level in LevelTable then
      assert LevelTable[level] in LevelTable.Values;
      LevelTable[level]
    else
      assert LevelTable["execution"] in LevelTable.Values;
      ExecutionStyle
  }

  /** The five levels keep their own emoji and colour. */
  lemma KnownLevelsKeepTheirStyle()
    ensures Style("execution") == LevelStyle("\U{1F535}", 0x3498db)
    ensures Style("demand") == LevelStyle("\U{1F7E1}", 0xf1c40f)
    ensures Style("pivot") == LevelStyle("⚪", 0x95a5a6)
    ensures Style("strength") == LevelStyle("\U{1F7E2}", 0x2ecc71)
    ensures Style("invalidation") == LevelStyle("\U{1F534}", Red)
  {
  }

  /** What the property lookup `LEVEL_CONFIG[level]` finds on a plain object:
      an own entry, a property inherited from `Object.prototype` (a function,
      or the prototype itself for `__proto__`), or nothing. */
  datatype ConfigLookup = Own(style: LevelStyle) | Inherited | Missing

  function LookupAsWritten(level: string): (r: ConfigLookup)
    ensures r.Own? <==> level in LevelTable
    ensures r.Inherited? <==> level !in LevelTable && level in InheritedKeys
  {
    if level in LevelTable then Own(LevelTable[level])
    else if level in InheritedKeys then Inherited
    else Missing
  }

  /** The emoji text and the colour the embed receives as written. An
      inherited property is truthy, so the fallback is not taken; its `emoji`
      and `color` are `undefined`, which the title prints as "undefined" and
      the JSON body leaves out. A Radar tier still forces red. */
  datatype Appearance = Appearance(emojiText: string, color: Option<nat>)

  function AppearanceAsWritten(level: string, tier: string): (r: Appearance)
    ensures tier == "Radar" ==> r.color == Some(Red)
    ensures level !in InheritedKeys ==> r == Appearance(Style(level).emoji, Some(EmbedColor(tier, Style(level))))
  {
    match LookupAsWritten(level)
    case Own(style) => Appearance(style.emoji, Some(EmbedColor(tier, style)))
    case Inherited => Appearance("undefined", if tier == "Radar" then Some(Red) else None)
    case Missing => Appearance(ExecutionStyle.emoji, Some(EmbedColor(tier, ExecutionStyle)))
  }

  /** The appearance as intended: the fallback style for every unknown level. */
  function AppearanceOf(level: string, tier: string): (r: Appearance)
    ensures r.color.Some? && r.color.value in TableColors
    ensures r.emojiText == Style(level).emoji
  {
    Appearance(Style(level).emoji, Some(EmbedColor(tier, Style(level))))
  }

  /** The level "toString" names `Object.prototype.toString`: as written the
      alert gets the emoji text "undefined" and no colour, where the execution
      fallback is intended. */
  lemma InheritedLevelLosesStyle()
    ensures AppearanceAsWritten("toString", "") == Appearance("undefined", None)
    ensures AppearanceOf("toString", "") == Appearance(ExecutionStyle.emoji, Some(ExecutionStyle.color))
  {
    assert "toString" in InheritedKeys;
    assert "toString" !in LevelTable by {
      assert "toString"[0] != "execution"[0] && "toString"[0] != "demand"[0] && "toString"[0] != "pivot"[0];
      assert "toString"[0] != "strength"[0] && "toString"[0] != "invalidation"[0];
    }
  }

  /** `tier === 'Radar' ? 0xe74c3c : levelConfig.color`. */
  function EmbedColor(tier: string, style: LevelStyle): (c: nat)
    ensures tier == "Radar" ==> c == Red
    ensures tier != "Radar" ==> c == style.color
  {
    if tier == "Radar" then Red else style.color
  }

  /** A Radar alert is red whatever its level; any other alert has its
      level's colour, or the execution colour for an unknown level. */
  lemma ColorOverride(level: string, tier: string)
    ensures tier == "Radar" ==> AppearanceOf(level, tier).color == Some(Red)
    ensures tier != "Radar" && level in LevelTable ==> AppearanceOf(level, tier).color == Some(LevelTable[level].color)
    ensures tier != "Radar" && level !in LevelTable ==> AppearanceOf(level, tier).color == Some(0x3498db)
  {
  }
}
