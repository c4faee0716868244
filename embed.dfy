/** `buildEmbed`: the Discord embed of an alert. Its description is built
    section by section; the sections, in order, are the warnings, the tier,
    the LEVELS block (a header and five level lines), the play, the sector
    and the chart link. */
module EmbedFormat {
  import opened Text

  /** The argument object of `buildEmbed`. */
  datatype EmbedInput = EmbedInput(
    ticker: string,
    price: string,
    level: string,
    emoji: string,
    color: nat,
    warnings: seq<string>,
    tier: string,
    strengthLevel: string,
    pivotLevel: string,
    demandZone: string,
    executionLines: string,
    invalidationLevel: string,
    entryConditions: string,
    industryETF: string)

  /** The embed object. The timestamp is the clock reading, passed in. */
  datatype Embed = Embed(title: string, description: string, color: nat, timestamp: string)

  /** The five lines of the LEVELS block, in their order. */
  datatype LevelLine = StrengthLine | PivotLine | DemandLine | ExecutionLine | InvalidationLine

  /** One piece of the description. */
  datatype Section =
    | WarningsBlock(warnings: seq<string>)
    | TierLine(tier: string)
    | LevelsHeader
    | Level(line: LevelLine, value: string)
    | PlayBlock(entryConditions: string)
    | SectorLine(industryETF: string)
    | ChartLink(ticker: string)

  /** `value || '-'`. */
  function OrDash(value: string): (r: string)
    ensures r != ""
    ensures value != "" ==> r == value
    ensures value == "" ==> r == "-"
  {
    if value == "" then "-" else value
  }

  function LineLabel(line: LevelLine): (r: string)
  {
    match line
    case StrengthLine => "\U{1F7E2} Strength: "
    case PivotLine => "⚪ Pivot: "
    case DemandLine => "\U{1F7E1} Demand: "
    case ExecutionLine => "\U{1F535} Execution: "
    case InvalidationLine => "\U{1F534} Invalidation: "
  }

  const ChartPrefix := "\U{1F4C8} [View Chart](https://www.tradingview.com/chart/?symbol="

  /** The text each section adds to the description. */
  function Render(section: Section): (r: string)
  {
    match section
    case WarningsBlock(warnings) => Join(warnings, "\n") + "\n\n"
    case TierLine(tier) => "**Tier:** " + tier + "\n\n"
    case LevelsHeader => "**LEVELS:**\n"
    case Level(line, value) => LineLabel(line) + OrDash(value) + (if line == InvalidationLine then "\n\n" else "\n")
    case PlayBlock(entryConditions) => "**PLAY:**\n" + entryConditions + "\n\n"
    case SectorLine(industryETF) => "**Sector:** " + industryETF + "\n\n"
    case ChartLink(ticker) => ChartPrefix + ticker + ")"
  }

  /** The sections' texts one after the other. */
  function RenderAll(sections: seq<Section>): (r: string)
    decreases |sections|
  {
    if |sections| == 0 then "" else RenderAll(sections[..|sections| - 1]) + Render(sections[|sections| - 1])
  }

  /** Rendering distributes over splitting the list of sections. */
  lemma {:induction false} RenderAllAppend(a: seq<Section>, b: seq<Section>)
    ensures RenderAll(a + b) == RenderAll(a) + RenderAll(b)
    decreases |b|
  {
    if |b| == 0 {
      assert a + b == a;
    } else {
      var b' := b[..|b| - 1];
      assert (a + b)[..|a + b| - 1] == a + b';
      RenderAllAppend(a, b');
    }
  }

  /** `[section]` when `condition` holds, nothing otherwise. */
  function Opt(condition: bool, section: Section): (r: seq<Section>)
    ensures condition ==> r == [section]
    ensures !condition ==> r == []
  {
    if condition then [section] else []
  }

  /** The LEVELS header and its five lines with the record's values. */
  function LevelsBlock(f: EmbedInput): (r: seq<Section>)
    ensures |r| == 6
  {
    [LevelsHeader, Level(StrengthLine, f.strengthLevel), Level(PivotLine, f.pivotLevel),
     Level(DemandLine, f.demandZone), Level(ExecutionLine, f.executionLines),
     Level(InvalidationLine, f.invalidationLevel)]
  }

  /** The sections of the description in order; the warnings, tier, play
      and sector sections only when their source is non-empty. */
  function Sections(f: EmbedInput): (r: seq<Section>)
  {
    Opt(|f.warnings| > 0, WarningsBlock(f.warnings)) + Opt(f.tier != "", TierLine(f.tier)) +
    [LevelsHeader] + [Level(StrengthLine, f.strengthLevel)] + [Level(PivotLine, f.pivotLevel)] +
    [Level(DemandLine, f.demandZone)] + [Level(ExecutionLine, f.executionLines)] +
    [Level(InvalidationLine, f.invalidationLevel)] +
    Opt(f.entryConditions != "", PlayBlock(f.entryConditions)) + Opt(f.industryETF != "", SectorLine(f.industryETF)) +
    [ChartLink(f.ticker)]
  }

  /** Every section the builder can append for this record, in order. */
  function AllSections(f: EmbedInput): (r: seq<Section>)
    ensures |r| == 11
  {
    [WarningsBlock(f.warnings), TierLine(f.tier)] + LevelsBlock(f) +
    [PlayBlock(f.entryConditions), SectorLine(f.industryETF), ChartLink(f.ticker)]
  }

  /** Position of a section in the fixed order. */
  function Rank(section: Section): (r: nat)
    ensures r <= 10
  {
    match section
    case WarningsBlock(_) => 0
    case TierLine(_) => 1
    case LevelsHeader => 2
    case Level(line, _) =>
      (match line
       case StrengthLine => 3
       case PivotLine => 4
       case DemandLine => 5
       case ExecutionLine => 6
       case InvalidationLine => 7)
    case PlayBlock(_) => 8
    case SectorLine(_) => 9
    case ChartLink(_) => 10
  }

  /** The sections strictly increase in rank, so each kind appears at most
      once and in the fixed order. */
  predicate Ordered(sections: seq<Section>)
  {
    forall i, j :: 0 <= i < j < |sections| ==> Rank(sections[i]) < Rank(sections[j])
  }

  /** A run of sections: ordered, of ranks in `[lo, hi)`, each the record's
      section of its rank. */
  predicate Piece(sections: seq<Section>, lo: nat, hi: nat, all: seq<Section>)
    requires |all| == 11
  {
    Ordered(sections) &&
    forall i :: 0 <= i < |sections| ==> lo <= Rank(sections[i]) < hi && sections[i] == all[Rank(sections[i])]
  }

  /** Two runs, the second of higher ranks, make a run. */
  lemma PieceJoin(a: seq<Section>, b: seq<Section>, lo: nat, mid: nat, hi: nat, all: seq<Section>)
    requires |all| == 11 && lo <= mid <= hi && Piece(a, lo, mid, all) && Piece(b, mid, hi, all)
    ensures Piece(a + b, lo, hi, all)
  {
    var ab := a + b;
    forall i, j | 0 <= i < j < |ab| ensures Rank(ab[i]) < Rank(ab[j]) {
      if j < |a| {
      } else if i >= |a| {
        assert ab[i] == b[i - |a|] && ab[j] == b[j - |a|];
      } else {
        assert ab[i] == a[i] && ab[j] == b[j - |a|];
      }
    }
    forall i | 0 <= i < |ab| ensures lo <= Rank(ab[i]) < hi && ab[i] == all[Rank(ab[i])] {
      if i >= |a| {
        assert ab[i] == b[i - |a|];
      } else {
        assert ab[i] == a[i];
      }
    }
  }

  lemma OptPiece(condition: bool, x: Section, all: seq<Section>)
    requires |all| == 11 && x == all[Rank(x)]
    ensures Piece(Opt(condition, x), Rank(x), Rank(x) + 1, all)
  {
  }

  /** The description's sections are an ordered selection of the possible
      ones, each the record's section of its rank. */
  lemma SectionsOrdered(f: EmbedInput)
    ensures var secs := Sections(f);
      Ordered(secs) && forall i :: 0 <= i < |secs| ==> secs[i] == AllSections(f)[Rank(secs[i])]
  {
    var all := AllSections(f);
    var lb := LevelsBlock(f);
    var s := FrontPiece(f);
    s := PieceAppend(s, [lb[3]], true, lb[3], all);
    s := PieceAppend(s, [lb[4]], true, lb[4], all);
    s := PieceAppend(s, [lb[5]], true, lb[5], all);
    s := PieceAppend(s, Opt(f.entryConditions != "", PlayBlock(f.entryConditions)), f.entryConditions != "",
                     PlayBlock(f.entryConditions), all);
    s := PieceAppend(s, Opt(f.industryETF != "", SectorLine(f.industryETF)), f.industryETF != "",
                     SectorLine(f.industryETF), all);
    s := PieceAppend(s, [ChartLink(f.ticker)], true, ChartLink(f.ticker), all);
  }

  /** The warnings, the tier and the first three of the LEVELS block. */
  lemma FrontPiece(f: EmbedInput) returns (s: seq<Section>)
    ensures var lb := LevelsBlock(f);
      s == Opt(|f.warnings| > 0, WarningsBlock(f.warnings)) + Opt(f.tier != "", TierLine(f.tier)) +
        [lb[0]] + [lb[1]] + [lb[2]]
    ensures Piece(s, 0, 5, AllSections(f))
  {
    var all := AllSections(f);
    var lb := LevelsBlock(f);
    s := Opt(|f.warnings| > 0, WarningsBlock(f.warnings));
    OptPiece(|f.warnings| > 0, WarningsBlock(f.warnings), all);
    s := PieceAppend(s, Opt(f.tier != "", TierLine(f.tier)), f.tier != "", TierLine(f.tier), all);
    s := PieceAppend(s, [lb[0]], true, lb[0], all);
    s := PieceAppend(s, [lb[1]], true, lb[1], all);
    s := PieceAppend(s, [lb[2]], true, lb[2], all);
  }

  /** A run below the rank of `x`, followed by `x` or nothing. */
  lemma PieceAppend(s: seq<Section>, o: seq<Section>, condition: bool, x: Section, all: seq<Section>)
    returns (s': seq<Section>)
    requires |all| == 11 && x == all[Rank(x)] && o == Opt(condition, x)
    requires Piece(s, 0, Rank(x), all)
    ensures s' == s + o && Piece(s', 0, Rank(x) + 1, all)
  {
    OptPiece(condition, x, all);
    PieceJoin(s, o, 0, Rank(x), Rank(x) + 1, all);
    s' := s + o;
  }

  /** The warnings and tier sections each appear exactly when their source
      is non-empty. */
  lemma WarningsAndTierSections(f: EmbedInput)
    ensures var secs := Sections(f);
      (WarningsBlock(f.warnings) in secs <==> |f.warnings| > 0) &&
      (TierLine(f.tier) in secs <==> f.tier != "")
  {
  }

  /** The play and sector sections each appear exactly when their source is
      non-empty. */
  lemma PlayAndSectorSections(f: EmbedInput)
    ensures var secs := Sections(f);
      (PlayBlock(f.entryConditions) in secs <==> f.entryConditions != "") &&
      (SectorLine(f.industryETF) in secs <==> f.industryETF != "")
  {
  }

  /** The LEVELS header and its five lines always appear, and the chart link
      comes last. */
  lemma FixedSections(f: EmbedInput)
    ensures var secs := Sections(f);
      (forall i :: 0 <= i < 6 ==> LevelsBlock(f)[i] in secs) &&
      secs[|secs| - 1] == ChartLink(f.ticker)
  {
  }

  /** The text of every section of a list occurs in its rendering. */
  lemma {:induction false} SectionRendered(sections: seq<Section>, x: Section)
    requires x in sections
    ensures Contains(RenderAll(sections), Render(x))
    decreases |sections|
  {
    var n := |sections|;
    var init := sections[..n - 1];
    if sections[n - 1] == x {
      ContainsConcat(RenderAll(init), Render(x), "");
      assert RenderAll(init) + Render(x) + "" == RenderAll(sections);
    } else {
      assert x in init by {
        var k :| 0 <= k < n && sections[k] == x;
        assert init[k] == x;
      }
      SectionRendered(init, x);
      ContainsExtend(RenderAll(init), Render(x), Render(sections[n - 1]));
    }
  }

  /** The description always shows the five level lines, an empty field as
      "-". */
  lemma LevelLinesShown(f: EmbedInput)
    ensures var d := RenderAll(Sections(f));
      Contains(d, LineLabel(StrengthLine) + OrDash(f.strengthLevel) + "\n") &&
      Contains(d, LineLabel(PivotLine) + OrDash(f.pivotLevel) + "\n") &&
      Contains(d, LineLabel(DemandLine) + OrDash(f.demandZone) + "\n") &&
      Contains(d, LineLabel(ExecutionLine) + OrDash(f.executionLines) + "\n") &&
      Contains(d, LineLabel(InvalidationLine) + OrDash(f.invalidationLevel) + "\n\n")
  {
    FixedSections(f);
    var lb := LevelsBlock(f);
    assert lb[1] in Sections(f) && lb[2] in Sections(f) && lb[3] in Sections(f);
    assert lb[4] in Sections(f) && lb[5] in Sections(f);
    LevelShown(f, StrengthLine, f.strengthLevel, "\n");
    LevelShown(f, PivotLine, f.pivotLevel, "\n");
    LevelShown(f, DemandLine, f.demandZone, "\n");
    LevelShown(f, ExecutionLine, f.executionLines, "\n");
    LevelShown(f, InvalidationLine, f.invalidationLevel, "\n\n");
  }

  lemma LevelShown(f: EmbedInput, line: LevelLine, value: string, end: string)
    requires Level(line, value) in Sections(f)
    requires end == (if line == InvalidationLine then "\n\n" else "\n")
    ensures Contains(RenderAll(Sections(f)), LineLabel(line) + OrDash(value) + end)
  {
    SectionRendered(Sections(f), Level(line, value));
  }

  /** The description always ends with the chart link of the ticker. */
  lemma EndsWithChartLink(f: EmbedInput)
    ensures EndsWith(RenderAll(Sections(f)), ChartPrefix + f.ticker + ")")
  {
    FixedSections(f);
    var secs := Sections(f);
    var n := |secs|;
    assert RenderAll(secs) == RenderAll(secs[..n - 1]) + Render(ChartLink(f.ticker));
  }

  /** The embed title: emoji, ticker, price and the level as given. */
  function Title(emoji: string, ticker: string, price: string, level: string): (t: string)
    ensures EndsWith(t, "[" + level + "]")
    ensures EndsWith(t, " hit $" + price + " [" + level + "]")
    ensures emoji + " " + ticker <= t
    ensures |t| == |emoji + " " + ticker| + |" hit $" + price + " [" + level + "]"|
  {
    var t := emoji + " " + ticker + " hit $" + price + " [" + level + "]";
    assert t == (emoji + " " + ticker) + (" hit $" + price + " [" + level + "]");
    assert t == (emoji + " " + ticker + " hit $" + price + " ") + ("[" + level + "]");
    t
  }

  /** `text` appended to `description` when `condition` holds. */
  function AppendIf(description: string, condition: bool, text: string): (r: string)
    ensures condition ==> r == description + text
    ensures !condition ==> r == description
  {
    if condition then description + text else description
  }

  /** Appending a section's text is rendering with the section appended. */
  lemma AppendRenders(description: string, sections: seq<Section>, section: Section)
    requires description == RenderAll(sections)
    ensures description + Render(section) == RenderAll(sections + [section])
  {
    assert (sections + [section])[..|sections|] == sections;
  }

  /** Appending a section's text under a condition is rendering with the
      optional section appended. */
  lemma AppendIfRenders(description: string, sections: seq<Section>, condition: bool, section: Section)
    requires description == RenderAll(sections)
    ensures AppendIf(description, condition, Render(section)) == RenderAll(sections + Opt(condition, section))
  {
    if condition {
      AppendRenders(description, sections, section);
    } else {
      assert sections + [] == sections;
    }
  }

  /** The embed `buildEmbed` returns for a record and a clock reading. */
  function EmbedOf(f: EmbedInput, timestamp: string): (e: Embed)
    ensures e.color == f.color && e.timestamp == timestamp
    ensures EndsWith(e.title, "[" + f.level + "]")
    ensures e.description == RenderAll(Sections(f))
  {
    Embed(Title(f.emoji, f.ticker, f.price, f.level), RenderAll(Sections(f)), f.color, timestamp)
  }

  /** `buildEmbed`: appends each section's text to the description in turn.
      The ghost `sections` lists the sections appended so far; the
      description is always their rendering. */
  method BuildEmbed(f: EmbedInput, timestamp: string) returns (e: Embed)
    ensures e == EmbedOf(f, timestamp)
  {
    var description := "";
    ghost var sections: seq<Section> := [];
    description, sections := AppendHead(f, description, sections);
    description, sections := AppendLevels(f, description, sections);
    description, sections := AppendTail(f, description, sections);
    assert [] + Opt(|f.warnings| > 0, WarningsBlock(f.warnings)) == Opt(|f.warnings| > 0, WarningsBlock(f.warnings));
    assert sections == Sections(f);
    e := Embed(Title(f.emoji, f.ticker, f.price, f.level), description, f.color, timestamp);
  }

  /** The warnings block and the tier line of `buildEmbed`, each appended
      when its source is non-empty. */
  method AppendHead(f: EmbedInput, description: string, ghost sections: seq<Section>)
    returns (d: string, ghost s: seq<Section>)
    requires description == RenderAll(sections)
    ensures d == RenderAll(s)
    ensures s == sections + Opt(|f.warnings| > 0, WarningsBlock(f.warnings)) + Opt(f.tier != "", TierLine(f.tier))
  {
    d, s := description, sections;
    AppendIfRenders(d, s, |f.warnings| > 0, WarningsBlock(f.warnings));
    if |f.warnings| > 0 {
      d := d + (Join(f.warnings, "\n") + "\n\n");
    }
    s := s + Opt(|f.warnings| > 0, WarningsBlock(f.warnings));
    AppendIfRenders(d, s, f.tier != "", TierLine(f.tier));
    if f.tier != "" {
      d := d + ("**Tier:** " + f.tier + "\n\n");
    }
    s := s + Opt(f.tier != "", TierLine(f.tier));
  }

  /** The PLAY block and the sector line of `buildEmbed`, each appended when
      its source is non-empty, then the chart link. */
  method AppendTail(f: EmbedInput, description: string, ghost sections: seq<Section>)
    returns (d: string, ghost s: seq<Section>)
    requires description == RenderAll(sections)
    ensures d == RenderAll(s)
    ensures s == sections + Opt(f.entryConditions != "", PlayBlock(f.entryConditions)) +
      Opt(f.industryETF != "", SectorLine(f.industryETF)) + [ChartLink(f.ticker)]
  {
    d, s := description, sections;
    AppendIfRenders(d, s, f.entryConditions != "", PlayBlock(f.entryConditions));
    if f.entryConditions != "" {
      d := d + ("**PLAY:**\n" + f.entryConditions + "\n\n");
    }
    s := s + Opt(f.entryConditions != "", PlayBlock(f.entryConditions));
    AppendIfRenders(d, s, f.industryETF != "", SectorLine(f.industryETF));
    if f.industryETF != "" {
      d := d + ("**Sector:** " + f.industryETF + "\n\n");
    }
    s := s + Opt(f.industryETF != "", SectorLine(f.industryETF));
    AppendRenders(d, s, ChartLink(f.ticker));
    d, s := d + (ChartPrefix + f.ticker + ")"), s + [ChartLink(f.ticker)];
  }

  /** The LEVELS block of `buildEmbed`: the header and the five level lines,
      appended one after the other. */
  method AppendLevels(f: EmbedInput, description: string, ghost sections: seq<Section>)
    returns (d: string, ghost s: seq<Section>)
    requires description == RenderAll(sections)
    ensures d == RenderAll(s)
    ensures s == sections + [LevelsHeader] + [Level(StrengthLine, f.strengthLevel)] + [Level(PivotLine, f.pivotLevel)] +
      [Level(DemandLine, f.demandZone)] + [Level(ExecutionLine, f.executionLines)] +
      [Level(InvalidationLine, f.invalidationLevel)]
  {
    d, s := description, sections;
    AppendRenders(d, s, LevelsHeader);
    d, s := d + "**LEVELS:**\n", s + [LevelsHeader];
    AppendRenders(d, s, Level(StrengthLine, f.strengthLevel));
    d, s := d + ("\U{1F7E2} Strength: " + OrDash(f.strengthLevel) + "\n"), s + [Level(StrengthLine, f.strengthLevel)];
    AppendRenders(d, s, Level(PivotLine, f.pivotLevel));
    d, s := d + ("⚪ Pivot: " + OrDash(f.pivotLevel) + "\n"), s + [Level(PivotLine, f.pivotLevel)];
    AppendRenders(d, s, Level(DemandLine, f.demandZone));
    d, s := d + ("\U{1F7E1} Demand: " + OrDash(f.demandZone) + "\n"), s + [Level(DemandLine, f.demandZone)];
    AppendRenders(d, s, Level(ExecutionLine, f.executionLines));
    d, s := d + ("\U{1F535} Execution: " + OrDash(f.executionLines) + "\n"), s + [Level(ExecutionLine, f.executionLines)];
    AppendRenders(d, s, Level(InvalidationLine, f.invalidationLevel));
    d, s := d + ("\U{1F534} Invalidation: " + OrDash(f.invalidationLevel) + "\n\n"),
      s + [Level(InvalidationLine, f.invalidationLevel)];
  }
}
