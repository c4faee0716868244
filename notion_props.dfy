/** Flattening of Notion page properties into plain strings
    (`getRichText`, `getSelect`) and the eight watchlist fields the
    webhook reads from the first matching page. */
module NotionProps {
  import opened Wrappers
  import opened Text

  /** A Notion property value as far as the webhook looks at it: a rich-text
      property (its `plain_text` pieces), a select property (its option, or
      `null`), or a property of any other type. */
  datatype Property = RichText(pieces: seq<string>) | Select(option: Option<string>) | Other

  /** A page's `properties` bag, keyed by property name. */
  type Properties = map<string, Property>

  /** `properties[name]`, which is `undefined` when the page has no such property. */
  function Lookup(props: Properties, name: string): (p: Option<Property>)
    ensures p.Some? <==> name in props
    ensures p.Some? ==> p.value == props[name]
  {
    if name in props then Some(props[name]) else None
  }

  /** `getRichText`: the pieces joined in order, or "" for an absent property
      or one whose type is not rich text. */
  function GetRichText(p: Option<Property>): (r: string)
    ensures r != "" ==> p.Some? && p.value.RichText?
    ensures p.Some? && p.value.RichText? ==> r == Concat(p.value.pieces)
  {
    match p
    case Some(RichText(pieces)) => Concat(pieces)
    case _ => ""
  }

  /** `getSelect`: the selected option's name, or "" for an absent property,
      one whose type is not select, or a select with no option. */
  function GetSelect(p: Option<Property>): (r: string)
    ensures r != "" ==> p == Some(Select(Some(r)))
    ensures p.Some? && p.value.Select? && p.value.option.Some? ==> r == p.value.option.value
  {
    match p
    case Some(Select(Some(name))) => name
    case _ => ""
  }

  /** The fields of a watchlist page used by the alert. */
  datatype WatchlistFields = WatchlistFields(
    entryConditions: string,
    invalidationLevel: string,
    industryETF: string,
    demandZone: string,
    tier: string,
    strengthLevel: string,
    pivotLevel: string,
    executionLines: string)

  /** `value` is what `getRichText` gives for property `name`: the pieces of
      a present rich-text property, and "" for any other property. */
  predicate RichTextField(props: Properties, name: string, value: string)
  {
    (value != "" ==> name in props && props[name].RichText?) &&
    (name in props && props[name].RichText? ==> value == Concat(props[name].pieces))
  }

  /** `value` is what `getSelect` gives for property `name`: the option of a
      present select property with a chosen option, and "" otherwise. */
  predicate SelectField(props: Properties, name: string, value: string)
  {
    (value != "" ==> name in props && props[name] == Select(Some(value))) &&
    (name in props && props[name].Select? && props[name].option.Some? ==> value == props[name].option.value)
  }

  /** The extraction of every field from a page's properties, each by its
      Notion property name; "Tier" is the only select property. */
  function ExtractFields(props: Properties): (f: WatchlistFields)
    ensures RichTextField(props, "Entry Conditions", f.entryConditions)
    ensures RichTextField(props, "Invalidation Level", f.invalidationLevel)
    ensures RichTextField(props, "Industry ETF", f.industryETF)
    ensures RichTextField(props, "Demand Zone", f.demandZone)
    ensures SelectField(props, "Tier", f.tier)
    ensures RichTextField(props, "Strength Level", f.strengthLevel)
    ensures RichTextField(props, "Pivot Level", f.pivotLevel)
    ensures RichTextField(props, "Execution Lines", f.executionLines)
  {
    WatchlistFields(
      entryConditions := GetRichText(Lookup(props, "Entry Conditions")),
      invalidationLevel := GetRichText(Lookup(props, "Invalidation Level")),
      industryETF := GetRichText(Lookup(props, "Industry ETF")),
      demandZone := GetRichText(Lookup(props, "Demand Zone")),
      tier := GetSelect(Lookup(props, "Tier")),
      strengthLevel := GetRichText(Lookup(props, "Strength Level")),
      pivotLevel := GetRichText(Lookup(props, "Pivot Level")),
      executionLines := GetRichText(Lookup(props, "Execution Lines")))
  }

  /** The two characterisations pin a field down: any value meeting one is
      the value `getRichText` or `getSelect` returns for that property. */
  lemma FieldsDetermined(props: Properties, name: string, value: string)
    ensures RichTextField(props, name, value) <==> value == GetRichText(Lookup(props, name))
    ensures SelectField(props, name, value) <==> value == GetSelect(Lookup(props, name))
  {
  }

  /** A page without any of the properties yields every field empty. */
  lemma EmptyPageFields()
    ensures ExtractFields(map[]) == WatchlistFields("", "", "", "", "", "", "", "")
  {
  }

  /** Rich text's pieces keep their order: each piece sits in the result right
      after the text of the pieces before it. */
  lemma RichTextInOrder(pieces: seq<string>, i: nat)
    requires i < |pieces|
    ensures var r := GetRichText(Some(RichText(pieces)));
      var off := |Concat(pieces[..i])|;
      off + |pieces[i]| <= |r| && r[off..off + |pieces[i]|] == pieces[i]
  {
    PieceAt(pieces, i);
  }
}
