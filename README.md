# Trading-alert webhook, modelled in Dafny

This project models the Netlify function `netlify/functions/webhook.js`. A
TradingView alert (a JSON body with `ticker`, `price` and an optional
`level`) arrives by POST. The function then does the following:

- looks the uppercased ticker up in a Notion watchlist database;
- flattens the first matching page's properties into plain strings;
- derives up to three warnings: a Radar-tier stock, paused entry conditions,
  and an entry date older than seven days;
- picks the emoji and colour of the price level;
- builds a Discord embed, posts it, and answers with a status code.

Modules, one per concern of the source:

| module | file | models |
|---|---|---|
| `Wrappers` | `wrappers.dfy` | `Option` |
| `Text` | `text.dfy` | string helpers: ASCII case mapping, `includes`, `join`, `parseInt` of digit runs, `push`, the names every object inherits from `Object.prototype` |
| `NotionProps` | `notion_props.dfy` | `getRichText`, `getSelect`, the extraction of a page's fields |
| `EntryDate` | `entry_date.dfy` | `parseEntryDate`: a scanner for its regular expression, the month table, the `Date` arguments |
| `Alerts` | `alerts.dfy` | `isStale` and `getWarnings` (an imperative method proved against a specification function) |
| `Levels` | `levels.dfy` | `LEVEL_CONFIG`, its lookup with fallback, the Radar colour override |
| `EmbedFormat` | `embed.dfy` | `buildEmbed` (an imperative method that grows the description), with its specification as a list of sections |
| `Webhook` | `webhook.dfy` | the handler's decision flow, with Notion and Discord as abstract inputs |

The clock is a parameter. `now` is the current time in milliseconds, and
`timestamp` is the embed's ISO time string. The `Date` constructor is the
function parameter `dateMs`, from a calendar date to its time value.

## Model

| member | source | states |
|---|---|---|
| Text.Upper | netlify/functions/webhook.js:49 | `toUpperCase`: same length, each lower-case ASCII letter becomes its own capital, every other character unchanged |
| Text.Lower | netlify/functions/webhook.js:185 | `toLowerCase` of the month word: same length, each capital ASCII letter becomes its own lower-case letter, every other character unchanged |
| Text.Join | netlify/functions/webhook.js:218 | `join` of no pieces is "", of a single warning that warning, and the first warning always starts the joined text |
| Text.JoinSeparated | netlify/functions/webhook.js:218 | `join` gives the first piece, then every later piece in order with the separator in front of it, and nothing else |
| Text.ConcatAppend | netlify/functions/webhook.js:134 | joining rich-text pieces with `''` distributes over splitting the list of pieces |
| Text.PushIf | netlify/functions/webhook.js:143-158 | `push` under a condition appends exactly one element when the condition holds and nothing otherwise |
| Text.ParseDigits | netlify/functions/webhook.js:188 | `parseInt` of a zero-padded decimal gives back the number written |
| Text.ParseDecimalBound | netlify/functions/webhook.js:166-188 | a day of at most two digits is below 100 and a four-digit year below 10000 |
| NotionProps.Lookup | netlify/functions/webhook.js:72-79 | `properties[name]` is present exactly when the page has that property, and is that property |
| NotionProps.GetRichText | netlify/functions/webhook.js:132-135 | a non-empty result comes only from a present `rich_text` property, and that property's result is the concatenation of its pieces |
| NotionProps.GetSelect | netlify/functions/webhook.js:137-140 | a non-empty result comes only from a present `select` property with a chosen option, and is that option's name |
| NotionProps.ExtractFields | netlify/functions/webhook.js:71-79 | each of the eight fields is read from its own property: the tier is the option of the "Tier" select property, the other seven the joined pieces of the rich-text property of their name, and "" when that property is absent or of another type |
| NotionProps.FieldsDetermined | netlify/functions/webhook.js:71-79 | those per-field statements hold of exactly one value, the one `getRichText` or `getSelect` returns |
| NotionProps.EmptyPageFields | netlify/functions/webhook.js:71-79 | a page without properties yields every field as `""` |
| NotionProps.RichTextInOrder | netlify/functions/webhook.js:134 | each rich-text piece appears in the result right after the pieces before it, so order is kept |
| EntryDate.SkipWhileRun | netlify/functions/webhook.js:166 | a greedy `\s*`, `\d`, `\w+` run covers only characters of its class and stops before one outside it |
| EntryDate.SkipWhileStops | netlify/functions/webhook.js:166 | a run of a class that cannot be extended is exactly where the greedy scan stops |
| EntryDate.MatchAt | netlify/functions/webhook.js:166 | a successful attempt at position p is a match of `ENTRY DATE:\s*(\d{1,2})\s+(\w+)\s+(\d{4})` (header in any ASCII case) starting at p |
| EntryDate.MatchAtComplete | netlify/functions/webhook.js:166 | every match of the expression at a position is found by the scanner there, with the same groups |
| EntryDate.NoHeaderNoMatch | netlify/functions/webhook.js:166 | no match starts where "ENTRY DATE:" (any case) does not |
| EntryDate.FirstMatch | netlify/functions/webhook.js:166-167 | the match `match` returns is the leftmost: no attempt before it succeeds, and none succeeds at all when it finds nothing |
| EntryDate.FirstMatchIs | netlify/functions/webhook.js:166 | a match with no header before it is the match returned |
| EntryDate.MonthNumbers | netlify/functions/webhook.js:170-183 | every month-table entry is a month index below 12 |
| EntryDate.MonthAbbreviations | netlify/functions/webhook.js:170-183 | each three-letter abbreviation maps to its zero-based month |
| EntryDate.DateOf | netlify/functions/webhook.js:169-188 | the `Date` arguments of a match have a month below 12, a day below 100 and a year below 10000 |
| EntryDate.ParseEntryDate | netlify/functions/webhook.js:164-189 | `parseEntryDate` as written; a valid date has the bounds above |
| EntryDate.ParseEntryDateStrict | netlify/functions/webhook.js:164-189 | `parseEntryDate` as intended: a date exactly when there is a first match and its lower-cased month word is in the table |
| EntryDate.ParseEntryDateAgrees | netlify/functions/webhook.js:185-186 | both readings give the same valid dates; the as-written one differs only by an invalid date, for a month word that is an inherited key |
| EntryDate.NoHeaderNoDate | netlify/functions/webhook.js:166-167 | text without "ENTRY DATE:" in any case has no entry date, and nothing fails |
| EntryDate.FirstMatchDecides | netlify/functions/webhook.js:166-186 | only the first match is tried: its month word alone decides between a date and nothing |
| EntryDate.WrittenDatePattern | netlify/functions/webhook.js:166 | header, single spaces, one or two digits, a word and four digits form a match with the groups at the written places |
| EntryDate.WrittenDateMatches | netlify/functions/webhook.js:166 | after text in which no header starts, such a written date is the first match |
| EntryDate.ParseWrittenDate | netlify/functions/webhook.js:164-189 | round trip: after text in which no header starts, a written day, month name and year parse back to that day, the month's index and that year |
| EntryDate.DateAfterNotes | netlify/functions/webhook.js:164-189 | notes before the header do not matter: "Retest first. ENTRY DATE: 14 Jan 2026" gives 14 January 2026 |
| EntryDate.InheritedMonthGivesInvalidDate | netlify/functions/webhook.js:185-188 | "ENTRY DATE: 1 constructor 2020" yields an invalid date as written and no date as intended |
| EntryDate.ConstructorIsInheritedKey | netlify/functions/webhook.js:185 | "constructor" is not a month but is a name every object inherits |
| EntryDate.WrittenConstructorDate | netlify/functions/webhook.js:166 | "ENTRY DATE: 1 constructor 2020" is the first match, with "constructor" as month word |
| Alerts.IsStale | netlify/functions/webhook.js:191-196 | the real-valued age in days exceeds 7 exactly when the age in milliseconds exceeds 7 × 86 400 000 |
| Alerts.StalenessIsStrict | netlify/functions/webhook.js:191-196 | exactly seven days is not stale, one millisecond more is, a future date never is, and staleness persists for later times and earlier dates |
| Alerts.PausedIsCaseSensitive | netlify/functions/webhook.js:151 | "PAUSED" and "DO NOT ENTER" pause an entry; their lower-case forms do not |
| Alerts.StaleTestUnaffected | netlify/functions/webhook.js:156-157 | the stale test as written (an invalid date is truthy but never stale) equals the test on the corrected date parser |
| Alerts.Message | netlify/functions/webhook.js:147-158 | each warning has its own non-empty text, exactly the one the source pushes |
| Alerts.WarningsDistinct | netlify/functions/webhook.js:147-158 | the three warning texts differ from each other |
| Alerts.Messages | netlify/functions/webhook.js:142-161 | the texts of a warning list, one per warning, in order |
| Alerts.WarningList | netlify/functions/webhook.js:142-161 | at most three warnings |
| Alerts.WarningListContents | netlify/functions/webhook.js:142-161 | each warning is present exactly when its condition holds, in the order Radar, paused, stale, without repetition |
| Alerts.WarningsContents | netlify/functions/webhook.js:142-161 | Radar exactly for tier "Radar", paused exactly when the conditions contain "PAUSED" or "DO NOT ENTER", stale exactly for a parsed date older than seven days, in that order |
| Alerts.MessagesAppend | netlify/functions/webhook.js:147-158 | pushing a warning appends its text |
| Alerts.GetWarnings | netlify/functions/webhook.js:142-161 | the method's pushes return exactly the texts of the specified warning list |
| Levels.Style | netlify/functions/webhook.js:85 | every level gets a table entry with a table colour; an unknown level gets the execution entry |
| Levels.KnownLevelsKeepTheirStyle | netlify/functions/webhook.js:7-13 | the five levels keep their own emoji and colour |
| Levels.LookupAsWritten | netlify/functions/webhook.js:85 | the object lookup finds an own entry exactly for the five levels, and an inherited property exactly for the inherited names |
| Levels.AppearanceAsWritten | netlify/functions/webhook.js:85-87 | as written, a Radar tier is red, and every level that is not an inherited name looks as intended |
| Levels.AppearanceOf | netlify/functions/webhook.js:85-87 | as intended, every alert has a table colour and its level's (or the fallback) emoji |
| Levels.InheritedLevelLosesStyle | netlify/functions/webhook.js:85-87 | level "toString" gets emoji text "undefined" and no colour as written, the execution style as intended |
| Levels.EmbedColor | netlify/functions/webhook.js:86 | red for tier "Radar", the level's colour otherwise |
| Levels.ColorOverride | netlify/functions/webhook.js:85-87 | a Radar alert is red whatever its level; otherwise a known level has its colour and an unknown one the execution blue |
| EmbedFormat.OrDash | netlify/functions/webhook.js:228-232 | the value-or-dash fallback is never empty, is the value when given and "-" when empty |
| EmbedFormat.RenderAllAppend | netlify/functions/webhook.js:214-245 | the rendering of sections distributes over splitting their list |
| EmbedFormat.SectionsOrdered | netlify/functions/webhook.js:214-245 | the description's sections come in the fixed order, each at most once, each the record's own |
| EmbedFormat.WarningsAndTierSections | netlify/functions/webhook.js:216-224 | the warnings block appears exactly when there are warnings, the tier line exactly when the tier is non-empty |
| EmbedFormat.PlayAndSectorSections | netlify/functions/webhook.js:234-242 | the PLAY block appears exactly when there are entry conditions, the sector line exactly when there is an industry ETF |
| EmbedFormat.FixedSections | netlify/functions/webhook.js:226-245 | the LEVELS header and its five lines are always present, and the chart link is always last |
| EmbedFormat.LevelLinesShown | netlify/functions/webhook.js:226-232 | the description always holds the five labelled level lines, each with its value or "-" |
| EmbedFormat.EndsWithChartLink | netlify/functions/webhook.js:244-245 | the description ends with the TradingView chart link of the ticker |
| EmbedFormat.Title | netlify/functions/webhook.js:248 | the title is the emoji and ticker followed by " hit $", the price and the level in brackets, and nothing else |
| EmbedFormat.EmbedOf | netlify/functions/webhook.js:247-252 | the embed keeps the colour and timestamp, its title ends with the level, its description renders the sections |
| EmbedFormat.AppendHead | netlify/functions/webhook.js:216-224 | appending the warnings block and the tier line, each only when its source is non-empty, keeps the description the rendering of the sections appended |
| EmbedFormat.AppendLevels | netlify/functions/webhook.js:226-232 | appending the LEVELS header and the five level lines keeps the description the rendering of the sections appended |
| EmbedFormat.AppendTail | netlify/functions/webhook.js:234-245 | appending the PLAY block and the sector line when non-empty, then the chart link, keeps the description the rendering of the sections appended |
| EmbedFormat.BuildEmbed | netlify/functions/webhook.js:198-253 | the method that grows the description step by step returns the specified embed: after each append the description is the rendering of the sections so far, and at the end of the whole section list |
| Webhook.LevelOf | netlify/functions/webhook.js:33 | the level defaults to "execution" only when absent |
| Webhook.ToText | netlify/functions/webhook.js:248 | `null` converts to "null", a boolean to "true" or "false", a number to its text and a string to itself; an object converts to "[object Object]" exactly when it has no own `toString` property, and throws otherwise |
| Webhook.ElementTexts | netlify/functions/webhook.js:248 | converted elements give one text per element |
| Webhook.ElementTextsMeaning | netlify/functions/webhook.js:248 | an array's elements convert exactly when each non-null one does, and then each gives its own text, "" for `null` |
| Webhook.ArrayText | netlify/functions/webhook.js:248 | an array converts exactly when each non-null element does, to the element texts separated by commas; the empty array converts to "" |
| Webhook.ConversionExamples | netlify/functions/webhook.js:85 | `{"toString": 1}` throws, also inside an array; `{"valueOf": 1}` gives "[object Object]"; `["pivot"]` gives "pivot"; `[1, null, 2]` gives "1,,2" |
| Webhook.AlertInput | netlify/functions/webhook.js:71-105 | the embed argument has the uppercased ticker, the price and level texts, the level's emoji, the colour of the tier and level, each of the page's eight fields, and the warnings of its tier and entry conditions |
| Webhook.Handle | netlify/functions/webhook.js:15-129 | only statuses 200, 400, 404, 405, 500 or a rejection; Notion is queried only on POST; an embed is posted only after Notion returned results; success implies a posted embed; a rejection posts nothing and happens exactly for a `null` body or for a found page whose embed was not posted |
| Webhook.Answer | netlify/functions/webhook.js:42-129 | after the query: the uppercased ticker was queried; an embed is posted exactly when a page was found and the price and level convert to strings; a rejection exactly when a page was found and one of them does not; success exactly when the embed was posted and Discord accepted |
| Webhook.MethodNotAllowed | netlify/functions/webhook.js:16-21 | any method but POST gets 405, with no query and no post |
| Webhook.BadBodies | netlify/functions/webhook.js:23-33 | a body that is not JSON gets 400; a `null` body makes the handler throw; neither queries Notion |
| Webhook.RequiredFieldsFirst | netlify/functions/webhook.js:35-40 | 400 "Missing required fields" exactly when the ticker or price is absent or falsy, with no query; a price of 0 is refused |
| Webhook.NonStringTicker | netlify/functions/webhook.js:42-59 | a truthy non-string ticker fails `toUpperCase` inside the query's try: 500, Notion never called |
| Webhook.NotFoundEchoesRawTicker | netlify/functions/webhook.js:42-66 | the query uses the uppercased ticker; a failed query gives 500; no result gives 404 naming the ticker as received |
| Webhook.LowerCaseTickerNotFound | netlify/functions/webhook.js:42-66 | "aapl" is queried as "AAPL" and the 404 says "Ticker aapl not found in watchlist" |
| Webhook.FoundPagePosted | netlify/functions/webhook.js:68-129 | a found page's alert embed is posted when the price and level convert: 200 with the uppercased ticker if Discord accepts, 500 otherwise; if either does not convert, a rejection and no post |
| Webhook.OwnToStringPriceRejected | netlify/functions/webhook.js:68-105 | `{"ticker": "AAPL", "price": {"toString": 1}}` for a watched ticker: Notion is queried for "AAPL", then the handler rejects and posts nothing |
| Webhook.SuccessIff | netlify/functions/webhook.js:15-129 | 200 exactly for POST, a non-empty string ticker, a truthy price, a found page, a price and level that convert to strings, and an accepted post |
| Webhook.UppercaseTickerThroughout | netlify/functions/webhook.js:42-129 | the query, the success reply and the chart link all use the uppercased ticker |
| Webhook.LevelEchoedInTitle | netlify/functions/webhook.js:33-105 | a level sent as a string, or left out (then "execution"), is echoed as given: for a found page and a convertible price, the posted title starts with that level's emoji and the uppercased ticker and ends with the level in brackets |
| Webhook.AlertEmbedShape | netlify/functions/webhook.js:85-105 | the title starts with the level's emoji (the execution emoji for an unknown level) and the uppercased ticker and ends with the level as given; a Radar page is red and shows the Radar warning block |

## Left out

- The Notion client query and the Discord `fetch`: they are the abstract inputs `notion` (failure or the matching pages) and `delivered`. Only the pages' `properties` are modelled.
- `process.env`, `console.error`, `JSON.parse` and `JSON.stringify`: the parsed body is the structured input `Payload`, and a response body is the `Reply` datatype.
- What Netlify makes of a rejected handler promise (a `null` body, or a price or level that cannot be converted to a string) is outside the function; the model stops at `Rejected`.
- `new Date()` and `toISOString()` are the parameters `now` and `timestamp`. The `Date` constructor's local time zone and day overflow are hidden behind the function `dateMs`.
- The floating-point division in `isStale` is stated over reals and proved equal to the integer comparison. It is exact because time values are whole milliseconds.
- JavaScript's number-to-string conversion is the opaque text carried by `JNumber`. Arrays and objects are converted as `String` does; of an object's own properties only the name `toString` matters there, so the model keeps just the names.
- `Text.Upper`: maps ASCII letters only. The full Unicode mapping of `toUpperCase` (for example "ß" to "SS") is not modelled. Every other character is kept.
- `Text.Lower`: maps ASCII letters only. Exact for the month word, which `\w` restricts to ASCII.
- The regular expression's `/i` matching is modelled as ASCII case folding. Without the `u` flag, non-ASCII characters never fold onto the ASCII letters of "ENTRY DATE:".
- Strings are sequences of Unicode scalar values, not UTF-16 code units, so a length stated of a text with an emoji (such as the title's) counts the emoji as one character. Nothing in the webhook depends on a length.
- Emoji and message texts are opaque string constants.
- The handler uses the corrected level lookup and the corrected date parser. The as-written readings and their differences are below.
- `netlify/functions/test-discord.js` is not part of this model. It only checks an environment variable and posts one fixed message.

## Findings

| source | as written | input that shows it | evidently intended | confidence | as-written member | corrected member |
|---|---|---|---|---|---|---|
| netlify/functions/webhook.js:185-188 | `monthMap[month.toLowerCase()]` also finds the names every object inherits from `Object.prototype`, which `=== undefined` does not catch; `new Date` then receives a non-numeric month and returns an invalid date instead of `null` | entry conditions "ENTRY DATE: 1 constructor 2020" | `null` for every word that is not a month name | not executed; harmless for the warnings, since an invalid date is never stale (`Alerts.StaleTestUnaffected`) | `EntryDate.InheritedMonthGivesInvalidDate` (on `EntryDate.ParseEntryDate`) | `EntryDate.ParseEntryDateStrict` |
| netlify/functions/webhook.js:85-87 | the fallback lookup of `LEVEL_CONFIG` takes an inherited property (a function, or the prototype for "__proto__") as the level's entry, so the fallback is skipped and `emoji` and `color` are `undefined` | alert with `"level": "toString"` and a non-Radar page | the execution emoji and colour for every unknown level | not executed | `Levels.InheritedLevelLosesStyle` (on `Levels.AppearanceAsWritten`) | `Levels.AppearanceOf`, `Levels.Style` |
