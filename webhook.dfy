/** The decision flow of the Netlify function `handler`: method check, body
    parsing, required fields, the watchlist lookup in Notion, the embed and
    its delivery to Discord. The two services are abstract inputs: `notion`
    is the outcome of querying the watchlist for a ticker, `delivered` says
    whether Discord accepted the post. The clock is `now` (for the stale
    test), `dateMs` (the `Date` constructor) and `timestamp` (the embed's
    ISO time). */
module Webhook {
  import opened Wrappers
  import opened Text
  import opened NotionProps
  import opened EntryDate
  import opened Alerts
  import opened Levels
  import opened EmbedFormat

  /** A JSON value as the handler sees it: its truthiness and what it
      converts to. A number keeps whether it is zero and its `toString`
      text; an array keeps its elements; an object keeps the names of its
      own properties. */
  datatype JsonValue =
    | JNull
    | JBool(b: bool)
    | JNumber(isZero: bool, text: string)
    | JString(s: string)
    | JArray(elems: seq<JsonValue>)
    | JObject(keys: set<string>)

  /** JavaScript truthiness of a JSON value (`NaN` cannot come from JSON). */
  predicate Truthy(v: JsonValue)
  {
    match v
    case JNull => false
    case JBool(b) => b
    case JNumber(isZero, _) => !isZero
    case JString(s) => s != ""
    case JArray(_) => true
    case JObject(_) => true
  }

  /** `String(v)`, as a template literal or a property key converts it, or
      `None` when the conversion throws. An object converts through its
      `toString` method: the inherited one gives "[object Object]", but an
      own `toString` property parsed from JSON is no function, and the
      inherited `valueOf` tried next returns the object itself, so a
      TypeError is thrown. An array converts through `join(',')`: a `null`
      element becomes "", any other element is converted in turn. */
  function ToText(v: JsonValue): (r: Option<string>)
    ensures !v.JObject? && !v.JArray? ==> r.Some?
    ensures v.JNull? ==> r == Some("null")
    ensures v.JBool? ==> r == Some(if v.b then "true" else "false")
    ensures v.JNumber? ==> r == Some(v.text)
    ensures v.JString? ==> r == Some(v.s)
    ensures v.JObject? ==> (r.None? <==> "toString" in v.keys)
    ensures v.JObject? && r.Some? ==> r.value == "[object Object]"
    decreases v, 1
  {
    match v
    case JNull => Some("null")
    case JBool(b) => Some(if b then "true" else "false")
    case JNumber(_, text) => Some(text)
    case JString(s) => Some(s)
    case JObject(keys) => if "toString" in keys then None else Some("[object Object]")
    case JArray(elems) =>
      match ElementTexts(elems)
      case None => None
      case Some(texts) => Some(Join(texts, ","))
  }

  /** The texts `join` gives an array's elements, in order: "" for `null`,
      the element's own text otherwise; `None` when one of them throws. */
  function ElementTexts(elems: seq<JsonValue>): (r: Option<seq<string>>)
    ensures r.Some? ==> |r.value| == |elems|
    decreases elems, 0
  {
    if |elems| == 0 then Some([])
    else
      var init, last := elems[..|elems| - 1], elems[|elems| - 1];
      var rest := ElementTexts(init);
      if rest.None? then None
      else if last.JNull? then Some(rest.value + [""])
      else if ToText(last).None? then None
      else Some(rest.value + [ToText(last).value])
  }

  /** The elements convert exactly when each one that is not `null` does,
      and then each has its own text, "" for `null`. */
  lemma {:induction false} ElementTextsMeaning(elems: seq<JsonValue>)
    ensures ElementTexts(elems).Some? <==> forall i :: 0 <= i < |elems| && !elems[i].JNull? ==> ToText(elems[i]).Some?
    ensures ElementTexts(elems).Some? ==> forall i :: 0 <= i < |elems| ==>
      (elems[i].JNull? && ElementTexts(elems).value[i] == "") ||
      (!elems[i].JNull? && ToText(elems[i]) == Some(ElementTexts(elems).value[i]))
    decreases |elems|
  {
    if |elems| > 0 {
      var init, last := elems[..|elems| - 1], elems[|elems| - 1];
      ElementTextsMeaning(init);
      assert forall i :: 0 <= i < |init| ==> init[i] == elems[i];
      var r := ElementTexts(elems);
      if r.Some? {
        var texts := ElementTexts(init).value;
        assert r.value == texts + [r.value[|elems| - 1]];
      }
    }
  }

  /** An array converts exactly when each element that is not `null` does,
      and its text is then the elements' texts joined with commas: "" for
      the empty array, otherwise the first text and a comma before every
      later one. */
  lemma ArrayText(elems: seq<JsonValue>)
    ensures ToText(JArray(elems)).Some? <==> forall i :: 0 <= i < |elems| && !elems[i].JNull? ==> ToText(elems[i]).Some?
    ensures ToText(JArray(elems)).Some? ==> ToText(JArray(elems)).value == Join(ElementTexts(elems).value, ",")
    ensures |elems| == 0 ==> ToText(JArray(elems)) == Some("")
    ensures ToText(JArray(elems)).Some? && |elems| > 0 ==>
      var texts := ElementTexts(elems).value;
      ToText(JArray(elems)).value == texts[0] + Concat(Separated(texts[1..], ","))
  {
    ElementTextsMeaning(elems);
    if ToText(JArray(elems)).Some? && |elems| > 0 {
      JoinSeparated(ElementTexts(elems).value, ",");
    }
  }

  /** Conversions of values an alert may carry: `{"toString": 1}` throws,
      also inside an array, while an object with only other own properties
      converts to "[object Object]" and `null` elements of an array to
      nothing. */
  lemma ConversionExamples()
    ensures ToText(JObject({"toString"})) == None
    ensures ToText(JArray([JNumber(false, "1"), JObject({"toString"})])) == None
    ensures ToText(JObject({"valueOf"})) == Some("[object Object]")
    ensures ToText(JArray([JString("pivot")])) == Some("pivot")
    ensures ToText(JArray([JNumber(false, "1"), JNull, JNumber(false, "2")])) == Some("1,,2")
  {
    var three := [JNumber(false, "1"), JNull, JNumber(false, "2")];
    assert three[..2][..1] == three[..1] && three[..1][..0] == [];
    assert ElementTexts([]) == Some([]);
    assert ToText(three[0]) == Some("1");
    assert ElementTexts(three[..1]) == Some([] + ["1"]);
    assert [] + ["1"] == ["1"];
    var two := three[..2];
    assert two[..|two| - 1] == three[..1] && two[|two| - 1] == JNull;
    assert ElementTexts(two) == Some(["1"] + [""]);
    assert ["1"] + [""] == ["1", ""];
    assert ToText(three[2]) == Some("2");
    assert three[..|three| - 1] == two && three[|three| - 1] == JNumber(false, "2");
    assert ElementTexts(three) == Some(["1", ""] + ["2"]);
    assert Join(["1", "", "2"], ",") == "1,,2";
    var bad := [JNumber(false, "1"), JObject({"toString"})];
    assert ToText(bad[1]) == None;
  }

  /** The parsed body. `Fields` holds the `ticker`, `price` and `level`
      properties, `None` when a property is absent; a body that is a
      number, string, boolean or array has none of them. Destructuring
      `null` throws. */
  datatype Payload = NullPayload | Fields(ticker: Option<JsonValue>, price: Option<JsonValue>, level: Option<JsonValue>)

  /** The event: its HTTP method and its body, `None` when `JSON.parse`
      rejects it. */
  datatype Request = Request(httpMethod: string, body: Option<Payload>)

  /** The outcome of the Notion query: an error, or the matching pages'
      properties in the order Notion returns them. */
  datatype QueryResult = QueryFailed | Results(pages: seq<Properties>)

  /** The JSON body of a response. */
  datatype Reply = ErrorReply(error: string) | SuccessReply(ticker: string)

  /** A response, or a rejected promise (an exception nobody catches). */
  datatype Outcome = Responded(statusCode: nat, reply: Reply) | Rejected

  /** What one invocation does: its outcome, the ticker it queried Notion
      for, if any, and the embed it posted to Discord, if any. */
  datatype Run = Run(outcome: Outcome, queried: Option<string>, posted: Option<Embed>)

  const NotAllowed := ErrorReply("Method not allowed")
  const InvalidJson := ErrorReply("Invalid JSON payload")
  const MissingFields := ErrorReply("Missing required fields: ticker and price")
  const QueryError := ErrorReply("Failed to query Notion database")
  const PostError := ErrorReply("Failed to post to Discord")

  function NotFound(ticker: string): (r: Reply)
  {
    ErrorReply("Ticker " + ticker + " not found in watchlist")
  }

  /** A property that is present and truthy. */
  predicate Given(v: Option<JsonValue>)
  {
    v.Some? && Truthy(v.value)
  }

  /** `level = 'execution'`: the default applies only to an absent level. */
  function LevelOf(level: Option<JsonValue>): (r: JsonValue)
    ensures level.None? ==> r == JString("execution")
    ensures level.Some? ==> r == level.value
  {
    match level
    case None => JString("execution")
    case Some(v) => v
  }

  /** The `buildEmbed` argument for a watchlist page, given the texts of the
      price and the level: the uppercased ticker, the level's emoji, the
      colour of the tier and level, the page's eight fields and the
      warnings of its tier and entry conditions. */
  function AlertInput(ticker: string, price: string, level: string, page: Properties,
                      now: int, dateMs: CalendarDate -> int): (f: EmbedInput)
    ensures f.ticker == Upper(ticker) && f.price == price && f.level == level
    ensures f.emoji == Style(level).emoji
    ensures f.color == EmbedColor(f.tier, Style(level))
    ensures var fields := ExtractFields(page);
      f.tier == fields.tier && f.entryConditions == fields.entryConditions &&
      f.strengthLevel == fields.strengthLevel && f.pivotLevel == fields.pivotLevel &&
      f.demandZone == fields.demandZone && f.executionLines == fields.executionLines &&
      f.invalidationLevel == fields.invalidationLevel && f.industryETF == fields.industryETF
    ensures f.warnings == Messages(Warnings(f.tier, f.entryConditions, now, dateMs))
  {
    var fields := ExtractFields(page);
    var style := Style(level);
    EmbedInput(
      ticker := Upper(ticker),
      price := price,
      level := level,
      emoji := style.emoji,
      color := EmbedColor(fields.tier, style),
      warnings := Messages(Warnings(fields.tier, fields.entryConditions, now, dateMs)),
      tier := fields.tier,
      strengthLevel := fields.strengthLevel,
      pivotLevel := fields.pivotLevel,
      demandZone := fields.demandZone,
      executionLines := fields.executionLines,
      invalidationLevel := fields.invalidationLevel,
      entryConditions := fields.entryConditions,
      industryETF := fields.industryETF)
  }

  /** `handler`: a chain of early returns. A rejection comes from a `null`
      body, or from a price or level that cannot be converted to a string
      once a page was found; nothing is posted then. */
  function Handle(req: Request, notion: string -> QueryResult, delivered: bool,
                  now: int, dateMs: CalendarDate -> int, timestamp: string): (run: Run)
    ensures run.outcome.Responded? ==> run.outcome.statusCode in {200, 400, 404, 405, 500}
    ensures run.queried.Some? ==> req.httpMethod == "POST"
    ensures run.posted.Some? ==> run.queried.Some? && notion(run.queried.value).Results?
    ensures run.outcome.Responded? && run.outcome.statusCode == 200 ==> run.posted.Some?
    ensures run.outcome.Rejected? ==> run.posted.None?
    ensures run.outcome.Rejected? <==>
      (req.httpMethod == "POST" && req.body == Some(NullPayload)) ||
      (run.queried.Some? && notion(run.queried.value).Results? && |notion(run.queried.value).pages| > 0 &&
       run.posted.None?)
  {
    if req.httpMethod != "POST" then
      Run(Responded(405, NotAllowed), None, None)
    else if req.body.None? then
      Run(Responded(400, InvalidJson), None, None)
    else
      match req.body.value
      case NullPayload => Run(Rejected, None, None)
      case Fields(ticker, price, level) =>
        if !Given(ticker) || !Given(price) then
          Run(Responded(400, MissingFields), None, None)
        else if !ticker.value.JString? then
          // `toUpperCase` is not a function: the throw is caught with the
          // query's errors
          Run(Responded(500, QueryError), None, None)
        else
          var t := ticker.value.s;
          Answer(t, price.value, LevelOf(level), notion(Upper(t)), delivered, now, dateMs, timestamp)
  }

  /** Both the price and the level convert to strings. */
  predicate Printable(price: JsonValue, level: JsonValue)
  {
    ToText(price).Some? && ToText(level).Some?
  }

  /** The rest of the handler once Notion has been queried for the
      uppercased ticker: the page lookup, the embed and its delivery. The
      level becomes a property key when the level's style is looked up, and
      the price and level go into the title; a conversion that throws there
      is caught by nothing, so the handler rejects and posts nothing. */
  function Answer(ticker: string, price: JsonValue, level: JsonValue, result: QueryResult, delivered: bool,
                  now: int, dateMs: CalendarDate -> int, timestamp: string): (run: Run)
    ensures run.queried == Some(Upper(ticker))
    ensures run.posted.Some? <==> result.Results? && |result.pages| > 0 && Printable(price, level)
    ensures run.outcome.Rejected? <==> result.Results? && |result.pages| > 0 && !Printable(price, level)
    ensures run.outcome.Responded? && run.outcome.statusCode == 200 <==>
      result.Results? && |result.pages| > 0 && Printable(price, level) && delivered
  {
    var key := Upper(ticker);
    match result
    case QueryFailed => Run(Responded(500, QueryError), Some(key), None)
    case Results(pages) =>
      if |pages| == 0 then
        Run(Responded(404, NotFound(ticker)), Some(key), None)
      else if !Printable(price, level) then
        Run(Rejected, Some(key), None)
      else
        var embed := AlertEmbed(ticker, ToText(price).value, ToText(level).value, pages[0], now, dateMs, timestamp);
        if !delivered then Run(Responded(500, PostError), Some(key), Some(embed))
        else Run(Responded(200, SuccessReply(key)), Some(key), Some(embed))
  }

  /** The embed of the alert for a watchlist page. */
  function AlertEmbed(ticker: string, price: string, level: string, page: Properties,
                      now: int, dateMs: CalendarDate -> int, timestamp: string): (e: Embed)
  {
    EmbedOf(AlertInput(ticker, price, level, page, now, dateMs), timestamp)
  }

  /** Any method other than POST is refused before the body is read. */
  lemma MethodNotAllowed(req: Request, notion: string -> QueryResult, delivered: bool,
                         now: int, dateMs: CalendarDate -> int, timestamp: string)
    requires req.httpMethod != "POST"
    ensures Handle(req, notion, delivered, now, dateMs, timestamp) == Run(Responded(405, NotAllowed), None, None)
  {
  }

  /** A body that is not JSON is refused; a `null` body makes the handler
      throw. Neither reaches Notion. */
  lemma BadBodies(notion: string -> QueryResult, delivered: bool,
                  now: int, dateMs: CalendarDate -> int, timestamp: string)
    ensures Handle(Request("POST", None), notion, delivered, now, dateMs, timestamp) ==
      Run(Responded(400, InvalidJson), None, None)
    ensures Handle(Request("POST", Some(NullPayload)), notion, delivered, now, dateMs, timestamp) ==
      Run(Rejected, None, None)
  {
  }

  /** A missing or falsy ticker or price is refused with 400 before any
      lookup; a price of 0 counts as missing. */
  lemma RequiredFieldsFirst(ticker: Option<JsonValue>, price: Option<JsonValue>, level: Option<JsonValue>,
                            notion: string -> QueryResult, delivered: bool,
                            now: int, dateMs: CalendarDate -> int, timestamp: string)
    ensures var run := Handle(Request("POST", Some(Fields(ticker, price, level))), notion, delivered, now, dateMs, timestamp);
      run.outcome == Responded(400, MissingFields) <==> !Given(ticker) || !Given(price)
    ensures var run := Handle(Request("POST", Some(Fields(ticker, price, level))), notion, delivered, now, dateMs, timestamp);
      run.outcome == Responded(400, MissingFields) ==> run.queried.None?
    ensures var run := Handle(Request("POST", Some(Fields(ticker, Some(JNumber(true, "0")), level))), notion, delivered, now, dateMs, timestamp);
      run == Run(Responded(400, MissingFields), None, None)
  {
  }

  /** A truthy ticker that is not a string has no `toUpperCase`: the throw
      is caught with the query's errors, and Notion is never called. */
  lemma NonStringTicker(ticker: JsonValue, price: JsonValue, level: Option<JsonValue>,
                        notion: string -> QueryResult, delivered: bool,
                        now: int, dateMs: CalendarDate -> int, timestamp: string)
    requires Truthy(ticker) && Truthy(price) && !ticker.JString?
    ensures Handle(Request("POST", Some(Fields(Some(ticker), Some(price), level))), notion, delivered, now, dateMs, timestamp) ==
      Run(Responded(500, QueryError), None, None)
  {
  }

  /** With a string ticker, Notion is queried for the uppercased ticker; no
      match gives 404 whose message echoes the ticker as received. */
  lemma NotFoundEchoesRawTicker(ticker: string, price: JsonValue, level: Option<JsonValue>,
                                notion: string -> QueryResult, delivered: bool,
                                now: int, dateMs: CalendarDate -> int, timestamp: string)
    requires ticker != "" && Truthy(price)
    ensures var run := Handle(Request("POST", Some(Fields(Some(JString(ticker)), Some(price), level))), notion, delivered, now, dateMs, timestamp);
      run.queried == Some(Upper(ticker)) &&
      (notion(Upper(ticker)) == QueryFailed ==> run.outcome == Responded(500, QueryError) && run.posted.None?) &&
      (notion(Upper(ticker)) == Results([]) ==> run.outcome == Responded(404, NotFound(ticker)) && run.posted.None?)
  {
  }

  lemma UpperAapl()
    ensures Upper("aapl") == "AAPL"
    ensures NotFound("aapl") == ErrorReply("Ticker aapl not found in watchlist")
  {
    assert "Ticker " + "aapl" + " not found in watchlist" == "Ticker aapl not found in watchlist";
    var u := Upper("aapl");
    assert u[0] == 'A' && u[1] == 'A' && u[2] == 'P' && u[3] == 'L';
  }

  /** "aapl" is looked up as "AAPL", and the 404 message says "aapl". */
  lemma LowerCaseTickerNotFound(notion: string -> QueryResult, delivered: bool,
                                now: int, dateMs: CalendarDate -> int, timestamp: string)
    requires notion("AAPL") == Results([])
    ensures Handle(Request("POST", Some(Fields(Some(JString("aapl")), Some(JNumber(false, "187.5")), None))),
                   notion, delivered, now, dateMs, timestamp) ==
      Run(Responded(404, ErrorReply("Ticker aapl not found in watchlist")), Some("AAPL"), None)
  {
    UpperAapl();
    NotFoundEchoesRawTicker("aapl", JNumber(false, "187.5"), None, notion, delivered, now, dateMs, timestamp);
  }

  /** Once the ticker is a non-empty string and the price truthy, the
      handler's answer is that of the query for the uppercased ticker. */
  lemma QueriedAnswer(ticker: string, price: JsonValue, level: Option<JsonValue>,
                      notion: string -> QueryResult, delivered: bool,
                      now: int, dateMs: CalendarDate -> int, timestamp: string)
    requires ticker != "" && Truthy(price)
    ensures Handle(Request("POST", Some(Fields(Some(JString(ticker)), Some(price), level))), notion, delivered, now, dateMs, timestamp) ==
      Answer(ticker, price, LevelOf(level), notion(Upper(ticker)), delivered, now, dateMs, timestamp)
  {
  }

  /** When the first matching page is found, its alert embed is posted if
      the price and level convert to strings: 200 with the uppercased
      ticker when Discord accepts it, 500 otherwise. If either does not
      convert, the handler rejects and nothing is posted. */
  lemma FoundPagePosted(ticker: string, price: JsonValue, level: Option<JsonValue>,
                        notion: string -> QueryResult, delivered: bool,
                        now: int, dateMs: CalendarDate -> int, timestamp: string)
    requires ticker != "" && Truthy(price)
    requires notion(Upper(ticker)).Results? && |notion(Upper(ticker)).pages| > 0
    ensures var run := Handle(Request("POST", Some(Fields(Some(JString(ticker)), Some(price), level))), notion, delivered, now, dateMs, timestamp);
      var page := notion(Upper(ticker)).pages[0];
      var lv := LevelOf(level);
      run.queried == Some(Upper(ticker)) &&
      (Printable(price, lv) ==>
        run.posted == Some(AlertEmbed(ticker, ToText(price).value, ToText(lv).value, page, now, dateMs, timestamp)) &&
        run.outcome == (if delivered then Responded(200, SuccessReply(Upper(ticker))) else Responded(500, PostError))) &&
      (!Printable(price, lv) ==> run.posted.None? && run.outcome == Rejected)
  {
    QueriedAnswer(ticker, price, level, notion, delivered, now, dateMs, timestamp);
  }

  lemma UpperAaplIsAapl()
    ensures Upper("AAPL") == "AAPL"
  {
  }

  /** `{"ticker": "AAPL", "price": {"toString": 1}}` for a watched ticker:
      the title cannot be written, the handler rejects after the query and
      posts nothing. */
  lemma OwnToStringPriceRejected(notion: string -> QueryResult, delivered: bool,
                                 now: int, dateMs: CalendarDate -> int, timestamp: string)
    requires notion("AAPL").Results? && |notion("AAPL").pages| > 0
    ensures Handle(Request("POST", Some(Fields(Some(JString("AAPL")), Some(JObject({"toString"})), None))),
                   notion, delivered, now, dateMs, timestamp) == Run(Rejected, Some("AAPL"), None)
  {
    UpperAaplIsAapl();
    FoundPagePosted("AAPL", JObject({"toString"}), None, notion, delivered, now, dateMs, timestamp);
  }

  /** The handler succeeds exactly when the method is POST, the body has a
      non-empty string ticker and a truthy price, Notion finds a page for
      the uppercased ticker, the price and level convert to strings and
      Discord accepts the post. */
  lemma SuccessIff(req: Request, notion: string -> QueryResult, delivered: bool,
                   now: int, dateMs: CalendarDate -> int, timestamp: string)
    ensures var run := Handle(req, notion, delivered, now, dateMs, timestamp);
      run.outcome.Responded? && run.outcome.statusCode == 200 <==>
        req.httpMethod == "POST" && req.body.Some? && req.body.value.Fields? &&
        Given(req.body.value.ticker) && Given(req.body.value.price) && req.body.value.ticker.value.JString? &&
        notion(Upper(req.body.value.ticker.value.s)).Results? &&
        |notion(Upper(req.body.value.ticker.value.s)).pages| > 0 &&
        Printable(req.body.value.price.value, LevelOf(req.body.value.level)) && delivered
  {
    if req.httpMethod == "POST" && req.body.Some? && req.body.value.Fields? &&
       Given(req.body.value.ticker) && Given(req.body.value.price) && req.body.value.ticker.value.JString?
    {
      var body := req.body.value;
      assert req == Request("POST", Some(Fields(Some(JString(body.ticker.value.s)), Some(body.price.value), body.level)));
      QueriedAnswer(body.ticker.value.s, body.price.value, body.level, notion, delivered, now, dateMs, timestamp);
    }
  }

  /** The uppercased ticker is used throughout: in the query, in the success
      reply and in the posted embed's chart link (and its title, see
      `AlertEmbedShape`). */
  lemma UppercaseTickerThroughout(ticker: string, price: Option<JsonValue>, level: Option<JsonValue>,
                                  notion: string -> QueryResult, delivered: bool,
                                  now: int, dateMs: CalendarDate -> int, timestamp: string)
    ensures var run := Handle(Request("POST", Some(Fields(Some(JString(ticker)), price, level))), notion, delivered, now, dateMs, timestamp);
      (run.queried.Some? ==> run.queried.value == Upper(ticker)) &&
      (run.outcome.Responded? && run.outcome.statusCode == 200 ==> run.outcome.reply == SuccessReply(Upper(ticker))) &&
      (run.posted.Some? ==> EndsWith(run.posted.value.description, ChartPrefix + Upper(ticker) + ")"))
  {
    if ticker != "" && Given(price) {
      QueriedAnswer(ticker, price.value, level, notion, delivered, now, dateMs, timestamp);
      var result := notion(Upper(ticker));
      if result.Results? && |result.pages| > 0 && Printable(price.value, LevelOf(level)) {
        AlertEmbedShape(ticker, ToText(price.value).value, ToText(LevelOf(level)).value, result.pages[0], now, dateMs, timestamp);
      }
    }
  }

  /** A level sent as a string, or left out, is used as it is written: its
      style is looked up under that string ("execution" when left out), and
      the posted title starts with that style's emoji and the uppercased
      ticker and ends with the string in brackets. */
  lemma LevelEchoedInTitle(ticker: string, price: JsonValue, level: Option<JsonValue>,
                           notion: string -> QueryResult, delivered: bool,
                           now: int, dateMs: CalendarDate -> int, timestamp: string)
    requires ticker != "" && Truthy(price) && ToText(price).Some?
    requires level.None? || level.value.JString?
    requires notion(Upper(ticker)).Results? && |notion(Upper(ticker)).pages| > 0
    ensures var run := Handle(Request("POST", Some(Fields(Some(JString(ticker)), Some(price), level))), notion, delivered, now, dateMs, timestamp);
      var name := if level.None? then "execution" else level.value.s;
      run.posted.Some? &&
      Style(name).emoji + " " + Upper(ticker) <= run.posted.value.title &&
      EndsWith(run.posted.value.title, "[" + name + "]")
  {
    var name := if level.None? then "execution" else level.value.s;
    assert ToText(LevelOf(level)) == Some(name);
    FoundPagePosted(ticker, price, level, notion, delivered, now, dateMs, timestamp);
    AlertEmbedShape(ticker, ToText(price).value, name, notion(Upper(ticker)).pages[0], now, dateMs, timestamp);
  }

  /** The alert embed of a page: the title starts with the level's emoji
      (the execution emoji for an unknown level) and the uppercased ticker
      and ends with the level as given; the description ends with the chart
      link of the uppercased ticker; a Radar page is red and its
      description has the warnings block, which holds the Radar warning;
      any other page has the level's colour. */
  lemma AlertEmbedShape(ticker: string, price: string, level: string, page: Properties,
                        now: int, dateMs: CalendarDate -> int, timestamp: string)
    ensures var e := AlertEmbed(ticker, price, level, page, now, dateMs, timestamp);
      var f := AlertInput(ticker, price, level, page, now, dateMs);
      Style(level).emoji + " " + Upper(ticker) <= e.title &&
      (level !in LevelTable ==> ExecutionStyle.emoji + " " + Upper(ticker) <= e.title) &&
      EndsWith(e.title, "[" + level + "]") &&
      EndsWith(e.description, ChartPrefix + Upper(ticker) + ")") &&
      (f.tier == "Radar" ==> e.color == Red && RadarWarning in f.warnings && WarningsBlock(f.warnings) in Sections(f)) &&
      (f.tier != "Radar" ==> e.color == Style(level).color)
  {
    var f := AlertInput(ticker, price, level, page, now, dateMs);
    EndsWithChartLink(f);
    if f.tier == "Radar" {
      var ws := Warnings(f.tier, f.entryConditions, now, dateMs);
      WarningsContents(f.tier, f.entryConditions, now, dateMs);
      var k :| 0 <= k < |ws| && ws[k] == Radar;
      assert f.warnings[k] == RadarWarning;
      WarningsAndTierSections(f);
    }
  }
}
