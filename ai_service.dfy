/**
 * The part of ai_service.py that decides without the language model: the list of
 * catalog titles, the search for a known title in a query, and which result envelope
 * `get_ai_response` hands back. The model's answer and the title a refusal quotes
 * are given as opaque values.
 */
module AiService {
  import opened Wrappers
  import opened Text
  import opened DataStore

  // ---------------------------------------------------------------------------
  // get_available_book_titles

  /** The `title` of a catalog entry: a string, absent, or some other value. */
  datatype TitleField = TitleStr(s: string) | TitleAbsent | TitleNotStr

  /** A value of `books_data`: a dict with its title field, or not a dict at all. */
  datatype CatalogEntry = EntryDict(title: TitleField) | EntryNotDict

  /** `books_data` itself: a dict, seen through its values in iteration order, or not. */
  datatype CatalogValue = CatalogDict(values: seq<CatalogEntry>) | CatalogNotDict

  predicate HasStringTitle(e: CatalogEntry, t: string) {
    e == EntryDict(TitleStr(t))
  }

  /** The comprehension over `books_data.values()`. */
  function TitlesOf(values: seq<CatalogEntry>): (titles: seq<string>)
    ensures |titles| <= |values|
    ensures forall t :: t in titles <==> exists i :: 0 <= i < |values| && HasStringTitle(values[i], t)
    decreases |values|
  {
    if values == [] then []
    else
      var head := match values[0] case EntryDict(TitleStr(t)) => [t] case _ => [];
      var rest := TitlesOf(values[1..]);
      assert forall t :: t in rest <==> exists i :: 1 <= i < |values| && HasStringTitle(values[i], t) by {
        forall t | t in rest ensures exists i :: 1 <= i < |values| && HasStringTitle(values[i], t) {
          var j :| 0 <= j < |values[1..]| && HasStringTitle(values[1..][j], t);
          assert HasStringTitle(values[j + 1], t);
        }
        forall t | exists i :: 1 <= i < |values| && HasStringTitle(values[i], t) ensures t in rest {
          var i :| 1 <= i < |values| && HasStringTitle(values[i], t);
          assert HasStringTitle(values[1..][i - 1], t);
        }
      }
      head + rest
  }

  /** `get_available_book_titles()`: the string titles of the dict entries, or [] when
      `books_data` is not a dict. */
  function GetAvailableBookTitles(books: CatalogValue): (titles: seq<string>)
    ensures books.CatalogNotDict? ==> titles == []
    ensures books.CatalogDict? ==> |titles| <= |books.values|
    ensures books.CatalogDict? ==>
      forall t :: t in titles <==> exists i :: 0 <= i < |books.values| && HasStringTitle(books.values[i], t)
  {
    match books
    case CatalogNotDict => []
    case CatalogDict(values) => TitlesOf(values)
  }

  /** Titles keep catalog order: the titles of a catalog split in two are the titles of
      the first part followed by those of the second. */
  lemma {:induction false} TitlesOfAppend(a: seq<CatalogEntry>, b: seq<CatalogEntry>)
    ensures TitlesOf(a + b) == TitlesOf(a) + TitlesOf(b)
    decreases |a|
  {
    if a == [] {
      assert a + b == b;
    } else {
      TitlesOfAppend(a[1..], b);
      assert (a + b)[1..] == a[1..] + b;
    }
  }

  /** A single entry contributes its title exactly when it is a dict with a string title. */
  lemma TitlesOfSingle(e: CatalogEntry)
    ensures TitlesOf([e]) == if e.EntryDict? && e.title.TitleStr? then [e.title.s] else []
  {
    assert [e][1..] == [];
  }

  function EntryOf(b: Book): CatalogEntry {
    EntryDict(TitleStr(b.title))
  }

  /** The shipped `books_data`, in its insertion order. */
  const ShippedCatalog: CatalogValue := CatalogDict([
    EntryOf(BooksData[1]), EntryOf(BooksData[2]), EntryOf(BooksData[3]),
    EntryOf(BooksData[4]), EntryOf(BooksData[5]), EntryOf(BooksData[6])])

  lemma ShippedTitles()
    ensures GetAvailableBookTitles(ShippedCatalog) == [
      "The Hitchhiker's Guide to the Galaxy", "Ogboju Ode Ninu Igbo Irunmole", "1984",
      "Stay With Me", "Ake: The Years of Childhood", "Pride and Prejudice"]
  {
    var v := ShippedCatalog.values;
    assert v == [v[0]] + [v[1]] + [v[2]] + [v[3]] + [v[4]] + [v[5]];
    TitlesOfAppend([v[0]] + [v[1]] + [v[2]] + [v[3]] + [v[4]], [v[5]]);
    TitlesOfAppend([v[0]] + [v[1]] + [v[2]] + [v[3]], [v[4]]);
    TitlesOfAppend([v[0]] + [v[1]] + [v[2]], [v[3]]);
    TitlesOfAppend([v[0]] + [v[1]], [v[2]]);
    TitlesOfAppend([v[0]], [v[1]]);
    TitlesOfSingle(v[0]); TitlesOfSingle(v[1]); TitlesOfSingle(v[2]);
    TitlesOfSingle(v[3]); TitlesOfSingle(v[4]); TitlesOfSingle(v[5]);
  }

  // ---------------------------------------------------------------------------
  // extract_title

  /** An element of `known_titles`: a string, or anything else. */
  datatype TitleItem = StrTitle(s: string) | NonStrTitle

  /** The `known_titles` argument: a list, or some other value. */
  datatype KnownTitles = TitleList(items: seq<TitleItem>) | NotAList

  /** `item` is a string whose lower-cased form occurs in the lower-cased query. */
  predicate Matches(lowerQuery: string, item: TitleItem) {
    item.StrTitle? && Occurs(Lower(item.s), lowerQuery)
  }

  /** Position `k` holds a matching title and no earlier position does. */
  predicate FirstMatchAt(lowerQuery: string, items: seq<TitleItem>, k: int) {
    && 0 <= k < |items|
    && Matches(lowerQuery, items[k])
    && forall j :: 0 <= j < k ==> !Matches(lowerQuery, items[j])
  }

  /** The `for title in known_titles` loop with its early return. */
  function FirstMatch(lowerQuery: string, items: seq<TitleItem>): (r: Option<string>)
    ensures r.None? <==> forall k :: 0 <= k < |items| ==> !Matches(lowerQuery, items[k])
    ensures r.Some? ==> exists k :: FirstMatchAt(lowerQuery, items, k) && items[k] == StrTitle(r.value)
    decreases |items|
  {
    if items == [] then None
    else if Matches(lowerQuery, items[0]) then
      assert FirstMatchAt(lowerQuery, items, 0);
      Some(items[0].s)
    else
      var r := FirstMatch(lowerQuery, items[1..]);
      assert r.None? ==> forall k :: 0 <= k < |items| ==> !Matches(lowerQuery, items[k]) by {
        if r.None? {
          forall k | 0 <= k < |items| ensures !Matches(lowerQuery, items[k]) {
            if k > 0 { assert items[k] == items[1..][k - 1]; }
          }
        }
      }
      assert r.Some? ==> exists k :: FirstMatchAt(lowerQuery, items, k) && items[k] == StrTitle(r.value) by {
        if r.Some? {
          var k :| FirstMatchAt(lowerQuery, items[1..], k) && items[1..][k] == StrTitle(r.value);
          assert forall j :: 1 <= j < k + 1 ==> items[j] == items[1..][j - 1];
          assert FirstMatchAt(lowerQuery, items, k + 1);
        }
      }
      r
  }

  /**
   * `extract_title(query, known_titles)`: None for a non-list; otherwise the first
   * string title, in list order and with its own casing, whose lower-cased form occurs
   * in the lower-cased query, and None exactly when there is no such title.
   */
  function ExtractTitle(query: string, known: KnownTitles): (r: Option<string>)
    ensures known.NotAList? ==> r.None?
    ensures r.Some? ==> known.TitleList? && StrTitle(r.value) in known.items
    ensures r.Some? ==> exists k :: FirstMatchAt(Lower(query), known.items, k) && known.items[k] == StrTitle(r.value)
    ensures known.TitleList? ==>
      (r.None? <==> forall k :: 0 <= k < |known.items| ==> !Matches(Lower(query), known.items[k]))
  {
    match known
    case NotAList => None
    case TitleList(items) => FirstMatch(Lower(query), items)
  }

  /** Changing the ASCII case of the query never changes the title found. */
  lemma ExtractTitleIgnoresCase(query: string, other: string, known: KnownTitles)
    requires SameIgnoringCase(query, other)
    ensures ExtractTitle(query, known) == ExtractTitle(other, known)
  {
    LowerIgnoresCase(query, other);
  }

  /** A match in an earlier part of the list shadows every match after it. */
  lemma {:induction false} FirstMatchAppend(lowerQuery: string, a: seq<TitleItem>, b: seq<TitleItem>)
    ensures FirstMatch(lowerQuery, a + b) ==
      if FirstMatch(lowerQuery, a).Some? then FirstMatch(lowerQuery, a) else FirstMatch(lowerQuery, b)
    decreases |a|
  {
    if a == [] {
      assert a + b == b;
    } else {
      assert (a + b)[0] == a[0];
      assert (a + b)[1..] == a[1..] + b;
      FirstMatchAppend(lowerQuery, a[1..], b);
    }
  }

  // ---------------------------------------------------------------------------
  // get_ai_response

  /** What get_ai_response sees of its environment: whether the model object exists and
      the two API key variables it tries in turn. */
  datatype AiConfig = AiConfig(modelLoaded: bool, geminiKey: Option<string>, googleKey: Option<string>)

  /** How the language model call turns out: an answer, or an exception. */
  datatype AgentOutcome = AgentAnswered(answer: string) | AgentFailed

  /** The value under `error`: ai_service.py always puts a string there; the object form
      is what app.py's handler expects. */
  datatype ServiceError = ErrText(text: string) | ErrObject(message: string)

  /** `{"response": ..., "title_match": ...}` under `data`. */
  datatype AnswerData = AnswerData(response: string, titleMatch: string)

  /** The top-level `title_match` key: absent, None, or a title. */
  datatype TitleMatch = NoTitleKey | TitleNull | TitleIs(title: string)

  /** The dict get_ai_response returns. */
  datatype AiResult = AiResult(error: Option<ServiceError>, data: Option<AnswerData>, status: Option<string>, titleMatch: TitleMatch)

  predicate Truthy(v: Option<string>) {
    v.Some? && v.value != ""
  }

  /** `model and api_key_loaded`, where the key is GEMINI_API_KEY or else GOOGLE_API_KEY. */
  predicate Ready(cfg: AiConfig) {
    cfg.modelLoaded && (Truthy(cfg.geminiKey) || Truthy(cfg.googleKey))
  }

  const NotInitialized: string := "AI model not initialized or API key missing."

  function AgentFailureText(title: string): string {
    "AI agent failed to process the query for '" + title + "'."
  }

  /** `sep.join(parts)`. */
  function Join(parts: seq<string>, sep: string): string
    decreases |parts|
  {
    if parts == [] then ""
    else if |parts| == 1 then parts[0]
    else parts[0] + sep + Join(parts[1..], sep)
  }

  /** The refusal, quoting the title the query seemed to mention and the allowed list. */
  function RefusalText(mentioned: string, titles: seq<string>): string {
    "I am sorry, I cannot provide information about '" + mentioned
      + "' as it is not in my allowed list of books (" + Join(titles, ", ") + ")."
  }

  function AsKnownTitles(titles: seq<string>): KnownTitles {
    TitleList(seq(|titles|, i requires 0 <= i < |titles| => StrTitle(titles[i])))
  }

  /** The title get_ai_response proceeds with: a found title that is also truthy. */
  function RequestedTitle(query: string, titles: seq<string>): Option<string> {
    var found := ExtractTitle(query, AsKnownTitles(titles));
    if found.Some? && found.value != "" then found else None
  }

  /**
   * `get_ai_response(user_query, available_book_titles)`. `agent` is the outcome the
   * language model call would have; `mentioned` is the title the refusal regex pulls
   * out of the query ("the requested book" when it finds none).
   */
  function GetAiResponse(cfg: AiConfig, query: string, titles: seq<string>, agent: AgentOutcome, mentioned: string): (r: AiResult)
    ensures r.error.Some? <==> r.data.None?
    ensures r.error.Some? ==> r.error.value.ErrText? && r.status.None?
    ensures r.data.Some? ==> r.status == Some("success")
  {
    if !Ready(cfg) then AiResult(Some(ErrText(NotInitialized)), None, None, NoTitleKey)
    else
      match RequestedTitle(query, titles)
      case Some(title) =>
        (match agent
         case AgentAnswered(answer) => AiResult(None, Some(AnswerData(answer, title)), Some("success"), NoTitleKey)
         case AgentFailed => AiResult(Some(ErrText(AgentFailureText(title))), None, None, TitleIs(title)))
      case None => AiResult(Some(ErrText(RefusalText(mentioned, titles))), None, None, TitleNull)
  }

  /** Without a model or key the answer is the configuration error, whatever the query,
      the titles or the model would do: no title lookup is made. */
  lemma NotReadyIgnoresQuery(cfg: AiConfig, query: string, titles: seq<string>, agent: AgentOutcome, mentioned: string,
                             query': string, titles': seq<string>, agent': AgentOutcome, mentioned': string)
    requires !Ready(cfg)
    ensures GetAiResponse(cfg, query, titles, agent, mentioned) == GetAiResponse(cfg, query', titles', agent', mentioned')
    ensures GetAiResponse(cfg, query, titles, agent, mentioned).error == Some(ErrText(NotInitialized))
    ensures GetAiResponse(cfg, query, titles, agent, mentioned).titleMatch == NoTitleKey
  {
  }

  /** No usable title gives the refusal with `title_match` None, and the model is not run:
      the outcome it would have makes no difference. */
  lemma NoTitleRefuses(cfg: AiConfig, query: string, titles: seq<string>, agent: AgentOutcome, agent': AgentOutcome, mentioned: string)
    requires Ready(cfg) && RequestedTitle(query, titles).None?
    ensures GetAiResponse(cfg, query, titles, agent, mentioned)
         == AiResult(Some(ErrText(RefusalText(mentioned, titles))), None, None, TitleNull)
    ensures GetAiResponse(cfg, query, titles, agent, mentioned) == GetAiResponse(cfg, query, titles, agent', mentioned)
  {
  }

  /** A usable title is reported as the match in the success and in the failure envelope. */
  lemma TitleReported(cfg: AiConfig, query: string, titles: seq<string>, agent: AgentOutcome, mentioned: string)
    requires Ready(cfg) && RequestedTitle(query, titles).Some?
    ensures var title := RequestedTitle(query, titles).value;
      var r := GetAiResponse(cfg, query, titles, agent, mentioned);
      && title in titles
      && (agent.AgentAnswered? ==> r.data == Some(AnswerData(agent.answer, title)))
      && (agent.AgentFailed? ==> r.titleMatch == TitleIs(title) && r.error == Some(ErrText(AgentFailureText(title))))
  {
    var found := ExtractTitle(query, AsKnownTitles(titles));
    assert StrTitle(found.value) in AsKnownTitles(titles).items;
  }
}
