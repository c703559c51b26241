/**
 * The API explorer page: a catalogue of the backend's endpoints grouped by
 * resource, a search filter over it, path templating for `{id}`, sample
 * request bodies for the write endpoints, and the send step with its
 * invalid-JSON short-circuit and status colouring.
 */
module ApiExplorer {
  import opened Options
  import opened Strings
  import opened Json

  /** One catalogue item; `verb` is the HTTP method's name. */
  datatype Endpoint = Endpoint(verb: string, path: string, description: string)

  datatype EndpointGroup = EndpointGroup(group: string, items: seq<Endpoint>)

  /** The catalogue, group by group. */
  const EndpointGroups: seq<EndpointGroup> := [
    EndpointGroup("Auth", [
      Endpoint("POST", "/api/auth/login", "Admin login"),
      Endpoint("POST", "/api/auth/register", "Register admin")
    ]),
    EndpointGroup("Banner", [
      Endpoint("GET", "/api/banner", "Get all banners"),
      Endpoint("POST", "/api/banner", "Create banner"),
      Endpoint("PUT", "/api/banner/{id}", "Update banner"),
      Endpoint("DELETE", "/api/banner/{id}", "Delete banner")
    ]),
    EndpointGroup("News", [
      Endpoint("GET", "/api/news", "Get all news"),
      Endpoint("GET", "/api/news/{id}", "Get news by ID"),
      Endpoint("POST", "/api/news", "Create news"),
      Endpoint("PUT", "/api/news/{id}", "Update news"),
      Endpoint("DELETE", "/api/news/{id}", "Delete news")
    ]),
    EndpointGroup("Local News", [
      Endpoint("GET", "/api/localnews", "Get all local news"),
      Endpoint("GET", "/api/localnews/{id}", "Get local news by ID"),
      Endpoint("POST", "/api/localnews", "Create local news"),
      Endpoint("PUT", "/api/localnews/{id}", "Update local news"),
      Endpoint("DELETE", "/api/localnews/{id}", "Delete local news")
    ]),
    EndpointGroup("Industry News", [
      Endpoint("GET", "/api/IndustryNews", "Get all industry news"),
      Endpoint("GET", "/api/IndustryNews/{id}", "Get industry news by ID"),
      Endpoint("POST", "/api/IndustryNews", "Create industry news"),
      Endpoint("PUT", "/api/IndustryNews/{id}", "Update industry news"),
      Endpoint("DELETE", "/api/IndustryNews/{id}", "Delete industry news")
    ]),
    EndpointGroup("Leader", [
      Endpoint("GET", "/api/leader", "Get all leaders"),
      Endpoint("GET", "/api/leader/{id}", "Get leader by ID"),
      Endpoint("POST", "/api/leader/create", "Create leader"),
      Endpoint("PUT", "/api/leader/{id}", "Update leader"),
      Endpoint("DELETE", "/api/leader/{id}", "Delete leader")
    ]),
    EndpointGroup("Honorary", [
      Endpoint("GET", "/api/honorary", "Get all honorary members"),
      Endpoint("GET", "/api/honorary/{id}", "Get honorary by ID"),
      Endpoint("POST", "/api/honorary/create", "Create honorary member"),
      Endpoint("PUT", "/api/honorary/{id}", "Update honorary member"),
      Endpoint("DELETE", "/api/honorary/{id}", "Delete honorary member")
    ]),
    EndpointGroup("Gender", [
      Endpoint("GET", "/api/gender", "Get all gender policy"),
      Endpoint("GET", "/api/gender/{id}", "Get gender policy by ID"),
      Endpoint("POST", "/api/gender", "Create gender policy"),
      Endpoint("PUT", "/api/gender/{id}", "Update gender policy"),
      Endpoint("DELETE", "/api/gender/{id}", "Delete gender policy")
    ]),
    EndpointGroup("Xotin-Qizlar", [
      Endpoint("GET", "/api/xotinQizlar", "Get all xotin-qizlar"),
      Endpoint("GET", "/api/xotinQizlar/{id}", "Get by ID"),
      Endpoint("POST", "/api/xotinQizlar", "Create xotin-qizlar"),
      Endpoint("PUT", "/api/xotinQizlar/{id}", "Update xotin-qizlar"),
      Endpoint("DELETE", "/api/xotinQizlar/{id}", "Delete xotin-qizlar")
    ]),
    EndpointGroup("Yoshlar Siyosati", [
      Endpoint("GET", "/api/yoshlarSiyosati", "Get all yoshlar siyosati"),
      Endpoint("GET", "/api/yoshlarSiyosati/{id}", "Get by ID"),
      Endpoint("POST", "/api/yoshlarSiyosati", "Create yoshlar siyosati"),
      Endpoint("PUT", "/api/yoshlarSiyosati/{id}", "Update yoshlar siyosati"),
      Endpoint("DELETE", "/api/yoshlarSiyosati/{id}", "Delete yoshlar siyosati")
    ]),
    EndpointGroup("Normative", [
      Endpoint("GET", "/api/normative/all", "Get all normative docs"),
      Endpoint("GET", "/api/normative/{id}", "Get normative by ID"),
      Endpoint("POST", "/api/normative/create", "Create normative doc"),
      Endpoint("PUT", "/api/normative/{id}", "Update normative doc"),
      Endpoint("DELETE", "/api/normative/{id}", "Delete normative doc")
    ]),
    EndpointGroup("Bolimlar", [
      Endpoint("GET", "/api/bolimlar", "Get all bolimlar"),
      Endpoint("GET", "/api/bolimlar/{id}", "Get bolimlar by ID"),
      Endpoint("POST", "/api/bolimlar", "Create bolimlar"),
      Endpoint("PUT", "/api/bolimlar/{id}", "Update bolimlar"),
      Endpoint("DELETE", "/api/bolimlar/{id}", "Delete bolimlar")
    ]),
    EndpointGroup("Vacancies", [
      Endpoint("GET", "/api/vacancies", "Get all vacancies"),
      Endpoint("GET", "/api/vacancies/{id}", "Get vacancy by ID"),
      Endpoint("POST", "/api/vacancies", "Create vacancy"),
      Endpoint("PUT", "/api/vacancies/{id}", "Update vacancy"),
      Endpoint("DELETE", "/api/vacancies/{id}", "Delete vacancy")
    ]),
    EndpointGroup("Plans & Reports", [
      Endpoint("GET", "/api/plansReports", "Get all plans & reports"),
      Endpoint("GET", "/api/plansReports/{id}", "Get by ID"),
      Endpoint("POST", "/api/plansReports", "Create plan/report"),
      Endpoint("PUT", "/api/plansReports/{id}", "Update plan/report"),
      Endpoint("DELETE", "/api/plansReports/{id}", "Delete plan/report")
    ])
  ]

  const SampleBodies: seq<Entry> := [
    Entry("/api/auth/login", Obj([Entry("phone", Str("998901234567")), Entry("password", Str("password"))])),
    Entry("/api/auth/register", Obj([Entry("phone", Str("998901234567")), Entry("password", Str("password"))])),
    Entry("/api/news", Obj([Entry("title_uz", Str("Sarlavha")), Entry("desc_uz", Str("Tavsif")), Entry("title_ru", Str("")), Entry("desc_ru", Str(""))])),
    Entry("/api/localnews", Obj([Entry("title_uz", Str("Sarlavha")), Entry("desc_uz", Str("Tavsif"))])),
    Entry("/api/IndustryNews", Obj([Entry("title_uz", Str("Sarlavha")), Entry("desc_uz", Str("Tavsif"))])),
    Entry("/api/gender", Obj([Entry("title_uz", Str("Sarlavha")), Entry("description_uz", Str("Tavsif"))])),
    Entry("/api/bolimlar", Obj([Entry("title_uz", Str("Sarlavha")), Entry("employees_uz", Str("")), Entry("leader_uz", Str("")), Entry("desc_uz", Str(""))])),
    Entry("/api/vacancies", Obj([Entry("title", Obj([Entry("uz", Str("")), Entry("ru", Str("")), Entry("oz", Str(""))])), Entry("description", Obj([Entry("uz", Str("")), Entry("ru", Str("")), Entry("oz", Str(""))])), Entry("salary", Obj([Entry("uz", Str("")), Entry("ru", Str("")), Entry("oz", Str(""))])), Entry("deadline", Str(""))])),
    Entry("/api/plansReports", Obj([Entry("title_uz", Str("")), Entry("category_uz", Str("")), Entry("description_uz", Str("")), Entry("participantsCount", Num(0))])),
    Entry("/api/xotinQizlar", Obj([Entry("title_uz", Str("")), Entry("decree_uz", Str("")), Entry("description_uz", Str(""))])),
    Entry("/api/yoshlarSiyosati", Obj([Entry("title_uz", Str("")), Entry("decree_uz", Str("")), Entry("description_uz", Str(""))])),
    Entry("/api/normative/create", Obj([Entry("title_uz", Str("")), Entry("decree_uz", Str("")), Entry("description_uz", Str(""))])),
    Entry("/api/honorary/create", Obj([Entry("fullName_uz", Str("")), Entry("specialist_uz", Str("")), Entry("grade_uz", Str(""))])),
    Entry("/api/leader/create", Obj([Entry("fullName_uz", Str("")), Entry("grade_uz", Str("")), Entry("phone", Str("")), Entry("email", Str(""))])),
    Entry("/api/banner", Obj([Entry("title_uz", Str("")), Entry("desc_uz", Str(""))]))
  ]

  /** Every catalogue item, group after group. */
  function AllItems(gs: seq<EndpointGroup>): seq<Endpoint> {
    if gs == [] then [] else gs[0].items + AllItems(gs[1..])
  }

  /**
   * `resolvedPath`: with a path parameter the first `{id}` becomes the
   * parameter; without one the first `/{id}` and then the first remaining
   * `{id}` are removed.
   */
  function ResolvedPath(path: string, param: string): string {
    if param != "" then ReplaceFirst(path, "{id}", param)
    else ReplaceFirst(ReplaceFirst(path, "/{id}", ""), "{id}", "")
  }

  /** A path without a placeholder is sent as it is, whatever the parameter. */
  lemma ResolvedPathUntemplated(path: string, param: string)
    requires forall i :: !OccursAt(path, "{id}", i)
    ensures ResolvedPath(path, param) == path
  {
    forall i ensures !OccursAt(path, "/{id}", i) {
      if 0 <= i && i + 5 <= |path| {
        assert path[i..i + 5][1..] == path[i + 1..i + 5];
        assert !OccursAt(path, "{id}", i + 1);
      }
    }
    ReplaceAbsent(path, "/{id}", "");
    ReplaceAbsent(path, "{id}", param);
    ReplaceAbsent(path, "{id}", "");
  }

  /**
   * Without a parameter, the first `/{id}` is cut out; when no `{id}` is
   * left after the cut, nothing else changes.
   */
  lemma ResolvedPathNoParam(path: string, p: nat, cut: string)
    requires OccursAt(path, "/{id}", p)
    requires forall j :: 0 <= j < p ==> !OccursAt(path, "/{id}", j)
    requires cut == path[..p] + path[p + 5..]
    requires forall i :: !OccursAt(cut, "{id}", i)
    ensures ResolvedPath(path, "") == cut
  {
    ReplaceAtFirst(path, "/{id}", "", p);
    assert path[..p] + "" + path[p + 5..] == cut;
    ReplaceAbsent(cut, "{id}", "");
  }

  /** With a parameter free of `$`, the first placeholder is replaced by it and nothing else changes. */
  lemma ResolvedPathWithParam(path: string, param: string, p: nat)
    requires param != "" && '$' !in param
    requires OccursAt(path, "{id}", p)
    requires forall j :: 0 <= j < p ==> !OccursAt(path, "{id}", j)
    ensures ResolvedPath(path, param) == path[..p] + param + path[p + 4..]
  {
    ReplaceAtFirst(path, "{id}", param, p);
  }

  /** The search match: an empty query matches everything, else path, description or method contains it, ignoring case. */
  predicate Matches(ep: Endpoint, query: string) {
    var q := ToLower(query);
    query == "" || Contains(ToLower(ep.path), q) || Contains(ToLower(ep.description), q) || Contains(ToLower(ep.verb), q)
  }

  /** A query matches when it is empty or some lower-cased path, description or method has it at some position. */
  lemma MatchesIff(ep: Endpoint, query: string)
    ensures Matches(ep, query) <==>
              || query == ""
              || (exists i :: OccursAt(ToLower(ep.path), ToLower(query), i))
              || (exists i :: OccursAt(ToLower(ep.description), ToLower(query), i))
              || (exists i :: OccursAt(ToLower(ep.verb), ToLower(query), i))
  {
    ContainsIff(ToLower(ep.path), ToLower(query));
    ContainsIff(ToLower(ep.description), ToLower(query));
    ContainsIff(ToLower(ep.verb), ToLower(query));
  }

  /** The items of one group that match the query, in order. */
  function FilterItems(items: seq<Endpoint>, query: string): (r: seq<Endpoint>)
    ensures |r| <= |items|
    ensures forall ep :: ep in r <==> ep in items && Matches(ep, query)
  {
    if items == [] then []
    else (if Matches(items[0], query) then [items[0]] else []) + FilterItems(items[1..], query)
  }

  /** `filteredGroups`: each group cut down to its matching items, empty groups dropped. */
  function FilterGroups(gs: seq<EndpointGroup>, query: string): (r: seq<EndpointGroup>)
    ensures |r| <= |gs|
    ensures forall g :: g in r ==> |g.items| > 0
    ensures forall g :: g in r ==> exists j :: 0 <= j < |gs| && g == gs[j].(items := FilterItems(gs[j].items, query))
    ensures forall j :: 0 <= j < |gs| && |FilterItems(gs[j].items, query)| > 0 ==>
              gs[j].(items := FilterItems(gs[j].items, query)) in r
  {
    if gs == [] then []
    else
      var g := gs[0].(items := FilterItems(gs[0].items, query));
      (if |g.items| > 0 then [g] else []) + FilterGroups(gs[1..], query)
  }

  /** Filtering works piecewise, so the kept items stay in catalogue order. */
  lemma {:induction false} FilterItemsConcat(a: seq<Endpoint>, b: seq<Endpoint>, query: string)
    ensures FilterItems(a + b, query) == FilterItems(a, query) + FilterItems(b, query)
  {
    if a != [] {
      assert (a + b)[1..] == a[1..] + b;
      FilterItemsConcat(a[1..], b, query);
    } else {
      assert a + b == b;
    }
  }

  /** Group filtering works piecewise, so the kept groups stay in catalogue order. */
  lemma {:induction false} FilterGroupsConcat(a: seq<EndpointGroup>, b: seq<EndpointGroup>, query: string)
    ensures FilterGroups(a + b, query) == FilterGroups(a, query) + FilterGroups(b, query)
  {
    if a != [] {
      assert (a + b)[1..] == a[1..] + b;
      assert (a + b)[0] == a[0];
      FilterGroupsConcat(a[1..], b, query);
    } else {
      assert a + b == b;
    }
  }

  /** With an empty query every item matches, so a list is kept whole. */
  lemma {:induction false} FilterItemsEmptyQuery(items: seq<Endpoint>)
    ensures FilterItems(items, "") == items
  {
    if items != [] {
      FilterItemsEmptyQuery(items[1..]);
      assert items == [items[0]] + items[1..];
    }
  }

  /** With an empty query, groups that all have items are kept as they are. */
  lemma {:induction false} FilterGroupsEmptyQuery(gs: seq<EndpointGroup>)
    requires forall i :: 0 <= i < |gs| ==> |gs[i].items| > 0
    ensures FilterGroups(gs, "") == gs
  {
    if gs != [] {
      FilterItemsEmptyQuery(gs[0].items);
      FilterGroupsEmptyQuery(gs[1..]);
      assert gs == [gs[0]] + gs[1..];
    }
  }

  /** The filtered catalogue lists exactly the matching items. */
  lemma {:induction false} FilterGroupsItems(gs: seq<EndpointGroup>, query: string, ep: Endpoint)
    ensures ep in AllItems(FilterGroups(gs, query)) <==> ep in AllItems(gs) && Matches(ep, query)
  {
    if gs != [] {
      FilterGroupsItems(gs[1..], query, ep);
      var g := gs[0].(items := FilterItems(gs[0].items, query));
      var rest := FilterGroups(gs[1..], query);
      assert AllItems(gs) == gs[0].items + AllItems(gs[1..]);
      assert ep in g.items <==> ep in gs[0].items && Matches(ep, query);
      if |g.items| > 0 {
        assert FilterGroups(gs, query) == [g] + rest;
        assert ([g] + rest)[1..] == rest;
        assert AllItems([g] + rest) == g.items + AllItems(rest);
      } else {
        assert FilterGroups(gs, query) == rest;
      }
    }
  }

  /** Every group of the catalogue has items. */
  lemma CatalogueGroupsNonEmpty()
    ensures forall i :: 0 <= i < |EndpointGroups| ==> |EndpointGroups[i].items| > 0
  {
  }

  /** With an empty search the whole catalogue is shown. */
  lemma FilteredCatalogueEmptyQuery()
    ensures FilterGroups(EndpointGroups, "") == EndpointGroups
  {
    CatalogueGroupsNonEmpty();
    FilterGroupsEmptyQuery(EndpointGroups);
  }

  /** The sample body for an endpoint: the catalogue entry of its path without `/{id}`. */
  function SampleFor(ep: Endpoint): (sample: Value)
    ensures sample == Undefined || sample in Values(SampleBodies)
  {
    LookupValue(SampleBodies, ReplaceFirst(ep.path, "/{id}", ""));
    Lookup(SampleBodies, ReplaceFirst(ep.path, "/{id}", ""))
  }

  /** A templated path is looked up with its first `/{id}` cut out. */
  lemma SampleForTemplated(ep: Endpoint, p: nat)
    requires OccursAt(ep.path, "/{id}", p)
    requires forall j :: 0 <= j < p ==> !OccursAt(ep.path, "/{id}", j)
    ensures SampleFor(ep) == Lookup(SampleBodies, ep.path[..p] + ep.path[p + 5..])
  {
    ReplaceAtFirst(ep.path, "/{id}", "", p);
    assert ep.path[..p] + "" + ep.path[p + 5..] == ep.path[..p] + ep.path[p + 5..];
  }

  /** A path without `/{id}` is looked up as it is. */
  lemma SampleForUntemplated(ep: Endpoint)
    requires forall j :: !OccursAt(ep.path, "/{id}", j)
    ensures SampleFor(ep) == Lookup(SampleBodies, ep.path)
  {
    ReplaceAbsent(ep.path, "/{id}", "");
  }

  /** A path `base/{id}` with no `{` in `base` is looked up as `base`. */
  lemma SampleForIdPath(ep: Endpoint, base: string)
    requires ep.path == base + "/{id}" && '{' !in base
    ensures SampleFor(ep) == Lookup(SampleBodies, base)
  {
    var p := |base|;
    assert ep.path[p..p + 5] == "/{id}";
    forall j | 0 <= j < p ensures !OccursAt(ep.path, "/{id}", j) {
      if j + 1 < p {
        assert ep.path[j + 1] == base[j + 1];
      } else {
        assert ep.path[j + 1] == '/';
      }
    }
    SampleForTemplated(ep, p);
    assert ep.path[..p] + ep.path[p + 5..] == base;
  }

  /** Updating a news post starts from the sample keyed `/api/news`. */
  lemma SampleForNewsPut(ep: Endpoint)
    requires ep.path == "/api/news/{id}"
    ensures SampleFor(ep) == SampleBodies[2].val
  {
    SampleForIdPath(ep, "/api/news");
    NewsSample();
  }

  /** `/api/news` is the third key of the sample table, after two `/api/auth/...` keys. */
  lemma NewsSample()
    ensures Lookup(SampleBodies, "/api/news") == SampleBodies[2].val
  {
    var k := "/api/news";
    var rest := SampleBodies[1..];
    assert SampleBodies[0].key[5] != k[5];
    assert rest[0].key[5] != k[5];
    assert Lookup(rest, k) == Lookup(rest[1..], k);
    assert rest[1..][0] == SampleBodies[2];
  }

  /** `/api/leader` is not a key of the sample table. */
  lemma LeaderKeyAbsent()
    ensures "/api/leader" !in Keys(SampleBodies)
  {
    var ks := Keys(SampleBodies);
    forall i | 0 <= i < |ks| ensures ks[i] != "/api/leader" {
      assert |ks[i]| != 11 || ks[i][5] != 'l';
    }
  }

  /** Updating a leader has no sample: its path without `/{id}` is `/api/leader`, which is not a key. */
  lemma SampleForLeaderPut(ep: Endpoint)
    requires ep.path == "/api/leader/{id}"
    ensures SampleFor(ep) == Undefined
  {
    SampleForIdPath(ep, "/api/leader");
    LeaderKeyAbsent();
    LookupAbsent(SampleBodies, "/api/leader");
  }

  predicate IsWrite(ep: Endpoint) {
    ep.verb == "POST" || ep.verb == "PUT"
  }

  /** The body text `handleSelect` fills in; `stringify` is `JSON.stringify(_, null, 2)`. */
  function BodyTextFor(ep: Endpoint, stringify: Value -> string): (text: string)
    ensures !IsWrite(ep) ==> text == ""
    ensures IsWrite(ep) && !Truthy(SampleFor(ep)) ==> text == ""
    ensures IsWrite(ep) && Truthy(SampleFor(ep)) ==> text == stringify(SampleFor(ep))
  {
    if IsWrite(ep) then
      var sample := SampleFor(ep);
      if Truthy(sample) then stringify(sample) else ""
    else ""
  }

  /** `statusColor`: no status shows no colour, then success, redirect and error bands. */
  function StatusColor(status: Option<int>): (c: string)
    ensures c == "" <==> status.None? || status.value == 0
    ensures status.Some? && status.value != 0 && status.value < 300 ==> c == "text-green-400"
    ensures status.Some? && 300 <= status.value < 400 ==> c == "text-amber-400"
    ensures status.Some? && status.value >= 400 ==> c == "text-red-400"
  {
    match status
    case None => ""
    case Some(s) =>
      if s == 0 then ""
      else if s < 300 then "text-green-400"
      else if s < 400 then "text-amber-400"
      else "text-red-400"
  }

  /**
   * The status badge the response card renders: shown exactly when the status
   * is truthy, green with a tick (`Some(true)`) below 300 and red with a cross
   * (`Some(false)`) otherwise. It does not use `statusColor`.
   */
  function StatusBadge(status: Option<int>): (b: Option<bool>)
    ensures b.Some? <==> status.Some? && status.value != 0
    ensures b.Some? ==> (b.value <==> status.value < 300)
  {
    match status
    case None => None
    case Some(s) => if s == 0 then None else Some(s < 300)
  }

  /**
   * The badge and `statusColor` agree on when a status is shown and on the
   * green band, but a 3xx reply gets a red cross, not the amber of `statusColor`.
   */
  lemma StatusBadgeVersusColor(status: Option<int>)
    ensures StatusBadge(status).None? <==> StatusColor(status) == ""
    ensures StatusBadge(status) == Some(true) <==> StatusColor(status) == "text-green-400"
    ensures status.Some? && 300 <= status.value < 400 ==>
              StatusBadge(status) == Some(false) && StatusColor(status) == "text-amber-400"
  {
  }

  /**
   * What `fetch` gives back: a status with the body text, a status whose body
   * could not be read (`res.text()` rejected), or a network error.
   */
  datatype FetchOutcome =
    | Responded(status: int, text: string)
    | BodyUnreadable(status: int, message: string)
    | NetworkError(message: string)

  /**
   * The request `handleSend` issues; the body is the parsed document (its
   * serialisation is not modelled). The constant `Content-Type:
   * application/json` header it always sends is left implicit.
   */
  datatype SentRequest = SentRequest(verb: string, url: string, authorization: Option<string>, body: Option<Value>)

  /** `body.trim()` is not empty. */
  predicate HasText(body: string) {
    Trim(body) != ""
  }

  /** A blank body is not parsed; any other must parse as JSON. */
  predicate BodyParses(body: string, parse: string -> Option<Value>) {
    !HasText(body) || parse(body).Some?
  }

  /** The document sent: the parsed body when it is truthy, else no body. */
  function RequestBody(body: string, parse: string -> Option<Value>): (r: Option<Value>)
    ensures r.Some? ==> HasText(body) && parse(body).Some? && Truthy(r.value) && r.value == parse(body).value
    ensures HasText(body) && parse(body).Some? && Truthy(parse(body).value) ==> r.Some?
  {
    if HasText(body) && parse(body).Some? && Truthy(parse(body).value) then parse(body) else None
  }

  /** The `Authorization` header: present exactly when there is a token. */
  function Authorization(token: Value): (h: Option<string>)
    ensures h.Some? <==> Truthy(token)
    ensures h.Some? ==> StartsWith(h.value, "Bearer ") && h.value[|"Bearer "|..] == ToJsString(token)
  {
    if Truthy(token) then Some("Bearer " + ToJsString(token)) else None
  }

  /** The status shown after a send: the reply's status, none after a network error. */
  function StatusOf(outcome: FetchOutcome): (status: Option<int>)
    ensures status.Some? <==> !outcome.NetworkError?
    ensures status.Some? ==> status.value == outcome.status
  {
    if outcome.NetworkError? then None else Some(outcome.status)
  }

  /** The response shown after a send: the parsed reply, the raw text when it is not JSON, or the network error. */
  function ReplyOf(outcome: FetchOutcome, parse: string -> Option<Value>): (reply: Value)
    ensures outcome.Responded? && parse(outcome.text).Some? ==> reply == parse(outcome.text).value
    ensures outcome.Responded? && parse(outcome.text).None? ==> reply == Str(outcome.text)
    ensures !outcome.Responded? ==> reply == Obj([Entry("error", Str(outcome.message))])
  {
    match outcome
    case Responded(_, text) => (match parse(text) case Some(v) => v case None => Str(text))
    case BodyUnreadable(_, message) => Obj([Entry("error", Str(message))])
    case NetworkError(message) => Obj([Entry("error", Str(message))])
  }

  /** The message shown when the body does not parse. */
  function InvalidJsonResponse(): Value {
    Obj([Entry("error", Str("Invalid JSON in request body"))])
  }

  /** `Object.fromEntries(groups.map(g => [g.group, true]))`. */
  function AllExpanded(gs: seq<EndpointGroup>): (es: seq<Entry>)
    ensures |es| == |gs| && forall i :: 0 <= i < |gs| ==> es[i] == Entry(gs[i].group, Bool(true))
  {
    seq(|gs|, i requires 0 <= i < |gs| => Entry(gs[i].group, Bool(true)))
  }

  datatype ExplorerState = ExplorerState(
    selected: Endpoint, searchQuery: string, pathParam: string, body: string,
    response: Value, respLoading: bool, respStatus: Option<int>, expandedGroups: seq<Entry>)

  /** The explorer page's state. */
  class Explorer {
    var selected: Endpoint
    var searchQuery: string
    var pathParam: string
    var body: string
    var response: Value
    var respLoading: bool
    var respStatus: Option<int>
    var expandedGroups: seq<Entry>

    function State(): ExplorerState
      reads this
    {
      ExplorerState(selected, searchQuery, pathParam, body, response, respLoading, respStatus, expandedGroups)
    }

    /** The first catalogue item selected, every group expanded, nothing sent yet. */
    constructor ()
      ensures State() == ExplorerState(Endpoint("POST", "/api/auth/login", "Admin login"), "", "", "", Null, false, None,
                                       AllExpanded(EndpointGroups))
    {
      selected := EndpointGroups[0].items[0];
      searchQuery, pathParam, body := "", "", "";
      response, respLoading, respStatus := Null, false, None;
      expandedGroups := AllExpanded(EndpointGroups);
    }

    /** `toggleGroup`: negates the group's flag and nothing else. */
    method ToggleGroup(group: string)
      modifies this
      ensures State() == old(State()).(expandedGroups := Put(old(expandedGroups), group, Bool(!Truthy(Lookup(old(expandedGroups), group)))))
      ensures Truthy(Lookup(expandedGroups, group)) <==> !Truthy(Lookup(old(expandedGroups), group))
      ensures forall k :: k != group ==> Lookup(expandedGroups, k) == Lookup(old(expandedGroups), k)
    {
      var flipped := Bool(!Truthy(Lookup(expandedGroups, group)));
      PutLookup(expandedGroups, group, flipped, group);
      forall k | k != group ensures Lookup(Put(expandedGroups, group, flipped), k) == Lookup(expandedGroups, k) {
        PutLookup(expandedGroups, group, flipped, k);
      }
      expandedGroups := Put(expandedGroups, group, flipped);
    }

    /** `handleSelect`: selects the endpoint, clears the response and the parameter, and fills in its sample body. */
    method HandleSelect(ep: Endpoint, stringify: Value -> string)
      modifies this
      ensures State() == old(State()).(selected := ep, response := Null, pathParam := "", body := BodyTextFor(ep, stringify))
    {
      selected := ep;
      response := Null;
      pathParam := "";
      if IsWrite(ep) {
        var basePath := ReplaceFirst(ep.path, "/{id}", "");
        var sample := Lookup(SampleBodies, basePath);
        body := if Truthy(sample) then stringify(sample) else "";
      } else {
        body := "";
      }
    }

    /**
     * `handleSend`: a non-blank body that does not parse sets the error
     * response and sends nothing; otherwise the request goes to the
     * resolved path, and its status and parsed (or raw) reply are shown.
     */
    method HandleSend(parse: string -> Option<Value>, outcome: FetchOutcome, base: string, token: Value)
      returns (req: Option<SentRequest>)
      modifies this
      ensures !BodyParses(old(body), parse) ==>
                req.None? && response == InvalidJsonResponse() && !respLoading && respStatus.None?
      ensures BodyParses(old(body), parse) ==>
                req == Some(SentRequest(old(selected).verb, base + ResolvedPath(old(selected).path, old(pathParam)),
                                        Authorization(token), RequestBody(old(body), parse)))
      ensures BodyParses(old(body), parse) ==> !respLoading && respStatus == StatusOf(outcome) && response == ReplyOf(outcome, parse)
      ensures selected == old(selected) && body == old(body) && pathParam == old(pathParam)
      ensures searchQuery == old(searchQuery) && expandedGroups == old(expandedGroups)
    {
      var parses := BodyParses(body, parse);
      var sent := SentRequest(selected.verb, base + ResolvedPath(selected.path, pathParam),
                              Authorization(token), RequestBody(body, parse));
      respLoading := true;
      response := Null;
      respStatus := None;
      if !parses {
        response := InvalidJsonResponse();
        respLoading := false;
        return None;
      }
      req := Some(sent);
      respStatus := StatusOf(outcome);
      response := ReplyOf(outcome, parse);
      respLoading := false;
    }
  }
}
