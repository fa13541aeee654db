/** The Social page's URL state: the tab, relation filter, search text and
    page it reads from the query string, how it writes them back, how the
    selectors reset the page, and the requests it sends for each tab. The
    services (`UserService`, `RelationService`) and the router are left out;
    the query string is a map from parameter name to value. */
module Social {
  import opened Common
  import opened Numbers

  type SearchParams = map<string, string>

  const TabKey: string := "o"
  const RelationKey: string := "r"
  const PageKey: string := "page"
  const TextKey: string := "q"

  /** The default tab and relation filter. The selectors also offer the
      Users tab and the Pending and Requested filters, but the URL may carry
      any value. */
  const PostsTab: string := "Posts"
  const Friends: string := "Friends"

  const QueryLimit: int := 10

  /** `searchParams.get(key)`: `null` for a missing key. */
  function Get(params: SearchParams, key: string): Option<string> {
    if key in params then Some(params[key]) else None
  }

  /** `get(key) || fallback`: the value unless it is missing or empty. */
  function GetOrDefault(params: SearchParams, key: string, fallback: string): (r: string)
    ensures key in params && params[key] != "" ==> r == params[key]
    ensures key !in params || params[key] == "" ==> r == fallback
  {
    if key in params && params[key] != "" then params[key] else fallback
  }

  // ---------------------------------------------------------------------
  // The state read on first render

  /** `get('o') || 'Posts'`. */
  function InitialTab(params: SearchParams): (r: string)
    ensures r != ""
    ensures Get(params, TabKey).None? || Get(params, TabKey) == Some("") ==> r == PostsTab
    ensures TabKey in params && params[TabKey] != "" ==> r == params[TabKey]
  {
    GetOrDefault(params, TabKey, PostsTab)
  }

  /** `get('r') || 'Friends'`. */
  function InitialRelation(params: SearchParams): (r: string)
    ensures r != ""
    ensures Get(params, RelationKey).None? || Get(params, RelationKey) == Some("") ==> r == Friends
    ensures RelationKey in params && params[RelationKey] != "" ==> r == params[RelationKey]
  {
    GetOrDefault(params, RelationKey, Friends)
  }

  /** `get('q') || ''`: the empty-string fallback makes it the value itself. */
  function InitialSearchText(params: SearchParams): (r: string)
    ensures TextKey in params ==> r == params[TextKey]
    ensures TextKey !in params ==> r == ""
  {
    GetOrDefault(params, TextKey, "")
  }

  /** `parseInt(searchParams.get('page'), 10) || 1`: `NaN` and `0` are falsy. */
  function InitialPage(params: SearchParams): (r: int)
    ensures r != 0
  {
    match JsParseInt(Get(params, PageKey))
    case None => 1
    case Some(n) => if n == 0 then 1 else n
  }

  /** Without a `page` parameter, or with one holding no digit (`NaN`), the
      page is 1. With `page=n` followed by text that does not continue the
      digits (`"2"`, `"2abc"`), it is `n` for any non-zero integer `n`,
      negative ones included, and 1 for `n == 0`. */
  lemma InitialPageOf(params: SearchParams, n: int, rest: string)
    ensures PageKey !in params ==> InitialPage(params) == 1
    ensures PageKey in params && (forall i | 0 <= i < |params[PageKey]| :: !IsDigit(params[PageKey][i]))
            ==> InitialPage(params) == 1
    ensures (rest == [] || !IsDigit(rest[0])) && PageKey in params && params[PageKey] == FormatInt(n) + rest
            ==> InitialPage(params) == if n == 0 then 1 else n
  {
    JsParseIntNull();
    if rest == [] || !IsDigit(rest[0]) {
      JsParseIntFormatted(n, rest);
    }
  }

  /** `?page=abc` and `?page=` give page 1 through `NaN`; `?page=2abc`
      gives page 2. */
  lemma InitialPageExamples()
    ensures InitialPage(map[PageKey := "abc"]) == 1
    ensures InitialPage(map[PageKey := ""]) == 1
    ensures InitialPage(map[PageKey := "2abc"]) == 2
  {
    InitialPageOf(map[PageKey := "abc"], 0, "");
    InitialPageOf(map[PageKey := ""], 0, "");
    assert FormatInt(2) + "abc" == "2abc";
    InitialPageOf(map[PageKey := "2abc"], 2, "abc");
  }

  // ---------------------------------------------------------------------
  // Writing the state back: updateSearchParams

  /** The query string after `updateSearchParams` ran on `params`. */
  function UpdatedSearchParams(params: SearchParams, searchText: string, tabOption: string,
                               relationOption: string, page: int): (r: SearchParams)
    ensures searchText != "" ==> TextKey in r && r[TextKey] == searchText
    ensures searchText == "" ==> Get(r, TextKey) == Get(params, TextKey)
    ensures TabKey in r && r[TabKey] == tabOption
    ensures PageKey in r && r[PageKey] == FormatInt(page)
    ensures tabOption == PostsTab ==> RelationKey !in r
    ensures tabOption != PostsTab ==> RelationKey in r && r[RelationKey] == relationOption
    ensures forall k | k != TextKey && k != TabKey && k != PageKey && k != RelationKey ::
              Get(r, k) == Get(params, k)
  {
    var withText := if searchText != "" then params[TextKey := searchText] else params;
    var withPage := withText[TabKey := tabOption][PageKey := FormatInt(page)];
    if tabOption == PostsTab then withPage - {RelationKey} else withPage[RelationKey := relationOption]
  }

  /** Reading the written query string back gives the same state: a reload
      of the page keeps the tab, the page, the search text and, on the Users
      tab, the relation filter; on the Posts tab the relation falls back to
      Friends. */
  lemma SearchParamsRoundTrip(params: SearchParams, searchText: string, tabOption: string,
                              relationOption: string, page: int)
    requires tabOption != "" && page != 0
    ensures var r := UpdatedSearchParams(params, searchText, tabOption, relationOption, page);
            && InitialTab(r) == tabOption
            && InitialPage(r) == page
            && (searchText != "" ==> InitialSearchText(r) == searchText)
            && (tabOption != PostsTab && relationOption != "" ==> InitialRelation(r) == relationOption)
            && (tabOption == PostsTab ==> InitialRelation(r) == Friends)
  {
    var r := UpdatedSearchParams(params, searchText, tabOption, relationOption, page);
    InitialPageOf(r, page, "");
    assert FormatInt(page) + "" == FormatInt(page);
  }

  // ---------------------------------------------------------------------
  // The requests

  /** What `loadContent` asks for. */
  datatype ContentRequest =
    | ConnectedPosts(limit: int, page: int)
    | Relations(userId: int, relation: string, limit: int, page: int)

  /** What `updateSearchResults` asks for: keywords only, no paging. */
  datatype SearchRequest =
    | SearchConnectedPosts(keywords: string)
    | SearchRelations(userId: int, keywords: string, relation: string)

  /** `loadContent`: the paged request for the current tab. Every tab other
      than Posts, including an unknown one from the URL, lists relations. */
  function LoadContentRequest(userId: int, tabOption: string, relationOption: string, page: int): (r: ContentRequest)
    ensures r.limit == QueryLimit && r.page == page
    ensures r.ConnectedPosts? <==> tabOption == PostsTab
    ensures r.Relations? ==> r.relation == relationOption && r.userId == userId
  {
    if tabOption == PostsTab then ConnectedPosts(QueryLimit, page)
    else Relations(userId, relationOption, QueryLimit, page)
  }

  /** `updateSearchResults`: the keyword search for the current tab. */
  function SearchResultsRequest(userId: int, tabOption: string, relationOption: string, searchText: string): (r: SearchRequest)
    ensures r.keywords == searchText
    ensures r.SearchConnectedPosts? <==> tabOption == PostsTab
    ensures r.SearchRelations? ==> r.relation == relationOption && r.userId == userId
  {
    if tabOption == PostsTab then SearchConnectedPosts(searchText)
    else SearchRelations(userId, searchText, relationOption)
  }

  // ---------------------------------------------------------------------
  // The page's state

  class SocialPage {
    var searchParams: SearchParams
    var searchText: string
    var tabOption: string
    var relationOption: string
    var page: int

    /** First render: the state comes from the URL. */
    constructor (url: SearchParams)
      ensures searchParams == url
      ensures tabOption == InitialTab(url) && relationOption == InitialRelation(url)
      ensures searchText == InitialSearchText(url) && page == InitialPage(url)
    {
      searchParams := url;
      tabOption := InitialTab(url);
      relationOption := InitialRelation(url);
      searchText := InitialSearchText(url);
      page := InitialPage(url);
    }

    /** `updateSearchParams`: `set` and `delete` on the current parameters. */
    method UpdateSearchParams()
      modifies this`searchParams
      ensures searchParams == UpdatedSearchParams(old(searchParams), searchText, tabOption, relationOption, page)
    {
      if searchText != "" {
        searchParams := searchParams[TextKey := searchText];
      }
      searchParams := searchParams[TabKey := tabOption];
      searchParams := searchParams[PageKey := FormatInt(page)];
      if tabOption == PostsTab {
        searchParams := searchParams - {RelationKey};
      } else {
        searchParams := searchParams[RelationKey := relationOption];
      }
    }

    /** The tab selector's `onChange`. */
    method OnTabChange(value: string)
      modifies this`tabOption, this`page
      ensures tabOption == value && page == 1
    {
      tabOption := value;
      page := 1;
    }

    /** The relation selector's `onChange`. */
    method OnRelationChange(value: string)
      modifies this`relationOption, this`page
      ensures relationOption == value && page == 1
    {
      relationOption := value;
      page := 1;
    }

    /** The search bar's `onSearchSubmit`. */
    method OnSearchSubmit(text: string)
      modifies this`searchText
      ensures searchText == text
    {
      searchText := text;
    }

    /** The pager's `setPage`. */
    method OnPageChange(newPage: int)
      modifies this`page
      ensures page == newPage
    {
      page := newPage;
    }

    /** The paged request `loadContent` makes for the current state. */
    function CurrentContentRequest(userId: int): ContentRequest
      reads this
    {
      LoadContentRequest(userId, tabOption, relationOption, page)
    }

    /** The two effects that run after a render whose state changed:
        `loadContent`, then `submitSearch`, which writes the URL and sends
        the keyword search. */
    method RunEffects(userId: int) returns (content: ContentRequest, search: SearchRequest)
      modifies this`searchParams
      ensures content == old(CurrentContentRequest(userId))
      ensures searchParams == UpdatedSearchParams(old(searchParams), searchText, tabOption, relationOption, page)
      ensures search == SearchResultsRequest(userId, tabOption, relationOption, searchText)
    {
      content := CurrentContentRequest(userId);
      UpdateSearchParams();
      search := SearchResultsRequest(userId, tabOption, relationOption, searchText);
    }

    /** Choosing a tab, then the render it causes: the request is for the
        first page of the chosen tab, and the URL now reads back as page 1
        and, for a non-empty value, as that tab. */
    method ChooseTab(value: string, userId: int) returns (content: ContentRequest, search: SearchRequest)
      modifies this`tabOption, this`page, this`searchParams
      ensures tabOption == value && page == 1
      ensures content == LoadContentRequest(userId, value, relationOption, 1)
      ensures content.page == 1 && (content.ConnectedPosts? <==> value == PostsTab)
      ensures InitialPage(searchParams) == 1
      ensures value != "" ==> InitialTab(searchParams) == value
      ensures value != PostsTab && relationOption != "" ==> InitialRelation(searchParams) == relationOption
      ensures search == SearchResultsRequest(userId, value, relationOption, searchText)
    {
      OnTabChange(value);
      var before := searchParams;
      content, search := RunEffects(userId);
      InitialPageOf(searchParams, 1, "");
      assert FormatInt(1) + "" == FormatInt(1);
      if tabOption != "" {
        SearchParamsRoundTrip(before, searchText, tabOption, relationOption, page);
      }
    }

    /** Choosing a relation filter, then the render it causes: the request
        asks for the first page with that filter, and the URL now reads back
        as that filter on page 1. */
    method ChooseRelation(value: string, userId: int) returns (content: ContentRequest, search: SearchRequest)
      modifies this`relationOption, this`page, this`searchParams
      ensures relationOption == value && page == 1
      ensures content == LoadContentRequest(userId, tabOption, value, 1) && content.page == 1
      ensures InitialPage(searchParams) == 1
      ensures tabOption != PostsTab && value != "" ==> InitialRelation(searchParams) == value
      ensures search == SearchResultsRequest(userId, tabOption, value, searchText)
    {
      OnRelationChange(value);
      var before := searchParams;
      content, search := RunEffects(userId);
      InitialPageOf(searchParams, 1, "");
      assert FormatInt(1) + "" == FormatInt(1);
      if tabOption != "" {
        SearchParamsRoundTrip(before, searchText, tabOption, relationOption, page);
      }
    }
  }
}
