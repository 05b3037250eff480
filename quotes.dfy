/** The quotes page component: it turns the route parameters into three
    fields (the filtering mode, the selected author or category id, and the
    screen class), decides from them which of its two sections are shown,
    chooses the page title, and turns a selection into a navigation path. */
module Quotes {
  import opened JsValues

  /** The three fields the component keeps. `entityId` is None for both
      `null`/`undefined` and NaN. */
  datatype ViewState = ViewState(quotesBy: string, entityId: Option<int>, isSmallScreen: bool)

  /** The two route parameters the component reads; either may be missing. */
  datatype RouteParams = RouteParams(quotesBy: Option<string>, entityId: Option<string>)

  /** `entityId` used as a JavaScript condition: missing, NaN and 0 are falsy. */
  predicate Present(e: Option<int>)
    ensures Present(e) ==> e.Some?
  {
    e.Some? && e.value != 0
  }

  /** The modes that show only the quotes list. */
  const ListOnlyModes: seq<string> := ["all", "favourites"]

  /** The modes `setTitle` has a branch for. */
  const TitledModes: seq<string> := ["all", "author", "category", "favourites"]

  /** `params['quotesBy'] || 'all'` */
  function QuotesByOf(p: Option<string>): (q: string)
    ensures q != ""
    ensures Supplied(p) ==> q == p.value
    ensures !Supplied(p) ==> q == "all"
  {
    if Supplied(p) then p.value else "all"
  }

  /** `params['entityId'] ? +params['entityId'] : null`, with `convert`
      standing for unary `+` and None for NaN. */
  function EntityIdOf(p: Option<string>, convert: string -> Option<int>): (e: Option<int>)
    ensures !Supplied(p) ==> e == None
    ensures Supplied(p) ==> e == convert(p.value)
  {
    if Supplied(p) then convert(p.value) else None
  }

  /** The fields after the route-parameter callback has run. */
  function Normalised(params: RouteParams, convert: string -> Option<int>, small: bool): (v: ViewState)
    ensures v.quotesBy != ""
    ensures Supplied(params.quotesBy) ==> v.quotesBy == params.quotesBy.value
    ensures !Supplied(params.entityId) ==> v.entityId == None
    ensures v.isSmallScreen == small
  {
    ViewState(QuotesByOf(params.quotesBy), EntityIdOf(params.entityId, convert), small)
  }

  /** `isShowQuotesBySection`: the author/category selector is shown. */
  function ShowQuotesBySection(v: ViewState): (r: bool)
    ensures r <==> v.quotesBy != "all" && v.quotesBy != "favourites"
                   && !(v.isSmallScreen && Present(v.entityId))
  {
    IndexOf(ListOnlyModes, v.quotesBy) == -1 && !(v.isSmallScreen && Present(v.entityId))
  }

  /** `isShowQuotesListSection`, read as a condition. */
  function ShowQuotesListSection(v: ViewState): (r: bool)
    ensures r <==> !v.isSmallScreen || Present(v.entityId)
                   || v.quotesBy == "all" || v.quotesBy == "favourites"
  {
    !v.isSmallScreen || Present(v.entityId) || IndexOf(ListOnlyModes, v.quotesBy) > -1
  }

  /** The two name-lookup services. */
  datatype NameService = AuthorNames | CategoryNames

  /** What `setTitle` does: set a fixed title now, look a name up and set a
      title built from it once the lookup resolves, or leave the title alone. */
  datatype TitleAction = Constant(text: string) | LookUpName(service: NameService, id: int) | NoTitle

  /** The branch `setTitle` takes for the given fields. */
  function TitleDecision(v: ViewState): (a: TitleAction)
    ensures a.LookUpName? ==> Present(v.entityId) && a.id == v.entityId.value
    ensures a.NoTitle? <==> v.quotesBy !in TitledModes
    ensures a.LookUpName? ==>
      (v.quotesBy == "author" && a.service == AuthorNames)
      || (v.quotesBy == "category" && a.service == CategoryNames)
  {
    if v.quotesBy == "all" then Constant("All Quotes")
    else if v.quotesBy == "author" && Present(v.entityId) then LookUpName(AuthorNames, v.entityId.value)
    else if v.quotesBy == "author" then Constant("Authors")
    else if v.quotesBy == "category" && Present(v.entityId) then LookUpName(CategoryNames, v.entityId.value)
    else if v.quotesBy == "category" then Constant("Categories")
    else if v.quotesBy == "favourites" then Constant("My Favourites")
    else NoTitle
  }

  /** The title set when a lookup resolves to `name`. */
  function NamedTitle(service: NameService, small: bool, name: string): (t: string)
    ensures small ==> t == name
    ensures !small && service == AuthorNames ==> |t| == |name| + 10 && t[10..] == name
    ensures !small && service == CategoryNames ==> |t| == |name| + 7 && t[..|name|] == name
  {
    if small then name
    else match service
      case AuthorNames => "Quotes by " + name
      case CategoryNames => name + " Quotes"
  }

  /** The title finally shown for `v` when every lookup resolves to `name`
      and the screen class has not changed in the meantime; None when the
      title is left as it was. */
  function TitleShown(v: ViewState, name: string): (t: Option<string>)
    ensures t == None <==> v.quotesBy !in TitledModes
    ensures TitleDecision(v).Constant? ==> t == Some(TitleDecision(v).text)
    ensures TitleDecision(v).LookUpName? && v.isSmallScreen ==> t == Some(name)
  {
    match TitleDecision(v)
    case Constant(t) => Some(t)
    case LookUpName(service, _) => Some(NamedTitle(service, v.isSmallScreen, name))
    case NoTitle => None
  }

  /** A segment of a navigation path: a literal word or a number. */
  datatype Segment = Word(text: string) | Number(value: int)

  /** The mode word in a path for a service's entities. */
  function ModeOf(service: NameService): string {
    match service
    case AuthorNames => "author"
    case CategoryNames => "category"
  }

  /** The path navigated to when an author or a category is selected. */
  function SelectionPath(service: NameService, id: int): (path: seq<Segment>)
    ensures RouteParamsOf(path) == Some(RouteParams(Some(ModeOf(service)), Some(IntText(id))))
  {
    [Word("quotes"), Word(ModeOf(service)), Number(id)]
  }

  /** A segment as it appears in the URL. */
  function SegmentText(s: Segment): string {
    match s
    case Word(t) => t
    case Number(n) => IntText(n)
  }

  /** The parameters the router hands to the component for a path, assuming
      the routes `quotes`, `quotes/:quotesBy` and `quotes/:quotesBy/:entityId`. */
  function RouteParamsOf(path: seq<Segment>): Option<RouteParams> {
    if |path| == 0 || |path| > 3 || path[0] != Word("quotes") then None
    else Some(RouteParams(
      if |path| >= 2 then Some(SegmentText(path[1])) else None,
      if |path| == 3 then Some(SegmentText(path[2])) else None))
  }

  class QuotesComponent {
    var quotesBy: string
    var entityId: Option<int>
    var isSmallScreen: bool

    /** The fields as one value. */
    function View(): ViewState
      reads this
    {
      ViewState(quotesBy, entityId, isSmallScreen)
    }

    /** The field initialisers; `entityId` starts out undefined. */
    constructor ()
      ensures View() == ViewState("all", None, false)
    {
      quotesBy := "all";
      entityId := None;
      isSmallScreen := false;
    }

    /** The callback run on every emission of the route parameters; `small`
        is what the viewport query answers. Returns what `setTitle` does. */
    method OnRouteParams(params: RouteParams, convert: string -> Option<int>, small: bool)
      returns (action: TitleAction)
      modifies this
      ensures View() == Normalised(params, convert, small)
      ensures action == TitleDecision(View())
    {
      quotesBy := if Supplied(params.quotesBy) then params.quotesBy.value else "all";
      entityId := if Supplied(params.entityId) then convert(params.entityId.value) else None;
      isSmallScreen := small;
      action := SetTitle();
    }

    /** `setTitle`: its chain of branches over the current fields. */
    method SetTitle() returns (action: TitleAction)
      ensures action == TitleDecision(View())
    {
      if quotesBy == "all" {
        action := Constant("All Quotes");
      } else if quotesBy == "author" && Present(entityId) {
        action := LookUpName(AuthorNames, entityId.value);
      } else if quotesBy == "author" {
        action := Constant("Authors");
      } else if quotesBy == "category" && Present(entityId) {
        action := LookUpName(CategoryNames, entityId.value);
      } else if quotesBy == "category" {
        action := Constant("Categories");
      } else if quotesBy == "favourites" {
        action := Constant("My Favourites");
      } else {
        action := NoTitle;
      }
    }

    /** The continuation of a lookup: it reads the screen class current at
        the time the name arrives. */
    method OnNameResolved(service: NameService, name: string) returns (title: string)
      ensures title == NamedTitle(service, isSmallScreen, name)
    {
      if isSmallScreen {
        title := name;
      } else if service == AuthorNames {
        title := "Quotes by " + name;
      } else {
        title := name + " Quotes";
      }
    }

    /** `onAuthorSelect`: the path handed to the router; no field changes. */
    method OnAuthorSelect(authorId: int) returns (path: seq<Segment>)
      ensures path == SelectionPath(AuthorNames, authorId)
    {
      path := [Word("quotes"), Word("author"), Number(authorId)];
    }

    /** `onCategorySelect`: the path handed to the router; no field changes. */
    method OnCategorySelect(categoryId: int) returns (path: seq<Segment>)
      ensures path == SelectionPath(CategoryNames, categoryId)
    {
      path := [Word("quotes"), Word("category"), Number(categoryId)];
    }
  }

  // ---------------------------------------------------------------------
  // Parameter normalisation

  /** The mode is 'all' exactly when the parameter is missing, empty or
      'all'; any other value, recognised or not, is kept as it is. */
  lemma DefaultMode(params: RouteParams, convert: string -> Option<int>, small: bool)
    ensures var v := Normalised(params, convert, small);
      (v.quotesBy == "all" <==> !Supplied(params.quotesBy) || params.quotesBy.value == "all")
      && (Supplied(params.quotesBy) ==> v.quotesBy == params.quotesBy.value)
  {
  }

  /** The id is None when the parameter is missing or empty and otherwise
      the conversion of the parameter; the screen class is the query's
      answer. */
  lemma EntityIdNormalised(params: RouteParams, convert: string -> Option<int>, small: bool)
    ensures var v := Normalised(params, convert, small);
      (!Supplied(params.entityId) ==> v.entityId == None)
      && (Supplied(params.entityId) ==> v.entityId == convert(params.entityId.value))
      && v.isSmallScreen == small
  {
  }

  /** An id parameter that does not convert (NaN) or converts to 0 acts as
      no id at all: same sections, same title as without the parameter. */
  lemma FalsyIdActsAsAbsent(params: RouteParams, convert: string -> Option<int>, small: bool, name: string)
    requires Supplied(params.entityId)
    requires convert(params.entityId.value) in {None, Some(0)}
    ensures var v := Normalised(params, convert, small);
      var w := Normalised(params.(entityId := None), convert, small);
      !Present(v.entityId)
      && ShowQuotesBySection(v) == ShowQuotesBySection(w)
      && ShowQuotesListSection(v) == ShowQuotesListSection(w)
      && TitleShown(v, name) == TitleShown(w, name)
  {
  }

  /** A supplied mode outside the four known ones is kept: it shows the
      sections as 'author' or 'category' would with the same id and screen,
      and sets no title. */
  lemma UnrecognisedModeKept(params: RouteParams, convert: string -> Option<int>, small: bool, name: string)
    requires Supplied(params.quotesBy) && params.quotesBy.value !in TitledModes
    ensures var v := Normalised(params, convert, small);
      v.quotesBy == params.quotesBy.value
      && ShowQuotesBySection(v) == !(small && Present(v.entityId))
      && ShowQuotesListSection(v) == (!small || Present(v.entityId))
      && ShowQuotesBySection(v) == ShowQuotesBySection(v.(quotesBy := "author"))
      && ShowQuotesListSection(v) == ShowQuotesListSection(v.(quotesBy := "author"))
      && ShowQuotesBySection(v) == ShowQuotesBySection(v.(quotesBy := "category"))
      && ShowQuotesListSection(v) == ShowQuotesListSection(v.(quotesBy := "category"))
      && TitleShown(v, name) == None
  {
  }

  // ---------------------------------------------------------------------
  // Visibility of the two sections

  lemma FilterHiddenInListOnlyModes(v: ViewState)
    requires v.quotesBy == "all" || v.quotesBy == "favourites"
    ensures !ShowQuotesBySection(v)
  {
  }

  /** On a small screen a truthy id hides the selector; a missing, NaN or
      zero id does not. */
  lemma FilterOnSmallScreen(v: ViewState)
    requires v.isSmallScreen
    ensures Present(v.entityId) ==> !ShowQuotesBySection(v)
    ensures !Present(v.entityId) ==>
      (ShowQuotesBySection(v) <==> v.quotesBy != "all" && v.quotesBy != "favourites")
  {
  }

  /** On a large screen the list is always shown and the selector is shown
      in every mode but 'all' and 'favourites'. */
  lemma LargeScreenSections(v: ViewState)
    requires !v.isSmallScreen
    ensures ShowQuotesListSection(v)
    ensures ShowQuotesBySection(v) <==> v.quotesBy !in ListOnlyModes
  {
  }

  lemma ListShownInListOnlyModes(v: ViewState)
    requires v.quotesBy == "all" || v.quotesBy == "favourites"
    ensures ShowQuotesListSection(v)
  {
  }

  /** On a small screen exactly one of the two sections is shown. */
  lemma SmallScreenComplement(v: ViewState)
    requires v.isSmallScreen
    ensures ShowQuotesListSection(v) == !ShowQuotesBySection(v)
  {
  }

  /** On every screen at least one section is shown. */
  lemma SomeSectionShown(v: ViewState)
    ensures ShowQuotesListSection(v) || ShowQuotesBySection(v)
  {
  }

  // ---------------------------------------------------------------------
  // Title

  lemma TitleConstantRows(v: ViewState, name: string)
    ensures v.quotesBy == "all" ==> TitleShown(v, name) == Some("All Quotes")
    ensures v.quotesBy == "author" && !Present(v.entityId) ==> TitleShown(v, name) == Some("Authors")
    ensures v.quotesBy == "category" && !Present(v.entityId) ==> TitleShown(v, name) == Some("Categories")
    ensures v.quotesBy == "favourites" ==> TitleShown(v, name) == Some("My Favourites")
    ensures v.quotesBy !in TitledModes ==> TitleShown(v, name) == None
  {
  }

  lemma TitleNameRows(v: ViewState, name: string)
    requires Present(v.entityId)
    ensures v.quotesBy == "author" ==>
      TitleDecision(v) == LookUpName(AuthorNames, v.entityId.value)
      && TitleShown(v, name) == Some(if v.isSmallScreen then name else "Quotes by " + name)
    ensures v.quotesBy == "category" ==>
      TitleDecision(v) == LookUpName(CategoryNames, v.entityId.value)
      && TitleShown(v, name) == Some(if v.isSmallScreen then name else name + " Quotes")
  {
  }

  /** Only the author and category branches look a name up, and the title
      of every other branch does not depend on it. */
  lemma TitleNameOnlyFromLookup(v: ViewState, name1: string, name2: string)
    requires !TitleDecision(v).LookUpName?
    ensures TitleShown(v, name1) == TitleShown(v, name2)
  {
  }

  // ---------------------------------------------------------------------
  // Navigation

  /** Selecting an author or a category and the router's re-emission of the
      parameters lead to that mode with that id. On a small screen exactly
      one section is shown: the list for a truthy id, the selector for id 0.
      The title is built from the looked-up name, or is the plain mode title
      for id 0. */
  lemma SelectionRoundTrip(service: NameService, id: int, convert: string -> Option<int>, small: bool, name: string)
    requires ReadsDecimals(convert)
    ensures RouteParamsOf(SelectionPath(service, id)).Some?
    ensures var v := Normalised(RouteParamsOf(SelectionPath(service, id)).value, convert, small);
      v.quotesBy == ModeOf(service) && v.entityId == Some(id)
      && ShowQuotesListSection(v) == !(small && id == 0)
      && ShowQuotesBySection(v) == !(small && id != 0)
      && TitleShown(v, name) ==
         if id != 0 then Some(NamedTitle(service, small, name))
         else if service == AuthorNames then Some("Authors") else Some("Categories")
  {
  }

  /** Four example page states, with unary `+` read as decimal: no
      parameters; author 7 "Rumi" on a large and on a small screen;
      'category' without an id on a small screen. */
  lemma Scenarios()
    ensures var v := Normalised(RouteParams(None, None), DecimalNumber, false);
      v.quotesBy == "all" && TitleShown(v, "") == Some("All Quotes")
      && !ShowQuotesBySection(v) && ShowQuotesListSection(v)
    ensures var v := Normalised(RouteParams(Some("author"), Some("7")), DecimalNumber, false);
      v.entityId == Some(7) && TitleShown(v, "Rumi") == Some("Quotes by Rumi")
      && ShowQuotesBySection(v) && ShowQuotesListSection(v)
    ensures var v := Normalised(RouteParams(Some("author"), Some("7")), DecimalNumber, true);
      TitleShown(v, "Rumi") == Some("Rumi")
      && !ShowQuotesBySection(v) && ShowQuotesListSection(v)
    ensures var v := Normalised(RouteParams(Some("category"), None), DecimalNumber, true);
      TitleShown(v, "") == Some("Categories")
      && ShowQuotesBySection(v) && !ShowQuotesListSection(v)
  {
    assert DigitsValue("7") == 7;
    assert "Quotes by " + "Rumi" == "Quotes by Rumi";
  }
}
