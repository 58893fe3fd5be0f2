/**
 * The event store: a page of event records fetched with a POST request
 * whose body names the company, the page and the page size, plus the
 * loading and error flags, the page window, the sort descriptor and the
 * selected company. The response is typed: the records are its
 * `eventList` and the total its `totCnt`.
 */
module EventStore {
  import opened Options
  import opened JsValues
  import opened ListState

  /** The fixed message stored when a fetch fails. */
  const FetchErrorMessage: string := "이벤트 데이터를 불러오는 중 오류가 발생했습니다."

  /** The company selected in a fresh store. */
  const InitialCompanyId: string := "2"

  /** One event ruleset row as the endpoint declares it. */
  datatype EventData = EventData(
    rowIndexNumber: int,
    eventRulesetName: string,
    cctvId: string,
    cctvName: string,
    pixelPolygonArea: seq<seq<int>>,
    wgsPolygonArea: seq<JsValue>,
    regDate: string,
    useYN: bool,
    eventRulesetId: int,
    videoChannelId: int,
    eventTypeCode: string)

  datatype ResponseHeader = ResponseHeader(msg: string, cd: int)

  /** The declared response body. */
  datatype EventResponse = EventResponse(header: ResponseHeader, totCnt: int, eventList: seq<EventData>)

  /** The POST body. The sort descriptor is not part of it. */
  datatype EventQuery = EventQuery(companyId: string, page: int, limit: int)

  /** A snapshot of the store's fields. */
  datatype EventState = EventState(
    data: seq<EventData>,
    loading: bool,
    error: Option<string>,
    currentPage: int,
    pageSize: int,
    totalItems: int,
    sorting: seq<SortKey>,
    companyId: string)

  /** The field initialisers of a fresh store. */
  const InitialState: EventState :=
    EventState([], false, None, InitialPage, InitialPageSize, 0, [], InitialCompanyId)

  /** The store's actions: the three steps of a fetch and the four setters. */
  datatype EventAction =
    | Begin
    | Succeed(response: EventResponse)
    | Fail
    | SetPageTo(page: int)
    | SetPageSizeTo(size: int)
    | SetSortingTo(keys: seq<SortKey>)
    | SetCompanyIdTo(id: string)

  /** What each action does to the fields; every field it does not name is
      left as it was. */
  function Step(s: EventState, a: EventAction): (r: EventState)
    ensures FetchStateConsistent(s) ==> FetchStateConsistent(r)
    ensures a.Begin? ==> r.loading && r.error.None?
    ensures (a.Succeed? || a.Fail?) ==> !r.loading
    ensures IsSetter(a) ==> r.data == s.data && r.totalItems == s.totalItems &&
                            r.loading == s.loading && r.error == s.error
  {
    match a
    case Begin => s.(loading := true, error := None)
    case Succeed(response) => s.(data := response.eventList, totalItems := response.totCnt, loading := false)
    case Fail => s.(error := Some(FetchErrorMessage), loading := false)
    case SetPageTo(page) => s.(currentPage := page)
    case SetPageSizeTo(size) => s.(pageSize := size, currentPage := InitialPage)
    case SetSortingTo(keys) => s.(sorting := keys)
    case SetCompanyIdTo(id) => s.(companyId := id)
  }

  /** The state after a sequence of actions, applied in the order given. */
  function Run(s: EventState, actions: seq<EventAction>): EventState
    decreases |actions|
  {
    if actions == [] then s else Run(Step(s, actions[0]), actions[1..])
  }

  /** The POST body a fetch begun in state `s` sends. */
  function QueryOf(s: EventState): (q: EventQuery)
    ensures q.companyId == s.companyId && q.page == s.currentPage && q.limit == s.pageSize
  {
    EventQuery(s.companyId, s.currentPage, s.pageSize)
  }

  /** An error is only ever shown once loading has stopped. */
  predicate FetchStateConsistent(s: EventState) {
    s.error.Some? ==> !s.loading
  }

  predicate IsSetter(a: EventAction) {
    a.SetPageTo? || a.SetPageSizeTo? || a.SetSortingTo? || a.SetCompanyIdTo?
  }

  /** Beginning a fetch and then completing it, from any state: loading has
      stopped; an error is shown exactly when the request rejected, and then
      the previous records and total are kept; on success the event list
      and its count are installed. The page window, the sorting and the
      company are untouched either way. */
  lemma FetchSettles(s: EventState, outcome: FetchOutcome<EventResponse>)
    ensures var last := if outcome.Rejected? then Fail else Succeed(outcome.body);
            var t := Step(Step(s, Begin), last);
            && !t.loading
            && (t.error.Some? <==> outcome.Rejected?)
            && (outcome.Rejected? ==> t.error == Some(FetchErrorMessage) &&
                                      t.data == s.data && t.totalItems == s.totalItems)
            && (outcome.Responded? ==> t.data == outcome.body.eventList && t.totalItems == outcome.body.totCnt)
            && t.currentPage == s.currentPage && t.pageSize == s.pageSize
            && t.sorting == s.sorting && t.companyId == s.companyId
  {
  }

  /** The request body depends on the company and the page window only:
      changing the sorting never changes what is sent. */
  lemma SortingIsNotSent(s: EventState, keys: seq<SortKey>)
    ensures QueryOf(Step(s, SetSortingTo(keys))) == QueryOf(s)
  {
  }

  /** Every sequence of actions keeps the fetch state consistent. */
  lemma {:induction false} RunKeepsFetchStateConsistent(s: EventState, actions: seq<EventAction>)
    requires FetchStateConsistent(s)
    ensures FetchStateConsistent(Run(s, actions))
    decreases |actions|
  {
    if actions != [] {
      RunKeepsFetchStateConsistent(Step(s, actions[0]), actions[1..]);
    }
  }

  /** Paging, sorting and choosing a company never touch the records, the
      total or the fetch flags: those change only through a fetch. */
  lemma {:induction false} SettersKeepRecords(s: EventState, actions: seq<EventAction>)
    requires forall i :: 0 <= i < |actions| ==> IsSetter(actions[i])
    ensures Run(s, actions).data == s.data && Run(s, actions).totalItems == s.totalItems
    ensures Run(s, actions).loading == s.loading && Run(s, actions).error == s.error
    decreases |actions|
  {
    if actions != [] {
      SettersKeepRecords(Step(s, actions[0]), actions[1..]);
    }
  }

  class EventStore {
    var data: seq<EventData>
    var loading: bool
    var error: Option<string>
    var currentPage: int
    var pageSize: int
    var totalItems: int
    var sorting: seq<SortKey>
    var companyId: string

    /** The fields as one value. */
    function State(): EventState
      reads this
    {
      EventState(data, loading, error, currentPage, pageSize, totalItems, sorting, companyId)
    }

    constructor ()
      ensures State() == InitialState
      ensures FetchStateConsistent(State())
    {
      data := [];
      loading := false;
      error := None;
      currentPage := InitialPage;
      pageSize := InitialPageSize;
      totalItems := 0;
      sorting := [];
      companyId := InitialCompanyId;
    }

    /** The step before the request is awaited: loading starts, any earlier
        error is cleared, and the request body is built from the company and
        the page window. */
    method BeginFetch() returns (query: EventQuery)
      modifies this
      ensures State() == Step(old(State()), Begin)
      ensures query == QueryOf(old(State()))
    {
      loading := true;
      error := None;
      query := EventQuery(companyId, currentPage, pageSize);
    }

    /** The step after the request resolves. */
    method FetchSucceeded(response: EventResponse)
      modifies this
      ensures State() == Step(old(State()), Succeed(response))
    {
      data := response.eventList;
      totalItems := response.totCnt;
      loading := false;
    }

    /** The step after the request rejects. */
    method FetchFailed()
      modifies this
      ensures State() == Step(old(State()), Fail)
    {
      error := Some(FetchErrorMessage);
      loading := false;
    }

    /** The whole fetch as one atomic transition: begin, then the step the
        outcome selects. */
    method FetchEvents(outcome: FetchOutcome<EventResponse>) returns (query: EventQuery)
      modifies this
      ensures query == QueryOf(old(State()))
      ensures State() == Step(Step(old(State()), Begin), if outcome.Rejected? then Fail else Succeed(outcome.body))
    {
      query := BeginFetch();
      match outcome
      case Rejected => FetchFailed();
      case Responded(response) => FetchSucceeded(response);
    }

    method SetPage(page: int)
      modifies this
      ensures State() == Step(old(State()), SetPageTo(page))
    {
      currentPage := page;
    }

    method SetPageSize(size: int)
      modifies this
      ensures State() == Step(old(State()), SetPageSizeTo(size))
    {
      pageSize := size;
      currentPage := InitialPage;
    }

    method SetSorting(keys: seq<SortKey>)
      modifies this
      ensures State() == Step(old(State()), SetSortingTo(keys))
    {
      sorting := keys;
    }

    method SetCompanyId(id: string)
      modifies this
      ensures State() == Step(old(State()), SetCompanyIdTo(id))
    {
      companyId := id;
    }

    /** `Math.ceil(totalItems / pageSize)`: with any item at all, the last
        page is partly or wholly filled, and no items means no pages. */
    function TotalPages(): (r: int)
      reads this
      requires pageSize > 0
      ensures (r - 1) * pageSize < totalItems <= r * pageSize
      ensures totalItems >= 0 ==> r >= 0 && (r == 0 <==> totalItems == 0)
    {
      assert totalItems >= 0 ==> PageCount(totalItems, pageSize) >= 0 &&
                                 (PageCount(totalItems, pageSize) == 0 <==> totalItems == 0) by {
        if totalItems >= 0 { PageCountZeroIff(totalItems, pageSize); }
      }
      PageCount(totalItems, pageSize)
    }
  }
}
