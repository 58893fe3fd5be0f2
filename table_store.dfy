/**
 * The generic table store: a page of records fetched with a GET request
 * carrying `page` and `limit`, plus the loading and error flags, the page
 * window and the sort descriptor. The response body is untyped, so the
 * records and the total are whatever JavaScript values the decoding rule
 * `items || body` / `totalItems || body.length` yields.
 */
module TableStore {
  import opened Options
  import opened JsValues
  import opened ListState

  /** The fixed message stored when a fetch fails. */
  const FetchErrorMessage: string := "데이터를 불러오는 중 오류가 발생했습니다."

  /** The query parameters of the GET request. The sort descriptor is not
      among them. */
  datatype Query = Query(page: int, limit: int)

  /** The two values a response is decoded into: the records and the total. */
  datatype Decoded = Decoded(items: JsValue, total: JsValue)

  /** The decoding of a response body. Reading `items` of a null or
      undefined body throws, which sends the fetch to its failure step;
      `None` stands for that. Once `body.items` has been read, reading
      `body.totalItems` and `body.length` cannot throw, so no state is ever
      half-updated. */
  function DecodeListBody(body: JsValue): (r: Option<Decoded>)
    ensures r.None? <==> Nullish(body)
    ensures r.Some? ==> Truthy(r.value.items) || r.value.items == body
  {
    var items := Get(body, "items");
    if items.None? then None
    else
      var total, length := Get(body, "totalItems"), Get(body, "length");
      Some(Decoded(Or(items.value, body), Or(total.value, length.value)))
  }

  /** A bare array of n records is installed as is, with total n. */
  lemma BareArrayDecoding(records: seq<JsValue>)
    ensures DecodeListBody(Array(records)) == Some(Decoded(Array(records), Number(|records|)))
  {
  }

  /** A string body (a response that is not JSON) is installed as the
      records, with its UTF-16 length as the total. */
  lemma StringBodyDecoding(text: string)
    ensures DecodeListBody(Str(text)) == Some(Decoded(Str(text), Number(Utf16Length(text))))
  {
  }

  /** A wrapped body whose `items` is an array installs that array, even
      when it is empty, and a non-zero numeric `totalItems` is taken as the
      total. */
  lemma WrappedBodyDecoding(fields: map<string, JsValue>, items: seq<JsValue>, total: int)
    requires "items" in fields && fields["items"] == Array(items)
    requires "totalItems" in fields && fields["totalItems"] == Number(total) && total != 0
    ensures DecodeListBody(Object(fields)) == Some(Decoded(Array(items), Number(total)))
  {
  }

  /** A `totalItems` of 0 is falsy and is not used: the total falls back to
      the body's own `length` key, which a wrapped body normally lacks, so
      the stored total is then undefined. */
  lemma ZeroTotalFallsBack(fields: map<string, JsValue>)
    requires "totalItems" in fields && fields["totalItems"] == Number(0)
    ensures DecodeListBody(Object(fields)).Some?
    ensures DecodeListBody(Object(fields)).value.total
         == if "length" in fields then fields["length"] else Undefined
  {
  }

  /** A wrapped body without a truthy `items` installs the body object itself
      as the records. */
  lemma MissingItemsFallBack(fields: map<string, JsValue>)
    requires "items" !in fields || !Truthy(fields["items"])
    ensures DecodeListBody(Object(fields)).Some?
    ensures DecodeListBody(Object(fields)).value.items == Object(fields)
  {
  }

  /** A snapshot of the store's fields. */
  datatype TableState = TableState(
    data: JsValue,
    loading: bool,
    error: Option<string>,
    currentPage: int,
    pageSize: int,
    totalItems: JsValue,
    sorting: seq<SortKey>)

  /** The field initialisers of a fresh store. */
  const InitialState: TableState :=
    TableState(Array([]), false, None, InitialPage, InitialPageSize, Number(0), [])

  /** The store's actions: the three steps of a fetch and the three setters. */
  datatype TableAction =
    | Begin
    | Succeed(body: JsValue)
    | Fail
    | SetPageTo(page: int)
    | SetPageSizeTo(size: int)
    | SetSortingTo(keys: seq<SortKey>)

  /** The failure step: the fixed message is shown and loading stops. */
  function Failed(s: TableState): (r: TableState)
    ensures r.error == Some(FetchErrorMessage) && !r.loading
    ensures r.data == s.data && r.totalItems == s.totalItems
    ensures r.currentPage == s.currentPage && r.pageSize == s.pageSize && r.sorting == s.sorting
  {
    s.(error := Some(FetchErrorMessage), loading := false)
  }

  /** What each action does to the fields; every field it does not name is
      left as it was. A response whose decoding throws ends in the failure
      step. */
  function Step(s: TableState, a: TableAction): (r: TableState)
    ensures FetchStateConsistent(s) ==> FetchStateConsistent(r)
    ensures a.Begin? ==> r.loading && r.error.None?
    ensures (a.Succeed? || a.Fail?) ==> !r.loading
    ensures IsSetter(a) ==> r.data == s.data && r.totalItems == s.totalItems &&
                            r.loading == s.loading && r.error == s.error
  {
    match a
    case Begin => s.(loading := true, error := None)
    case Succeed(body) =>
      (match DecodeListBody(body)
       case None => Failed(s)
       case Some(d) => s.(data := d.items, totalItems := d.total, loading := false))
    case Fail => Failed(s)
    case SetPageTo(page) => s.(currentPage := page)
    case SetPageSizeTo(size) => s.(pageSize := size, currentPage := InitialPage)
    case SetSortingTo(keys) => s.(sorting := keys)
  }

  /** The state after a sequence of actions, applied in the order given. */
  function Run(s: TableState, actions: seq<TableAction>): TableState
    decreases |actions|
  {
    if actions == [] then s else Run(Step(s, actions[0]), actions[1..])
  }

  /** The query parameters a fetch begun in state `s` sends. */
  function QueryOf(s: TableState): (q: Query)
    ensures q.page == s.currentPage && q.limit == s.pageSize
  {
    Query(s.currentPage, s.pageSize)
  }

  /** An error is only ever shown once loading has stopped. */
  predicate FetchStateConsistent(s: TableState) {
    s.error.Some? ==> !s.loading
  }

  predicate IsSetter(a: TableAction) {
    a.SetPageTo? || a.SetPageSizeTo? || a.SetSortingTo?
  }

  /** Beginning a fetch and then completing it, from any state: loading has
      stopped, an error is shown exactly when the request rejected or its
      body was nullish, and then the previous records and total are kept;
      on success the decoded records and total are installed. The page
      window and the sorting are untouched either way. */
  lemma FetchSettles(s: TableState, outcome: FetchOutcome<JsValue>)
    ensures var last := if outcome.Rejected? then Fail else Succeed(outcome.body);
            var t := Step(Step(s, Begin), last);
            && !t.loading
            && (t.error.Some? <==> outcome.Rejected? || Nullish(outcome.body))
            && (t.error.Some? ==> t.error == Some(FetchErrorMessage) &&
                                  t.data == s.data && t.totalItems == s.totalItems)
            && (t.error.None? ==> Some(Decoded(t.data, t.totalItems)) == DecodeListBody(outcome.body))
            && t.currentPage == s.currentPage && t.pageSize == s.pageSize && t.sorting == s.sorting
  {
  }

  /** The request depends on the page window only: changing the sorting
      never changes what is sent. */
  lemma SortingIsNotSent(s: TableState, keys: seq<SortKey>)
    ensures QueryOf(Step(s, SetSortingTo(keys))) == QueryOf(s)
  {
  }

  /** Every sequence of actions keeps the fetch state consistent. */
  lemma {:induction false} RunKeepsFetchStateConsistent(s: TableState, actions: seq<TableAction>)
    requires FetchStateConsistent(s)
    ensures FetchStateConsistent(Run(s, actions))
    decreases |actions|
  {
    if actions != [] {
      RunKeepsFetchStateConsistent(Step(s, actions[0]), actions[1..]);
    }
  }

  /** Paging and sorting alone never touch the records, the total or the
      fetch flags: those change only through a fetch. */
  lemma {:induction false} SettersKeepRecords(s: TableState, actions: seq<TableAction>)
    requires forall i :: 0 <= i < |actions| ==> IsSetter(actions[i])
    ensures Run(s, actions).data == s.data && Run(s, actions).totalItems == s.totalItems
    ensures Run(s, actions).loading == s.loading && Run(s, actions).error == s.error
    decreases |actions|
  {
    if actions != [] {
      SettersKeepRecords(Step(s, actions[0]), actions[1..]);
    }
  }

  /** Responses are installed in the order they arrive, whatever request
      they answer: when the answer to an earlier request for another page
      arrives last, the store shows that page's records on page 2. */
  lemma StaleResponseOverwrites(s: TableState, stale: seq<JsValue>, latest: seq<JsValue>)
    ensures var t := Run(s, [Begin, SetPageTo(2), Begin, Succeed(Array(latest)), Succeed(Array(stale))]);
            t.data == Array(stale) && t.totalItems == Number(|stale|) && t.currentPage == 2
  {
    var actions := [Begin, SetPageTo(2), Begin, Succeed(Array(latest)), Succeed(Array(stale))];
    var s1 := Step(s, Begin);
    var s2 := Step(s1, SetPageTo(2));
    var s3 := Step(s2, Begin);
    var s4 := Step(s3, Succeed(Array(latest)));
    var s5 := Step(s4, Succeed(Array(stale)));
    assert Run(s4, actions[4..]) == s5;
    assert Run(s3, actions[3..]) == s5 by { assert actions[3..][1..] == actions[4..]; }
    assert Run(s2, actions[2..]) == s5 by { assert actions[2..][1..] == actions[3..]; }
    assert Run(s1, actions[1..]) == s5 by { assert actions[1..][1..] == actions[2..]; }
  }

  class TableStore {
    var data: JsValue
    var loading: bool
    var error: Option<string>
    var currentPage: int
    var pageSize: int
    var totalItems: JsValue
    var sorting: seq<SortKey>

    /** The fields as one value. */
    function State(): TableState
      reads this
    {
      TableState(data, loading, error, currentPage, pageSize, totalItems, sorting)
    }

    constructor ()
      ensures State() == InitialState
      ensures FetchStateConsistent(State())
    {
      data := Array([]);
      loading := false;
      error := None;
      currentPage := InitialPage;
      pageSize := InitialPageSize;
      totalItems := Number(0);
      sorting := [];
    }

    /** The step before the request is awaited: loading starts, any earlier
        error is cleared, and the request is issued for the current page
        window. */
    method BeginFetch() returns (query: Query)
      modifies this
      ensures State() == Step(old(State()), Begin)
      ensures query == QueryOf(old(State()))
    {
      loading := true;
      error := None;
      query := Query(currentPage, pageSize);
    }

    /** The step after the request rejects, or after the decoding throws. */
    method FetchFailed()
      modifies this
      ensures State() == Step(old(State()), Fail)
    {
      error := Some(FetchErrorMessage);
      loading := false;
    }

    /** The step after the request resolves with `body`. */
    method FetchSucceeded(body: JsValue)
      modifies this
      ensures State() == Step(old(State()), Succeed(body))
    {
      var decoded := DecodeListBody(body);
      if decoded.None? {
        FetchFailed();
      } else {
        data := decoded.value.items;
        totalItems := decoded.value.total;
        loading := false;
      }
    }

    /** The whole fetch as one atomic transition: begin, then the step the
        outcome selects. */
    method FetchData(outcome: FetchOutcome<JsValue>) returns (query: Query)
      modifies this
      ensures query == QueryOf(old(State()))
      ensures State() == Step(Step(old(State()), Begin), if outcome.Rejected? then Fail else Succeed(outcome.body))
    {
      query := BeginFetch();
      match outcome
      case Rejected => FetchFailed();
      case Responded(body) => FetchSucceeded(body);
    }

    method SetPage(page: int)
      modifies this
      ensures State() == Step(old(State()), SetPageTo(page))
    {
      currentPage := page;
    }

    method SetPageSize(size: int)
      modifies this
      ensures State() == Step(old(State()), SetPageSizeTo(size))
    {
      pageSize := size;
      currentPage := InitialPage;
    }

    method SetSorting(keys: seq<SortKey>)
      modifies this
      ensures State() == Step(old(State()), SetSortingTo(keys))
    {
      sorting := keys;
    }

    /** `Math.ceil(totalItems / pageSize)`; `None` stands for NaN, which a
        total that is not a number (undefined, an object) gives. */
    function TotalPages(): (r: Option<int>)
      reads this
      requires pageSize > 0
      ensures r.None? <==> ToNumber(totalItems).None?
      ensures r.Some? ==> (r.value - 1) * pageSize < ToNumber(totalItems).value <= r.value * pageSize
      ensures totalItems.Number? && totalItems.n >= 0 ==>
                r.Some? && r.value >= 0 && (r.value == 0 <==> totalItems.n == 0)
    {
      match ToNumber(totalItems)
      case None => None
      case Some(n) =>
        assert n >= 0 ==> PageCount(n, pageSize) >= 0 && (PageCount(n, pageSize) == 0 <==> n == 0) by {
          if n >= 0 { PageCountZeroIff(n, pageSize); }
        }
        Some(PageCount(n, pageSize))
    }
  }
}
