/**
 * The post browser (src/app/database/page.tsx): it loads the newest posts
 * fifty at a time through the query route, or the posts matching a search
 * through the search route, appends further pages on request, and flips a
 * post's `is_public` through the update route, patching the rows on screen.
 * What each request resolves to is an input of the handler that makes it.
 */
module DatabasePage {
  import opened Optional
  import opened Text
  import opened Json
  import opened Db
  import QueryRoute
  import SearchRoute
  import UpdateRoute

  const PageSize: int := 50
  const NetworkError: string := "网络错误"

  /** A route's JSON reply as the page reads it: `{success, data?, columns?, rowCount?, error?}`. */
  datatype Reply = Reply(success: bool, data: Option<seq<Row>>, columns: Option<seq<Column>>, rowCount: Option<int>, error: Option<string>)

  /** What awaiting the request and its `response.json()` gives: the reply, or the message of what was thrown. */
  datatype Outcome<T> = Replied(reply: T) | Thrown(message: string)

  /** The body of a search request. */
  datatype SearchBody = SearchBody(searchText: string, page: int, limit: int, offset: int)

  /** The body of an update request; a `postId` of `undefined` is left out of the JSON and so arrives as `undefined`. */
  datatype ToggleBody = ToggleBody(postId: Json, isPublic: bool)

  /** The first row of page `page`. */
  function Offset(page: int): int
  {
    (page - 1) * PageSize
  }

  /** Page 1 starts at row 0 and each page starts where the one before it ends. */
  lemma OffsetTiles(page: int)
    ensures Offset(1) == 0
    ensures Offset(page + 1) == Offset(page) + PageSize
  {
  }

  const SelectKeyword: string := "SELECT"
  const PostColumns: string := " post_id, author_id, title, content, is_public FROM posts ORDER BY post_id DESC LIMIT "
  const OffsetKeyword: string := " OFFSET "

  /** The query a default load sends for page `page`. */
  function DefaultQuery(page: int): string
  {
    SelectKeyword + (PostColumns + IntToString(PageSize) + OffsetKeyword + IntToString(Offset(page))) + ";"
  }

  /** Every default query passes the query route's SELECT-only check. */
  lemma {:induction false} DefaultQueryAccepted(page: int)
    ensures QueryRoute.Vet(Str(DefaultQuery(page))).None?
  {
    var rest := PostColumns + IntToString(PageSize) + OffsetKeyword + IntToString(Offset(page));
    assert DefaultQuery(page) == "SELECT" + (rest + ";");
    QueryRoute.SafelistReadsFirstWordOnly(rest + ";");
  }

  /** The explicit offset a search sends is the one the search route would derive from its page and limit. */
  lemma SearchOffsetAgrees(page: int)
    ensures SearchRoute.EffectiveOffset(Num(page), Num(PageSize), Num(Offset(page)))
      == SearchRoute.EffectiveOffset(Num(page), Num(PageSize), Undefined)
  {
  }

  /** A search the page sends is never refused by the route's validation. */
  lemma SearchRequestAccepted(searchText: string)
    requires !IsBlank(searchText)
    ensures SearchRoute.Vet(Str(Trim(searchText))).None?
  {
  }

  /** Whether a reply carries rows: `data.success && data.data`. */
  predicate Delivered(o: Outcome<Reply>)
  {
    o.Replied? && o.reply.success && o.reply.data.Some?
  }

  /** Whether a result on screen has rows to extend or patch: `result && result.success && result.data`. */
  predicate HasRows(r: Option<Reply>)
  {
    r.Some? && r.value.success && r.value.data.Some?
  }

  /** The `setResult` updater of an appending load: the previous rows, then the new ones, under the new reply's other fields. */
  function Appended(prev: Option<Reply>, reply: Reply): (r: Reply)
    requires reply.data.Some?
    ensures r.success == reply.success && r.columns == reply.columns && r.rowCount == reply.rowCount && r.error == reply.error
    ensures HasRows(prev) ==> r.data == Some(prev.value.data.value + reply.data.value)
    ensures !HasRows(prev) ==> r == reply
  {
    if HasRows(prev) then reply.(data := Some(prev.value.data.value + reply.data.value)) else reply
  }

  /** Appending page after page keeps every row, in the order the pages came. */
  lemma AppendedInOrder(prev: Option<Reply>, a: Reply, b: Reply)
    requires HasRows(prev) && a.success && a.data.Some? && b.data.Some?
    ensures Appended(Some(Appended(prev, a)), b).data == Some(prev.value.data.value + a.data.value + b.data.value)
  {
  }

  /** What a failed load puts on screen when it does not append: the failing reply, or an error built from what was thrown. */
  function FailedResult(o: Outcome<Reply>): (r: Reply)
    ensures !r.success || o.Replied?
    ensures o.Thrown? ==> r == Reply(false, None, None, None, Some(if o.message != [] then o.message else NetworkError))
  {
    if o.Replied? then o.reply
    else Reply(false, None, None, None, Some(if o.message != [] then o.message else NetworkError))
  }

  /** `row[key]`: `undefined` when the row has no such column. */
  function Get(row: Row, key: string): (v: Json)
    ensures key in row ==> v == row[key]
    ensures key !in row ==> v == Undefined
  {
    if key in row then row[key] else Undefined
  }

  /** `a === b` on the values a row holds; objects and arrays compare by identity, which no value here has. */
  predicate StrictEquals(a: Json, b: Json)
  {
    a == b && !a.Obj? && !a.Arr?
  }

  /** Whether the switch shows a row as public: `is_public` is `true`, `"true"` or `1`. */
  predicate ShownPublic(row: Row)
  {
    var v := Get(row, "is_public");
    v == Bool(true) || v == Str("true") || v == Num(1)
  }

  /** `row.post_id === postId ? {...row, is_public: newValue} : row`. */
  function Patch(row: Row, postId: Json, newValue: bool): (r: Row)
    ensures StrictEquals(Get(row, "post_id"), postId) ==> r == row["is_public" := Bool(newValue)]
    ensures !StrictEquals(Get(row, "post_id"), postId) ==> r == row
  {
    if StrictEquals(Get(row, "post_id"), postId) then row["is_public" := Bool(newValue)] else row
  }

  /** `rows.map(row => Patch(row, postId, newValue))`. */
  function Toggled(rows: seq<Row>, postId: Json, newValue: bool): (r: seq<Row>)
    ensures |r| == |rows|
  {
    if rows == [] then [] else [Patch(rows[0], postId, newValue)] + Toggled(rows[1..], postId, newValue)
  }

  lemma {:induction false} ToggledAt(rows: seq<Row>, postId: Json, newValue: bool, i: nat)
    requires i < |rows|
    ensures Toggled(rows, postId, newValue)[i] == Patch(rows[i], postId, newValue)
  {
    if i > 0 {
      ToggledAt(rows[1..], postId, newValue, i - 1);
    }
  }

  /**
   * After a toggle the matching rows show the new value and keep every other
   * column; every other row is as it was.
   */
  lemma {:induction false} ToggledRows(rows: seq<Row>, postId: Json, newValue: bool)
    ensures forall i :: 0 <= i < |rows| && StrictEquals(Get(rows[i], "post_id"), postId) ==>
      ShownPublic(Toggled(rows, postId, newValue)[i]) == newValue &&
      Toggled(rows, postId, newValue)[i].Keys == rows[i].Keys + {"is_public"} &&
      forall k :: k in rows[i] && k != "is_public" ==> Toggled(rows, postId, newValue)[i][k] == rows[i][k]
    ensures forall i :: 0 <= i < |rows| && !StrictEquals(Get(rows[i], "post_id"), postId) ==>
      Toggled(rows, postId, newValue)[i] == rows[i]
  {
    forall i | 0 <= i < |rows|
      ensures Toggled(rows, postId, newValue)[i] == Patch(rows[i], postId, newValue)
    {
      ToggledAt(rows, postId, newValue, i);
    }
  }

  /** Toggling to a value twice is toggling to it once. */
  lemma {:induction false} ToggledIdempotent(rows: seq<Row>, postId: Json, newValue: bool)
    ensures Toggled(Toggled(rows, postId, newValue), postId, newValue) == Toggled(rows, postId, newValue)
  {
    if rows != [] {
      ToggledIdempotent(rows[1..], postId, newValue);
      var p := Patch(rows[0], postId, newValue);
      assert Get(p, "post_id") == Get(rows[0], "post_id");
      assert Patch(p, postId, newValue) == p;
      var t := Toggled(rows, postId, newValue);
      assert t[0] == p && t[1..] == Toggled(rows[1..], postId, newValue);
    }
  }

  /**
   * A row's switch sends the row's own `post_id` and the opposite of what it
   * shows, so once the update succeeds that row shows the other state.
   */
  lemma SwitchFlipsRow(row: Row)
    requires !Get(row, "post_id").Obj? && !Get(row, "post_id").Arr?
    ensures ShownPublic(Patch(row, Get(row, "post_id"), !ShownPublic(row))) == !ShownPublic(row)
  {
  }

  /**
   * The update a switch sends is accepted by the update route for a numeric
   * post id, and addresses that post when the id is within the column's
   * range (otherwise the database refuses it); a row without `post_id` sends none and
   * is refused.
   */
  lemma ToggleRequestAccepted(n: int, newValue: bool)
    ensures UpdateRoute.Vet(Num(n), Bool(newValue)).None?
    ensures UpdateRoute.InIntegerRange(n) ==> UpdateRoute.PostKey(Num(n)) == Some(n)
    ensures !UpdateRoute.InIntegerRange(n) ==> UpdateRoute.PostKey(Num(n)).None?
    ensures UpdateRoute.Vet(Undefined, Bool(newValue)) == Some(Failure(400, UpdateRoute.MissingPostIdError))
  {
  }

  class Page {
    var loading: bool
    var result: Option<Reply>
    var searchText: string
    var isSearching: bool
    var updatingIds: set<Json>
    var currentPage: int
    var isSearchMode: bool
    var hasMore: bool

    constructor ()
      ensures !loading && result.None? && searchText == [] && !isSearching && updatingIds == {}
      ensures currentPage == 1 && !isSearchMode && !hasMore
    {
      loading := false;
      result := None;
      searchText := [];
      isSearching := false;
      updatingIds := {};
      currentPage := 1;
      isSearchMode := false;
      hasMore := false;
    }

    /** The search box's `onChange`. */
    method SetSearchText(text: string)
      modifies this`searchText
      ensures searchText == text
    {
      searchText := text;
    }

    /**
     * Where a settled load leaves the page. A reply with rows replaces the
     * result, or extends it when appending; `hasMore` says whether the page
     * was full, and the page and mode become the ones loaded. Anything else
     * replaces the result only when not appending, and a load that does not
     * append has reset the page to 1.
     */
    twostate predicate Landed(page: int, append: bool, outcome: Outcome<Reply>, searchMode: bool)
      reads this
    {
      && (Delivered(outcome) ==>
        && result == Some(if append then Appended(old(result), outcome.reply) else outcome.reply)
        && hasMore == (|outcome.reply.data.value| == PageSize)
        && currentPage == page && isSearchMode == searchMode)
      && (!Delivered(outcome) ==>
        && result == (if append then old(result) else Some(FailedResult(outcome)))
        && hasMore == old(hasMore) && isSearchMode == old(isSearchMode)
        && currentPage == (if append then old(currentPage) else 1))
    }

    /** What both loaders do once their request settles. */
    method Land(page: int, append: bool, outcome: Outcome<Reply>, searchMode: bool)
      modifies this`result, this`hasMore, this`currentPage, this`isSearchMode, this`loading
      ensures !loading && Landed(page, append, outcome, searchMode)
    {
      if !append {
        result := None;
        currentPage := 1;
      }
      if Delivered(outcome) {
        var newData := outcome.reply.data.value;
        if append {
          result := Some(Appended(result, outcome.reply));
        } else {
          result := Some(outcome.reply);
        }
        hasMore := |newData| == PageSize;
        currentPage := page;
        isSearchMode := searchMode;
      } else if !append {
        result := Some(FailedResult(outcome));
      }
      loading := false;
    }

    /** `loadDefaultData(page, append)`: the newest posts, page `page`, through the query route. */
    method LoadDefaultData(page: int, append: bool, outcome: Outcome<Reply>) returns (query: string)
      modifies this`result, this`hasMore, this`currentPage, this`isSearchMode, this`loading
      ensures query == DefaultQuery(page) && !loading
      ensures Landed(page, append, outcome, false)
    {
      loading := true;
      query := DefaultQuery(page);
      Land(page, append, outcome, false);
    }

    /**
     * `handleSearch(page, append)`: a blank search box is refused before any
     * request and changes nothing; otherwise the trimmed text is sent with the
     * page, the page size and the page's offset, and the reply lands as for a
     * default load, in search mode.
     */
    method HandleSearch(page: int, append: bool, outcome: Outcome<Reply>) returns (body: Option<SearchBody>)
      modifies this`result, this`hasMore, this`currentPage, this`isSearchMode, this`loading, this`isSearching
      ensures IsBlank(searchText) ==> body.None? && unchanged(this)
      ensures !IsBlank(searchText) ==>
        && body == Some(SearchBody(Trim(searchText), page, PageSize, Offset(page)))
        && !loading && !isSearching && Landed(page, append, outcome, true)
    {
      if IsBlank(searchText) {
        return None;
      }
      body := Some(SearchBody(Trim(searchText), page, PageSize, Offset(page)));
      Search(page, append, outcome);
    }

    /** The part of `handleSearch` after the check: the search is in progress until its reply has landed. */
    method Search(page: int, append: bool, outcome: Outcome<Reply>)
      modifies this`result, this`hasMore, this`currentPage, this`isSearchMode, this`loading, this`isSearching
      ensures !loading && !isSearching && Landed(page, append, outcome, true)
    {
      isSearching := true;
      loading := true;
      Land(page, append, outcome, true);
      isSearching := false;
    }

    /**
     * `loadNextPage`: the page after the current one, appended, in the
     * current mode. A failed request leaves the rows, the page and `hasMore`
     * as they were; in search mode a blank box sends nothing and changes nothing.
     */
    method LoadNextPage(outcome: Outcome<Reply>) returns (query: Option<string>, body: Option<SearchBody>)
      modifies this`result, this`hasMore, this`currentPage, this`isSearchMode, this`loading, this`isSearching
      ensures !old(isSearchMode) ==> query == Some(DefaultQuery(old(currentPage) + 1)) && body.None?
      ensures old(isSearchMode) && IsBlank(searchText) ==> query.None? && body.None? && unchanged(this)
      ensures old(isSearchMode) && !IsBlank(searchText) ==>
        query.None? && body == Some(SearchBody(Trim(searchText), old(currentPage) + 1, PageSize, Offset(old(currentPage) + 1)))
      ensures (query.Some? || body.Some?) && Delivered(outcome) ==>
        && result == Some(Appended(old(result), outcome.reply))
        && currentPage == old(currentPage) + 1 && isSearchMode == old(isSearchMode)
        && hasMore == (|outcome.reply.data.value| == PageSize)
      ensures !Delivered(outcome) ==> result == old(result) && currentPage == old(currentPage) && isSearchMode == old(isSearchMode)
      ensures (query.Some? || body.Some?) && !Delivered(outcome) ==> hasMore == old(hasMore) && !loading
      ensures query.Some? || body.Some? ==> !loading
      ensures body.Some? ==> !isSearching
      ensures query.Some? ==> isSearching == old(isSearching)
    {
      var nextPage := currentPage + 1;
      if isSearchMode {
        query := None;
        body := HandleSearch(nextPage, true, outcome);
      } else {
        var q := LoadDefaultData(nextPage, true, outcome);
        query, body := Some(q), None;
      }
    }

    /**
     * `handleTogglePublic(postId, currentValue)`: asks for the opposite value;
     * once the route reports success, the rows on screen whose `post_id` is
     * `postId` take that value. The id is busy only while the request is out.
     */
    method HandleTogglePublic(postId: Json, currentValue: bool, outcome: Outcome<bool>) returns (body: ToggleBody)
      modifies this`updatingIds, this`result
      ensures body == ToggleBody(postId, !currentValue)
      ensures updatingIds == old(updatingIds) - {postId}
      ensures outcome == Replied(true) && HasRows(old(result)) ==>
        result == Some(old(result).value.(data := Some(Toggled(old(result).value.data.value, postId, !currentValue))))
      ensures !(outcome == Replied(true) && HasRows(old(result))) ==> result == old(result)
    {
      var newValue := !currentValue;
      updatingIds := updatingIds + {postId};
      body := ToggleBody(postId, newValue);
      if outcome == Replied(true) && HasRows(result) {
        var updatedData := Toggled(result.value.data.value, postId, newValue);
        result := Some(result.value.(data := Some(updatedData)));
      }
      updatingIds := updatingIds - {postId};
    }
  }

  /**
   * The first page, then the next: the second request asks for the rows
   * right after the first page's, and the screen shows both pages in order.
   */
  method FirstThenNext(page: Page, first: Reply, second: Reply) returns (q1: string, q2: Option<string>)
    requires first.success && first.data.Some? && second.success && second.data.Some?
    modifies page
    ensures q1 == DefaultQuery(1) && q2 == Some(DefaultQuery(2))
    ensures page.result.Some? && page.result.value.data == Some(first.data.value + second.data.value)
    ensures page.currentPage == 2 && !page.isSearchMode
  {
    q1 := page.LoadDefaultData(1, false, Replied(first));
    var body;
    q2, body := page.LoadNextPage(Replied(second));
  }
}
