/**
 * POST /api/db/search (src/app/api/db/search/route.ts): a paged substring
 * search over the posts' content, with the search text, page size and offset
 * always passed as bound parameters.
 */
module SearchRoute {
  import opened Optional
  import opened Text
  import opened Json
  import opened Db

  const SearchSql: string :=
    "SELECT post_id, author_id, title, content, is_public FROM posts WHERE content LIKE $1 ORDER BY post_id DESC LIMIT $2 OFFSET $3"

  const EmptySearchError: string := "搜索关键词不能为空"
  const SearchFailedError: string := "数据库搜索失败"

  const DefaultPage: int := 1
  const DefaultLimit: int := 50

  /** A destructuring default: it applies only when the field is `undefined`. */
  function OrDefault(j: Json, default: int): Json
  {
    if j.Undefined? then Num(default) else j
  }

  /** `offset !== undefined ? offset : (page - 1) * limit`, after the defaults, with JavaScript's numeric coercion. */
  function EffectiveOffset(page: Json, limit: Json, offset: Json): (r: Param)
  {
    if !offset.Undefined? then Value(offset)
    else
      var p := ToNumber(OrDefault(page, DefaultPage));
      var l := ToNumber(OrDefault(limit, DefaultLimit));
      if p.Some? && l.Some? then Value(Num((p.value - 1) * l.value)) else NaN
  }

  /**
   * An explicit offset always wins. Without one, page 1 starts at row 0 and
   * each page starts where the one before it ends, so pages neither overlap
   * nor leave gaps; with no page or limit given the defaults are 1 and 50.
   */
  lemma OffsetTilesPages(p: int, l: int, offset: Json)
    ensures !offset.Undefined? ==> EffectiveOffset(Num(p), Num(l), offset) == Value(offset)
    ensures EffectiveOffset(Num(1), Num(l), Undefined) == Value(Num(0))
    ensures EffectiveOffset(Num(p + 1), Num(l), Undefined).Value?
    ensures EffectiveOffset(Num(p + 1), Num(l), Undefined).v == Num(EffectiveOffset(Num(p), Num(l), Undefined).v.n + l)
    ensures EffectiveOffset(Undefined, Undefined, Undefined) == Value(Num(0))
    ensures EffectiveOffset(Num(p), Undefined, Undefined) == Value(Num((p - 1) * DefaultLimit))
  {
    assert (p + 1 - 1) * l == (p - 1) * l + l;
  }

  /** A page sent as a numeral string counts as that number; an object page gives `NaN`. */
  lemma OffsetCoercesPage(p: int, l: int)
    ensures EffectiveOffset(Str(IntToString(p)), Num(l), Undefined) == Value(Num((p - 1) * l))
    ensures EffectiveOffset(Obj(map[]), Num(l), Undefined) == NaN
  {
    NumberOfNumeral(p);
  }

  /** A page sent as a one-element array of a number counts as that number, and an empty array as 0. */
  lemma OffsetOfArrayPage(p: int, l: int)
    ensures EffectiveOffset(Arr([Num(p)]), Num(l), Undefined) == Value(Num((p - 1) * l))
    ensures EffectiveOffset(Arr([]), Num(l), Undefined) == Value(Num(-l))
  {
    assert ToNumber(Arr([Num(p)])) == Some(p) by {
      ArrayNumber(Num(p));
    }
    assert ToNumber(Arr([])) == Some(0) by {
      ArrayNumber(Num(p));
    }
  }

  /** The validation reply for `searchText`, or `None` when the search may run. */
  function Vet(searchText: Json): (r: Option<RouteResponse>)
    ensures r.None? <==> searchText.Str? && searchText.s != []
    ensures r.Some? ==> r.value == Failure(400, EmptySearchError)
  {
    if !Truthy(searchText) || TypeOf(searchText) != "string" then Some(Failure(400, EmptySearchError)) else None
  }

  /** The statement a valid search sends: `["%" + text + "%", limit, offset]`, the text never spliced into the SQL. */
  function SearchStatement(text: string, page: Json, limit: Json, offset: Json): (s: Statement)
    ensures s.sql == SearchSql && |s.params| == 3
    ensures s.params[0] == Value(Str("%" + text + "%"))
    ensures s.params[1] == Value(OrDefault(limit, DefaultLimit))
    ensures s.params[2] == EffectiveOffset(page, limit, offset)
  {
    Statement(SearchSql, [Value(Str("%" + text + "%")), Value(OrDefault(limit, DefaultLimit)), EffectiveOffset(page, limit, offset)])
  }

  /**
   * The handler. An empty or non-string search text is answered 400 before any
   * connection is taken; otherwise the one parameterized statement runs, the
   * connection is released, and a thrown error is answered 500.
   */
  method Post(db: Database, searchText: Json, page: Json, limit: Json, offset: Json, answer: QueryResult, fault: Fault)
    returns (resp: RouteResponse)
    modifies db
    ensures db.checkedOut == old(db.checkedOut) && db.posts == old(db.posts) && db.blacklist == old(db.blacklist)
    ensures db.taken == old(db.taken) + (if Vet(searchText).None? && !fault.FailsConnect() then 1 else 0)
    ensures Vet(searchText).Some? ==> resp == Vet(searchText).value && db.log == old(db.log)
    ensures Vet(searchText).None? && fault.FailsConnect() ==>
      resp == Failure(500, ErrorText(fault.error, SearchFailedError)) && db.log == old(db.log)
    ensures Vet(searchText).None? && !fault.FailsConnect() ==>
      db.log == old(db.log) + [SearchStatement(searchText.s, page, limit, offset)]
    ensures Vet(searchText).None? && fault.FailsStatement(0) ==> resp == Failure(500, ErrorText(fault.error, SearchFailedError))
    ensures Vet(searchText).None? && !fault.FailsConnect() && !fault.FailsStatement(0) ==> resp == RowsResponse(answer)
  {
    var rejected := Vet(searchText);
    if rejected.Some? {
      return rejected.value;
    }
    var connected := db.Connect(fault);
    if !connected {
      return Failure(500, ErrorText(fault.error, SearchFailedError));
    }
    db.Send(SearchStatement(searchText.s, page, limit, offset));
    if fault.FailsStatement(0) {
      resp := Failure(500, ErrorText(fault.error, SearchFailedError));
    } else {
      resp := RowsResponse(answer);
    }
    db.Release();
  }
}
