/**
 * POST /api/db/query (src/app/api/db/query/route.ts): runs a raw query
 * string, but only one whose trimmed, upper-cased text starts with SELECT.
 * The check is a prefix test, not a parser: accepted text may hold further
 * statements after the SELECT, or call functions that write, so what the
 * tables hold afterwards is an input.
 */
module QueryRoute {
  import opened Optional
  import opened Text
  import opened Json
  import opened Db

  const EmptyQueryError: string := "查询语句不能为空"
  const SelectOnlyError: string := "只允许执行SELECT查询"
  const QueryFailedError: string := "数据库查询失败"

  /**
   * The TypeError `result.fields.map` throws when the driver answers with an
   * array of results, whose `fields` is undefined.
   */
  const FieldsUndefinedError: string := "Cannot read properties of undefined (reading 'map')"

  /** The safelist: `query.trim().toUpperCase().startsWith("SELECT")`. */
  predicate IsSelect(query: string)
  {
    StartsWith(Upper(Trim(query)), "SELECT")
  }

  /** The validation reply for a `query` field, or `None` when it may run. */
  function Vet(query: Json): (r: Option<RouteResponse>)
    ensures r.None? <==> query.Str? && query.s != [] && IsSelect(query.s)
    ensures (!Truthy(query) || !query.Str?) ==> r == Some(Failure(400, EmptyQueryError))
    ensures query.Str? && query.s != [] && !IsSelect(query.s) ==> r == Some(Failure(400, SelectOnlyError))
  {
    if !Truthy(query) || TypeOf(query) != "string" then Some(Failure(400, EmptyQueryError))
    else if !IsSelect(query.s) then Some(Failure(400, SelectOnlyError))
    else None
  }

  /**
   * The safelist reads only the first word: whatever follows a leading
   * `SELECT` (further statements, say) is accepted with it.
   */
  lemma {:induction false} SafelistReadsFirstWordOnly(rest: string)
    ensures IsSelect("SELECT" + rest)
    ensures Vet(Str("SELECT" + rest)).None?
  {
    var q := "SELECT" + rest;
    KeywordPrefix(rest);
    assert TrimStart(q) == q;
    var t := TrimEnd(q);
    assert !IsSpace(q[5]);
    assert |t| >= 6;
    TrimEndPrefix(q);
    assert t[..6] == q[..6];
    UpperKeepsSelect(t);
  }

  lemma KeywordPrefix(tail: string)
    ensures |"SELECT" + tail| >= 6 && ("SELECT" + tail)[..6] == "SELECT"
  {
    var q := "SELECT" + tail;
    assert forall i :: 0 <= i < 6 ==> q[i] == "SELECT"[i];
  }

  lemma UpperKeepsSelect(q: string)
    requires |q| >= 6 && q[..6] == "SELECT"
    ensures StartsWith(Upper(q), "SELECT")
  {
    var u := Upper(q);
    forall i | 0 <= i < 6 ensures u[i] == "SELECT"[i] {
      assert q[i] == "SELECT"[i];
    }
  }

  /** Upper-casing a character twice is upper-casing it once; lower-casing first changes nothing. */
  lemma UpperOfLower(s: string)
    ensures Upper(Lower(s)) == Upper(s)
  {
  }

  /** The safelist ignores letter case and leading white space. */
  lemma {:induction false} SafelistIgnoresCaseAndPadding(w: string, query: string)
    requires AllSpace(w)
    ensures IsSelect(w + query) == IsSelect(query)
    ensures IsSelect(Lower(query)) == IsSelect(query)
  {
    TrimLeadingSpace(w, query);
    LowerTrimCommute(query);
    UpperOfLower(Trim(query));
  }

  lemma {:induction false} LowerTrimCommute(s: string)
    ensures Trim(Lower(s)) == Lower(Trim(s))
  {
    LowerTrimStartCommute(s);
    LowerTrimEndCommute(TrimStart(s));
  }

  lemma {:induction false} LowerTrimStartCommute(s: string)
    ensures TrimStart(Lower(s)) == Lower(TrimStart(s))
    decreases |s|
  {
    if s != [] {
      assert Lower(s)[1..] == Lower(s[1..]);
      LowerTrimStartCommute(s[1..]);
    }
  }

  lemma {:induction false} LowerTrimEndCommute(s: string)
    ensures TrimEnd(Lower(s)) == Lower(TrimEnd(s))
    decreases |s|
  {
    if s != [] {
      assert Lower(s)[..|s| - 1] == Lower(s[..|s| - 1]);
      LowerTrimEndCommute(s[..|s| - 1]);
    }
  }

  /**
   * The handler. A refused query is answered 400 with nothing executed and
   * no table touched; an accepted one is executed exactly as sent (untrimmed,
   * in its own case), and the tables then hold what the database made of it,
   * even when the reply is an error. One result is answered with its rows; an
   * array of results makes the reply's construction throw, which is answered
   * 500 after the text has run. Every connection taken is released.
   */
  method Post(db: Database, query: Json, answer: RawAnswer, postsAfter: map<int, bool>, blacklistAfter: set<string>, fault: Fault)
    returns (resp: RouteResponse)
    modifies db
    ensures db.checkedOut == old(db.checkedOut)
    ensures db.taken == old(db.taken) + (if Vet(query).None? && !fault.FailsConnect() then 1 else 0)
    ensures Vet(query).Some? ==>
      resp == Vet(query).value && db.log == old(db.log) && db.posts == old(db.posts) && db.blacklist == old(db.blacklist)
    ensures Vet(query).None? && fault.FailsConnect() ==>
      && resp == Failure(500, ErrorText(fault.error, QueryFailedError))
      && db.log == old(db.log) && db.posts == old(db.posts) && db.blacklist == old(db.blacklist)
    ensures Vet(query).None? && !fault.FailsConnect() ==>
      db.log == old(db.log) + [Statement(query.s, [])] && db.posts == postsAfter && db.blacklist == blacklistAfter
    ensures Vet(query).None? && fault.FailsStatement(0) ==> resp == Failure(500, ErrorText(fault.error, QueryFailedError))
    ensures Vet(query).None? && !fault.FailsConnect() && !fault.FailsStatement(0) ==>
      resp == if answer.OneResult? then RowsResponse(answer.result) else Failure(500, FieldsUndefinedError)
  {
    var rejected := Vet(query);
    if rejected.Some? {
      return rejected.value;
    }
    var connected := db.Connect(fault);
    if !connected {
      return Failure(500, ErrorText(fault.error, QueryFailedError));
    }
    db.Execute(Statement(query.s, []), postsAfter, blacklistAfter);
    if fault.FailsStatement(0) {
      resp := Failure(500, ErrorText(fault.error, QueryFailedError));
    } else if answer.OneResult? {
      resp := RowsResponse(answer.result);
    } else {
      resp := Failure(500, ErrorText(DbError("", FieldsUndefinedError), QueryFailedError));
    }
    db.Release();
  }
}
