/**
 * POST /api/db/blacklist (src/app/api/db/blacklist/route.ts): adds a user id
 * to the blacklist table unless it is already there.
 */
module BlacklistRoute {
  import opened Optional
  import opened Text
  import opened Json
  import opened Db

  const CheckSql: string := "SELECT user_id FROM blacklist WHERE user_id = $1"
  const InsertSql: string := "INSERT INTO blacklist (user_id) VALUES ($1) RETURNING user_id"

  const MissingUserIdError: string := "user_id不能为空"
  const AlreadyListedError: string := "该用户已在黑名单中"
  const BlacklistFailedError: string := "添加到黑名单失败"

  /** PostgreSQL's SQLSTATE for a unique-constraint violation. */
  const UniqueViolation: string := "23505"

  /** The validation reply: a falsy id, or one that is neither a string nor a number, is refused. */
  function Vet(userId: Json): (r: Option<RouteResponse>)
    ensures r.None? <==> (userId.Str? && userId.s != []) || (userId.Num? && userId.n != 0)
    ensures r.Some? ==> r.value == Failure(400, MissingUserIdError)
  {
    if !Truthy(userId) || (TypeOf(userId) != "string" && TypeOf(userId) != "number") then Some(Failure(400, MissingUserIdError))
    else None
  }

  /** The text the `user_id` column stores for an accepted id. */
  function UserKey(userId: Json): (key: string)
    requires userId.Str? || userId.Num?
  {
    if userId.Str? then userId.s else IntToString(userId.n)
  }

  /** A number and its numeral string name the same row, and distinct numbers name distinct rows. */
  lemma UserKeyAgrees(m: int, n: int)
    ensures UserKey(Num(n)) == UserKey(Str(IntToString(n)))
    ensures UserKey(Num(m)) == UserKey(Num(n)) <==> m == n
  {
    if UserKey(Num(m)) == UserKey(Num(n)) {
      IntToStringInjective(m, n);
    }
  }

  /** The `catch` block: a unique violation means a concurrent insert won; anything else is a 500. */
  function Caught(e: DbError): (resp: RouteResponse)
    ensures e.code == UniqueViolation ==> resp == Failure(400, AlreadyListedError)
    ensures e.code != UniqueViolation ==> resp == Failure(500, ErrorText(e, BlacklistFailedError))
  {
    if e.code == UniqueViolation then Failure(400, AlreadyListedError)
    else Failure(500, ErrorText(e, BlacklistFailedError))
  }

  /**
   * The handler. After validation the id is looked up; a listed id is
   * answered 400 and nothing is inserted; otherwise it is inserted and the
   * inserted row returned. A thrown error is answered by `Caught`; the
   * connection is always released, and the table only ever gains the one id.
   */
  method Post(db: Database, userId: Json, fault: Fault) returns (resp: RouteResponse)
    modifies db
    ensures db.checkedOut == old(db.checkedOut) && db.posts == old(db.posts)
    ensures db.taken == old(db.taken) + (if Vet(userId).None? && !fault.FailsConnect() then 1 else 0)
    ensures Vet(userId).Some? ==> resp == Vet(userId).value && db.log == old(db.log) && db.blacklist == old(db.blacklist)
    ensures Vet(userId).None? ==>
      var key := UserKey(userId);
      var check := Statement(CheckSql, [Value(userId)]);
      var insert := Statement(InsertSql, [Value(userId)]);
      if fault.FailsConnect() then
        resp == Caught(fault.error) && db.log == old(db.log) && db.blacklist == old(db.blacklist)
      else if fault.FailsStatement(0) then
        resp == Caught(fault.error) && db.log == old(db.log) + [check] && db.blacklist == old(db.blacklist)
      else if key in old(db.blacklist) then
        resp == Failure(400, AlreadyListedError) && db.log == old(db.log) + [check] && db.blacklist == old(db.blacklist)
      else if fault.FailsStatement(1) then
        resp == Caught(fault.error) && db.log == old(db.log) + [check, insert] && db.blacklist == old(db.blacklist)
      else
        resp == RowReply(map["user_id" := Str(key)]) && db.log == old(db.log) + [check, insert] &&
        db.blacklist == old(db.blacklist) + {key}
    ensures old(db.blacklist) <= db.blacklist
  {
    var rejected := Vet(userId);
    if rejected.Some? {
      return rejected.value;
    }
    var key := UserKey(userId);
    var connected := db.Connect(fault);
    if !connected {
      return Caught(fault.error);
    }
    db.Send(Statement(CheckSql, [Value(userId)]));
    if fault.FailsStatement(0) {
      resp := Caught(fault.error);
    } else if key in db.blacklist {
      resp := Failure(400, AlreadyListedError);
    } else {
      db.Send(Statement(InsertSql, [Value(userId)]));
      if fault.FailsStatement(1) {
        resp := Caught(fault.error);
      } else {
        db.blacklist := db.blacklist + {key};
        resp := RowReply(map["user_id" := Str(key)]);
      }
    }
    db.Release();
  }

  /** Adding the same user twice: the first request lists them, the second is refused and changes nothing. */
  method AddTwice(db: Database, userId: Json) returns (first: RouteResponse, second: RouteResponse)
    requires Vet(userId).None?
    modifies db
    ensures UserKey(userId) !in old(db.blacklist) ==> first == RowReply(map["user_id" := Str(UserKey(userId))])
    ensures second == Failure(400, AlreadyListedError)
    ensures db.blacklist == old(db.blacklist) + {UserKey(userId)}
  {
    first := Post(db, userId, NoFault);
    second := Post(db, userId, NoFault);
  }
}
