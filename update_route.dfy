/**
 * POST /api/db/update (src/app/api/db/update/route.ts): sets one post's
 * `is_public` flag by its `post_id`, with both values bound as parameters.
 */
module UpdateRoute {
  import opened Optional
  import opened Text
  import opened Json
  import opened Db

  const UpdateSql: string := "UPDATE posts SET is_public = $1 WHERE post_id = $2 RETURNING post_id, is_public"

  const MissingPostIdError: string := "post_id不能为空"
  const NotBooleanError: string := "is_public必须是布尔值"
  const PostNotFoundError: string := "未找到对应的帖子"
  const UpdateFailedError: string := "数据库更新失败"

  /**
   * The range of PostgreSQL's `integer`, the type this model takes `post_id`
   * to have; the schema itself is not part of this model.
   */
  const IntegerMin: int := -0x8000_0000
  const IntegerMax: int := 0x7FFF_FFFF

  predicate InIntegerRange(n: int)
  {
    IntegerMin <= n <= IntegerMax
  }

  /**
   * The `post_id` the database reads from the bound parameter: a number as
   * itself, a string holding an optionally signed decimal integer as that
   * integer, in both cases only within the column's range. Anything else (a
   * blank string, a boolean, an object, an array, a value out of range) is
   * one the database refuses, and the statement throws.
   */
  function PostKey(postId: Json): (k: Option<int>)
    ensures k.Some? ==> InIntegerRange(k.value)
    ensures postId.Num? ==> k == if InIntegerRange(postId.n) then Some(postId.n) else None
    ensures postId.Str? && IsBlank(postId.s) ==> k.None?
    ensures !postId.Num? && !postId.Str? ==> k.None?
  {
    var read :=
      match postId
      case Num(n) => Some(n)
      case Str(s) => if IsBlank(s) then None else StringToNumber(s)
      case _ => None;
    if read.Some? && InIntegerRange(read.value) then read else None
  }

  /** A post id sent as a numeral string addresses the same post as the number. */
  lemma NumeralAddressesSamePost(n: int)
    ensures PostKey(Str(IntToString(n))) == PostKey(Num(n))
    ensures PostKey(Num(n)) == Some(n) <==> InIntegerRange(n)
    ensures PostKey(Num(n)).None? <==> !InIntegerRange(n)
  {
    NumberOfNumeral(n);
  }

  /** The validation reply, or `None` when the update may run; a missing id is reported before a bad flag. */
  function Vet(postId: Json, isPublic: Json): (r: Option<RouteResponse>)
    ensures (postId.Undefined? || postId.Null?) ==> r == Some(Failure(400, MissingPostIdError))
    ensures !(postId.Undefined? || postId.Null?) && !isPublic.Bool? ==> r == Some(Failure(400, NotBooleanError))
    ensures r.None? <==> !(postId.Undefined? || postId.Null?) && isPublic.Bool?
  {
    if postId.Undefined? || postId.Null? then Some(Failure(400, MissingPostIdError))
    else if TypeOf(isPublic) != "boolean" then Some(Failure(400, NotBooleanError))
    else None
  }

  /**
   * The handler. After validation one UPDATE runs. It changes exactly the
   * addressed post's flag and answers with the returned row; a post that does
   * not exist is answered 404 and changes nothing; a thrown error is
   * answered 500. Errors come from a driver fault, or from the database
   * refusing an id its `integer` column cannot read; the refusal's text (an
   * invalid input syntax or a value out of range, worded after the value as
   * pg serialised it) is the database's, and the input `refusal` here.
   * The connection is always released.
   */
  method Post(db: Database, postId: Json, isPublic: Json, refusal: DbError, fault: Fault) returns (resp: RouteResponse)
    modifies db
    ensures db.checkedOut == old(db.checkedOut) && db.blacklist == old(db.blacklist)
    ensures db.taken == old(db.taken) + (if Vet(postId, isPublic).None? && !fault.FailsConnect() then 1 else 0)
    ensures Vet(postId, isPublic).Some? ==>
      resp == Vet(postId, isPublic).value && db.log == old(db.log) && db.posts == old(db.posts)
    ensures Vet(postId, isPublic).None? && fault.FailsConnect() ==>
      resp == Failure(500, ErrorText(fault.error, UpdateFailedError)) && db.log == old(db.log) && db.posts == old(db.posts)
    ensures Vet(postId, isPublic).None? && !fault.FailsConnect() ==>
      db.log == old(db.log) + [Statement(UpdateSql, [Value(isPublic), Value(postId)])]
    ensures Vet(postId, isPublic).None? && fault.FailsStatement(0) ==>
      resp == Failure(500, ErrorText(fault.error, UpdateFailedError)) && db.posts == old(db.posts)
    ensures Vet(postId, isPublic).None? && !fault.FailsConnect() && !fault.FailsStatement(0) ==>
      match PostKey(postId)
      case None =>
        resp == Failure(500, ErrorText(refusal, UpdateFailedError)) && db.posts == old(db.posts)
      case Some(k) =>
        if k in old(db.posts) then
          db.posts == old(db.posts)[k := isPublic.b] && resp == RowReply(map["post_id" := Num(k), "is_public" := isPublic])
        else
          db.posts == old(db.posts) && resp == Failure(404, PostNotFoundError)
    ensures db.posts.Keys == old(db.posts.Keys)
    ensures forall k :: k in db.posts && Some(k) != PostKey(postId) ==> db.posts[k] == old(db.posts)[k]
  {
    var rejected := Vet(postId, isPublic);
    if rejected.Some? {
      return rejected.value;
    }
    var connected := db.Connect(fault);
    if !connected {
      return Failure(500, ErrorText(fault.error, UpdateFailedError));
    }
    db.Send(Statement(UpdateSql, [Value(isPublic), Value(postId)]));
    if fault.FailsStatement(0) {
      resp := Failure(500, ErrorText(fault.error, UpdateFailedError));
    } else {
      var key := PostKey(postId);
      if key.None? {
        resp := Failure(500, ErrorText(refusal, UpdateFailedError));
      } else if key.value !in db.posts {
        resp := Failure(404, PostNotFoundError);
      } else {
        db.posts := db.posts[key.value := isPublic.b];
        resp := RowReply(map["post_id" := Num(key.value), "is_public" := isPublic]);
      }
    }
    db.Release();
  }
}
