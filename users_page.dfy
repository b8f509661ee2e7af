/**
 * The membership page (src/app/users/page.tsx): it looks a user up by id or
 * by e-mail address, shows the profile the user service answers with, and
 * grants or withdraws the premium membership through the same service. What
 * each `fetch` resolves to is an input of the handler that makes it, and so
 * is the number of days still left on a membership, which the page reads off
 * the clock.
 */
module UsersPage {
  import opened Optional
  import opened Text
  import opened Json
  import Api

  const ProfileUrl: string := "/api/user/profile"
  const DefaultDuration: int := 30

  /** The messages the page shows when a request fails. */
  const SubIdPrefix: string := "获取用户ID失败: "
  const RequestPrefix: string := "请求失败: "
  const UpdatePrefix: string := "更新失败: "
  const NoSubId: string := "未找到该邮箱对应的用户ID"
  const EmailFallback: string := "通过邮箱获取用户ID失败"
  const NetworkRetry: string := "网络错误，请稍后再试"
  const NoProfile: string := "请先查询用户信息"
  const NonPositiveDuration: string := "VIP时长必须大于0天"

  /** What reading a property of `null` throws (the wording of V8). */

  /** The message of the `TypeError` thrown when a property of `null` or `undefined` is read. */
  function NoPropertyError(nothing: Json, key: string): string
  {
    "Cannot read properties of " + (if nothing.Null? then "null" else "undefined") + " (reading '" + key + "')"
  }

  /**
   * What awaiting a `fetch` and its `response.json()` gives: the reply with
   * its parsed body, or the message of what was thrown (a network failure,
   * or an ok reply whose body is not JSON). For a reply that is not ok and
   * whose body is not JSON the page reads `{}` instead, given as `Obj(map[])`;
   * a body that is JSON `null` is kept as `Null`.
   */
  datatype Fetched =
    | Response(ok: bool, status: int, statusText: string, body: Json)
    | Failed(message: string)

  /** A `PUT` to the profile endpoint: its headers and its JSON body. */
  datatype UpdateRequest = UpdateRequest(headers: map<string, string>, body: map<string, Json>)

  /** `j.key`: a field of an object, `undefined` for any other key or value. */
  function Member(j: Json, key: string): Json
  {
    if j.Obj? && key in j.fields then j.fields[key] else Undefined
  }

  /** `a || b`. */
  function Or(a: Json, b: Json): (r: Json)
    ensures Truthy(r) <==> Truthy(a) || Truthy(b)
  {
    if Truthy(a) then a else b
  }

  /** `isEmail`: the input contains an `@` and a `.`, anywhere and in any order. */
  predicate IsEmail(input: string)
  {
    Contains(input, "@") && Contains(input, ".")
  }

  lemma {:induction false} ContainsChar(s: string, c: char)
    ensures Contains(s, [c]) <==> exists i :: 0 <= i < |s| && s[i] == c
  {
    ContainsIff(s, [c]);
    if Contains(s, [c]) {
      var i :| OccursAt(s, [c], i);
      assert s[i..i + 1] == [c];
      assert s[i] == c;
    }
    if exists i :: 0 <= i < |s| && s[i] == c {
      var i :| 0 <= i < |s| && s[i] == c;
      assert s[i..i + 1] == [c];
      assert OccursAt(s, [c], i);
    }
  }

  /** An input counts as an e-mail address exactly when it has both characters. */
  lemma EmailIff(input: string)
    ensures IsEmail(input) <==>
      (exists i :: 0 <= i < |input| && input[i] == '@') && (exists j :: 0 <= j < |input| && input[j] == '.')
  {
    ContainsChar(input, '@');
    ContainsChar(input, '.');
  }

  /** The longest prefix of decimal digits. */
  function LeadingDigits(s: string): (r: string)
    ensures AllDigits(r) && |r| <= |s| && r == s[..|r|]
    ensures |r| < |s| ==> !('0' <= s[|r|] <= '9')
  {
    if s != [] && '0' <= s[0] <= '9' then [s[0]] + LeadingDigits(s[1..]) else []
  }

  /**
   * `parseInt(s)` in base ten: leading white space, an optional sign, and
   * then as many digits as there are; `None` is `NaN`, when there are none.
   */
  function ParseInt(s: string): (r: Option<int>)
  {
    var t := TrimStart(s);
    var signed := t != [] && (t[0] == '-' || t[0] == '+');
    var digits := LeadingDigits(if signed then t[1..] else t);
    var value: int := if digits == [] then 0 else DigitsValue(digits);
    if digits == [] then None
    else if signed && t[0] == '-' then Some(-value)
    else Some(value)
  }

  /** The duration input's `parseInt(value) || 30`: `NaN` and zero both give 30. */
  function DurationOf(input: string): (d: int)
    ensures d != 0
    ensures ParseInt(input).Some? && ParseInt(input).value != 0 ==> d == ParseInt(input).value
    ensures ParseInt(input).None? || ParseInt(input).value == 0 ==> d == DefaultDuration
  {
    match ParseInt(input)
    case Some(n) => if n != 0 then n else DefaultDuration
    case None => DefaultDuration
  }

  lemma {:induction false} LeadingDigitsOfDigits(d: string, rest: string)
    requires AllDigits(d)
    requires rest == [] || !('0' <= rest[0] <= '9')
    ensures LeadingDigits(d + rest) == d
  {
    if d != [] {
      assert (d + rest)[0] == d[0];
      assert (d + rest)[1..] == d[1..] + rest;
      LeadingDigitsOfDigits(d[1..], rest);
    } else {
      assert d + rest == rest;
    }
  }

  /**
   * A number typed in decimal reads back as that number, whatever follows it
   * that is not a digit (a unit, say); a positive one becomes the duration.
   */
  lemma {:induction false} DurationOfNumeral(n: nat, rest: string)
    requires rest == [] || !('0' <= rest[0] <= '9')
    ensures ParseInt(NatToString(n) + rest) == Some(n)
    ensures n > 0 ==> DurationOf(NatToString(n) + rest) == n
  {
    var s := NatToString(n) + rest;
    DigitsOfNatToString(n);
    assert s[0] == NatToString(n)[0];
    assert !IsSpace(s[0]);
    assert TrimStart(s) == s;
    LeadingDigitsOfDigits(NatToString(n), rest);
  }

  /** The headers of a profile request: JSON, and the target's id only when the target is truthy. */
  function ProfileHeaders(target: Json): (h: map<string, string>)
    ensures "Content-Type" in h && h["Content-Type"] == Api.JsonContentType
    ensures "UserId" in h <==> Truthy(target)
    ensures "UserId" in h ==> h["UserId"] == TemplateString(target)
    ensures h.Keys <= {"Content-Type", "UserId"}
  {
    var base := map["Content-Type" := Api.JsonContentType];
    if Truthy(target) then base["UserId" := TemplateString(target)] else base
  }

  /**
   * Unlike the service client, the page never stands in the built-in
   * identity: a lookup without a target names no user at all.
   */
  lemma NoBuiltInIdentity(target: Json)
    ensures !Truthy(target) ==> "UserId" !in ProfileHeaders(target)
    ensures Api.UserIdHeader(None) == Api.DefaultUserId
    ensures target.Str? && target.s != [] ==> ProfileHeaders(target)["UserId"] == target.s
  {
  }

  /**
   * The message of the error thrown for a reply that is not ok: the server's,
   * else one naming the status. A body that parses to `null` is not replaced
   * by `{}`, so reading its `message` throws a `TypeError` instead.
   */
  function FailureText(prefix: string, status: int, statusText: string, body: Json): (m: string)
    ensures body.Null? || body.Undefined? ==> m == NoPropertyError(body, "message")
    ensures !body.Null? && !body.Undefined? && Truthy(Member(body, "message")) ==> m == TemplateString(Member(body, "message"))
    ensures !body.Null? && !body.Undefined? && !Truthy(Member(body, "message")) ==> m == prefix + IntToString(status) + " " + statusText
  {
    if body.Null? || body.Undefined? then NoPropertyError(body, "message")
    else
      var message := Member(body, "message");
      if Truthy(message) then TemplateString(message) else prefix + IntToString(status) + " " + statusText
  }

  /** A not-ok reply whose body is `null` fails with the `TypeError`, not with the status. */
  lemma NullBodyFailureText(prefix: string, status: int, statusText: string)
    ensures FailureText(prefix, status, statusText, Null) == "Cannot read properties of null (reading 'message')"
  {
  }

  /** `error.message || fallback`: the description of a failure toast. */
  function Shown(message: string, fallback: string): (d: string)
    ensures message != [] ==> d == message
    ensures message == [] ==> d == fallback
  {
    if message != [] then message else fallback
  }

  /** The e-mail lookup: the `subId` it answers with, or the message of what it throws. */
  function SubIdOf(reply: Fetched): (r: Result<Json>)
    ensures r.Ok? <==> reply.Response? && reply.ok && Truthy(Member(reply.body, "subId"))
    ensures r.Ok? ==> r.value == Member(reply.body, "subId")
    ensures reply.Failed? ==> r == Err(reply.message)
    ensures reply.Response? && !reply.ok ==> r == Err(FailureText(SubIdPrefix, reply.status, reply.statusText, reply.body))
    ensures reply.Response? && reply.ok && (reply.body.Null? || reply.body.Undefined?) ==> r == Err(NoPropertyError(reply.body, "subId"))
    ensures reply.Response? && reply.ok && !reply.body.Null? && !reply.body.Undefined? && !Truthy(Member(reply.body, "subId")) ==>
      r == Err(NoSubId)
  {
    match reply
    case Failed(m) => Err(m)
    case Response(ok, status, statusText, body) =>
      if !ok then Err(FailureText(SubIdPrefix, status, statusText, body))
      else if body.Null? || body.Undefined? then Err(NoPropertyError(body, "subId"))
      else
        var subId := Member(body, "subId");
        if !Truthy(subId) then Err(NoSubId) else Ok(subId)
  }

  /**
   * A profile reply: `data.userInfo || data`, or the message of what is
   * thrown (a failed request, a reply that is not ok, or a `null` body,
   * whose `userInfo` cannot be read). A profile is never `null` or `undefined`.
   */
  function ProfileOf(reply: Fetched, prefix: string): (r: Result<Json>)
    ensures reply.Failed? ==> r == Err(reply.message)
    ensures reply.Response? && !reply.ok ==> r == Err(FailureText(prefix, reply.status, reply.statusText, reply.body))
    ensures r.Ok? <==> reply.Response? && reply.ok && !reply.body.Null? && !reply.body.Undefined?
    ensures reply.Response? && reply.ok && (reply.body.Null? || reply.body.Undefined?) ==> r == Err(NoPropertyError(reply.body, "userInfo"))
    ensures r.Ok? ==> !r.value.Null? && !r.value.Undefined?
    ensures r.Ok? && Truthy(Member(reply.body, "userInfo")) ==> r.value == Member(reply.body, "userInfo")
    ensures r.Ok? && !Truthy(Member(reply.body, "userInfo")) ==> r.value == reply.body
  {
    match reply
    case Failed(m) => Err(m)
    case Response(ok, status, statusText, body) =>
      if !ok then Err(FailureText(prefix, status, statusText, body))
      else if body.Null? || body.Undefined? then Err(NoPropertyError(body, "userInfo"))
      else Ok(Or(Member(body, "userInfo"), body))
  }

  /** `profile.isPremium || false`: what the switch shows for a profile. */
  function PremiumOf(profile: Json): (r: Json)
    ensures Truthy(r) <==> Truthy(Member(profile, "isPremium"))
    ensures !Truthy(r) ==> r == Bool(false) || r == Member(profile, "isPremium")
  {
    Or(Member(profile, "isPremium"), Bool(false))
  }

  /** The body of an update: a grant carries its duration, a withdrawal none; the flag is repeated as 1 or 0. */
  function UpdateBody(premium: bool, duration: int): map<string, Json>
  {
    if premium then map["isPremium" := Bool(true), "premiumDuration" := Num(duration), "isPremiumInInt" := Num(1)]
    else map["isPremium" := Bool(false), "isPremiumInInt" := Num(0)]
  }

  /**
   * A body the service can act on: the flag and its integer form agree, and
   * a duration, positive, comes with a grant and only with a grant.
   */
  predicate WellFormedUpdate(body: map<string, Json>)
  {
    && "isPremium" in body && body["isPremium"].Bool?
    && "isPremiumInInt" in body && body["isPremiumInInt"] == Num(if body["isPremium"].b then 1 else 0)
    && ("premiumDuration" in body <==> body["isPremium"].b)
    && ("premiumDuration" in body ==> body["premiumDuration"].Num? && body["premiumDuration"].n > 0)
  }

  /** The page's guard is exactly what keeps a body well formed. */
  lemma UpdateBodyWellFormed(premium: bool, duration: int)
    ensures WellFormedUpdate(UpdateBody(premium, duration)) <==> !premium || duration > 0
  {
  }

  /** The request an update sends, for the target the page resolved. */
  function UpdateRequestFor(target: Json, premium: bool, duration: int): UpdateRequest
  {
    UpdateRequest(ProfileHeaders(target), UpdateBody(premium, duration))
  }

  /** The address a search looks up first: the trimmed input, when it is a non-empty e-mail address. */
  function EmailLookup(input: string): Option<string>
  {
    var target := Trim(input);
    if target != [] && IsEmail(target) then Some(target) else None
  }

  /** The emptiness guard is redundant: an e-mail lookup happens exactly for an e-mail address. */
  lemma EmailLookupExactlyEmail(input: string)
    ensures EmailLookup(input) == if IsEmail(Trim(input)) then Some(Trim(input)) else None
  {
    if Trim(input) == [] {
      ContainsChar(Trim(input), '@');
    }
  }

  /** The id a search looks up: the trimmed input, or the `subId` an e-mail address resolves to. */
  function SearchTarget(input: string, emailReply: Fetched): Result<Json>
  {
    if EmailLookup(input).Some? then SubIdOf(emailReply) else Ok(Str(Trim(input)))
  }

  /** The user an update is for: the id the search resolved, else the profile's own `userId`. */
  function UpdateTarget(actualUserId: Json, profile: Json): (r: Json)
    ensures Truthy(actualUserId) ==> r == actualUserId
    ensures !Truthy(actualUserId) ==> r == Member(profile, "userId")
  {
    Or(actualUserId, Member(profile, "userId"))
  }

  class Page {
    var loading: bool
    var updating: bool
    var userId: string           // the search input
    var actualUserId: Json       // the id the last search resolved to: the input itself, or the e-mail's `subId`
    var userProfile: Json        // `null` until a search succeeds
    var isPremium: Json          // the switch: `profile.isPremium || false`, or what the admin set
    var premiumDuration: int

    constructor ()
      ensures !loading && !updating && userId == [] && actualUserId == Str([])
      ensures userProfile == Null && isPremium == Bool(false) && premiumDuration == DefaultDuration
    {
      loading := false;
      updating := false;
      userId := [];
      actualUserId := Str([]);
      userProfile := Null;
      isPremium := Bool(false);
      premiumDuration := DefaultDuration;
    }

    method SetUserId(input: string)
      modifies this`userId
      ensures userId == input
    {
      userId := input;
    }

    /** The switch. */
    method SetIsPremium(checked: bool)
      modifies this`isPremium
      ensures isPremium == Bool(checked)
    {
      isPremium := Bool(checked);
    }

    /** The duration input; it never holds zero, but a negative number is kept. */
    method SetPremiumDuration(input: string)
      modifies this`premiumDuration
      ensures premiumDuration == DurationOf(input) && premiumDuration != 0
    {
      premiumDuration := DurationOf(input);
    }

    /**
     * `handleSearch`. The profile and the resolved id are cleared first; an
     * e-mail address is resolved to its `subId` before the profile is asked
     * for, and a lookup that fails ends the search there. The profile request
     * names the resolved id when it is truthy. On success the profile and its
     * membership flag are shown, and a membership with an expiry still in the
     * future (`remainingDays`) prefills the duration; on failure nothing is
     * shown. Loading is over afterwards either way.
     */
    method HandleSearch(emailReply: Fetched, profileReply: Fetched, remainingDays: Option<int>)
      returns (emailLookup: Option<string>, profileRequest: Option<map<string, string>>, failure: Option<string>)
      modifies this`loading, this`userProfile, this`actualUserId, this`isPremium, this`premiumDuration
      ensures !loading
      ensures emailLookup == EmailLookup(userId)
      ensures SearchTarget(userId, emailReply).Err? ==>
        && profileRequest.None? && failure == Some(Shown(SearchTarget(userId, emailReply).message, EmailFallback))
        && userProfile == Null && actualUserId == Str([])
        && isPremium == old(isPremium) && premiumDuration == old(premiumDuration)
      ensures SearchTarget(userId, emailReply).Ok? ==>
        && actualUserId == SearchTarget(userId, emailReply).value
        && profileRequest == Some(ProfileHeaders(SearchTarget(userId, emailReply).value))
      ensures SearchTarget(userId, emailReply).Ok? && ProfileOf(profileReply, RequestPrefix).Err? ==>
        && failure == Some(Shown(ProfileOf(profileReply, RequestPrefix).message, NetworkRetry))
        && userProfile == Null && isPremium == old(isPremium) && premiumDuration == old(premiumDuration)
      ensures SearchTarget(userId, emailReply).Ok? && ProfileOf(profileReply, RequestPrefix).Ok? ==>
        && failure.None?
        && userProfile == ProfileOf(profileReply, RequestPrefix).value
        && isPremium == PremiumOf(userProfile)
        && premiumDuration ==
          if Truthy(Member(userProfile, "premiumExpiredAt")) && remainingDays.Some? && remainingDays.value > 0
          then remainingDays.value else old(premiumDuration)
    {
      loading := true;
      userProfile := Null;
      actualUserId := Str([]);
      emailLookup := EmailLookup(userId);
      var resolved := SearchTarget(userId, emailReply);
      if resolved.Err? {
        loading := false;
        return emailLookup, None, Some(Shown(resolved.message, EmailFallback));
      }
      actualUserId := resolved.value;
      profileRequest := Some(ProfileHeaders(resolved.value));
      failure := ShowProfile(profileReply, remainingDays);
      loading := false;
    }

    /** The part of `handleSearch` after the profile reply arrives. */
    method ShowProfile(profileReply: Fetched, remainingDays: Option<int>) returns (failure: Option<string>)
      modifies this`userProfile, this`isPremium, this`premiumDuration
      ensures ProfileOf(profileReply, RequestPrefix).Err? ==>
        && failure == Some(Shown(ProfileOf(profileReply, RequestPrefix).message, NetworkRetry))
        && userProfile == old(userProfile) && isPremium == old(isPremium) && premiumDuration == old(premiumDuration)
      ensures ProfileOf(profileReply, RequestPrefix).Ok? ==>
        && failure.None?
        && userProfile == ProfileOf(profileReply, RequestPrefix).value
        && isPremium == PremiumOf(userProfile)
        && premiumDuration ==
          if Truthy(Member(userProfile, "premiumExpiredAt")) && remainingDays.Some? && remainingDays.value > 0
          then remainingDays.value else old(premiumDuration)
    {
      var profile := ProfileOf(profileReply, RequestPrefix);
      if profile.Err? {
        return Some(Shown(profile.message, NetworkRetry));
      }
      userProfile := profile.value;
      isPremium := PremiumOf(profile.value);
      if Truthy(Member(profile.value, "premiumExpiredAt")) && remainingDays.Some? && remainingDays.value > 0 {
        premiumDuration := remainingDays.value;
      }
      failure := None;
    }

    /**
     * `handleUpdatePremium`. Without a profile, or with the switch on and a
     * duration that is not positive, nothing is sent and nothing changes.
     * Otherwise the grant or withdrawal goes to `UpdateTarget`, and after
     * the service accepts, the profile it answers with is shown.
     */
    method HandleUpdatePremium(reply: Fetched) returns (request: Option<UpdateRequest>, failure: Option<string>)
      modifies this`updating, this`userProfile, this`isPremium
      ensures !Truthy(old(userProfile)) ==> request.None? && failure == Some(NoProfile) && unchanged(this)
      ensures Truthy(old(userProfile)) && Truthy(old(isPremium)) && premiumDuration <= 0 ==>
        request.None? && failure == Some(NonPositiveDuration) && unchanged(this)
      ensures Truthy(old(userProfile)) && !(Truthy(old(isPremium)) && premiumDuration <= 0) ==>
        && !updating
        && request == Some(UpdateRequestFor(UpdateTarget(old(actualUserId), old(userProfile)), Truthy(old(isPremium)), premiumDuration))
        && WellFormedUpdate(request.value.body)
      ensures Truthy(old(userProfile)) && !(Truthy(old(isPremium)) && premiumDuration <= 0) && ProfileOf(reply, UpdatePrefix).Err? ==>
        && failure == Some(Shown(ProfileOf(reply, UpdatePrefix).message, NetworkRetry))
        && userProfile == old(userProfile) && isPremium == old(isPremium)
      ensures Truthy(old(userProfile)) && !(Truthy(old(isPremium)) && premiumDuration <= 0) && ProfileOf(reply, UpdatePrefix).Ok? ==>
        && failure.None? && userProfile == ProfileOf(reply, UpdatePrefix).value && isPremium == PremiumOf(userProfile)
    {
      if !Truthy(userProfile) {
        return None, Some(NoProfile);
      }
      if Truthy(isPremium) && premiumDuration <= 0 {
        return None, Some(NonPositiveDuration);
      }
      updating := true;
      UpdateBodyWellFormed(Truthy(isPremium), premiumDuration);
      request := Some(UpdateRequestFor(UpdateTarget(actualUserId, userProfile), Truthy(isPremium), premiumDuration));
      var updated := ProfileOf(reply, UpdatePrefix);
      if updated.Err? {
        failure := Some(Shown(updated.message, NetworkRetry));
      } else {
        userProfile := updated.value;
        isPremium := PremiumOf(updated.value);
        failure := None;
      }
      updating := false;
    }
  }

  /** The reply of an e-mail lookup that finds the account. */
  function FoundReply(subId: string): Fetched
  {
    Response(true, 200, "OK", Obj(map["subId" := Str(subId)]))
  }

  /** The reply of a profile request that answers with `{userInfo: profile}`. */
  function ProfileReply(profile: Json): Fetched
  {
    Response(true, 200, "OK", Obj(map["userInfo" := profile]))
  }

  lemma SearchResolves(input: string, subId: string, profile: Json)
    requires IsEmail(Trim(input)) && subId != [] && Truthy(profile)
    ensures SearchTarget(input, FoundReply(subId)) == Ok(Str(subId))
    ensures ProfileOf(ProfileReply(profile), RequestPrefix) == Ok(profile)
  {
    if Trim(input) == [] {
      ContainsChar(Trim(input), '@');
    }
  }

  method SearchByEmail(page: Page, subId: string, profile: Json, remainingDays: Option<int>)
    modifies page
    requires IsEmail(Trim(page.userId)) && subId != [] && Truthy(profile)
    ensures page.actualUserId == Str(subId) && page.userProfile == profile && page.isPremium == PremiumOf(profile)
  {
    SearchResolves(page.userId, subId, profile);
    var _, _, _ := page.HandleSearch(FoundReply(subId), ProfileReply(profile), remainingDays);
  }

  /**
   * A search by e-mail address followed by an update: the update goes to
   * the account the address resolved to, not to the address typed in, and
   * it is sent unless the profile's flag is on and the duration is not positive.
   */
  method UpdateAfterEmailSearch(page: Page, subId: string, profile: Json, remainingDays: Option<int>, updateReply: Fetched)
    returns (request: Option<UpdateRequest>)
    modifies page
    requires IsEmail(Trim(page.userId)) && subId != [] && Truthy(profile)
    ensures page.actualUserId == Str(subId)
    ensures request.Some? <==> !(Truthy(PremiumOf(profile)) && page.premiumDuration <= 0)
    ensures request.Some? ==> "UserId" in request.value.headers && request.value.headers["UserId"] == subId
  {
    SearchByEmail(page, subId, profile, remainingDays);
    var failure;
    request, failure := page.HandleUpdatePremium(updateReply);
  }
}
