/**
 * The record shapes of src/lib/types.ts and the pure operations on lists of
 * invitation codes that both the invitation store and the older invitation
 * page apply: mapping server records, freezing, binding and filtering by code.
 */
module Types {
  import opened Optional
  import opened Text
  import opened Seqs

  /** An invitation code as the dashboard caches it (no note field). */
  datatype InvitationCode = InvitationCode(
    id: string,
    code: string,
    frozen: bool,
    redemptionCount: int,
    boundToUserId: Option<string>,
    redeemedByUserIds: seq<string>,
    bindingDate: Option<string>,
    level: int)

  datatype SimpleUserInfo = SimpleUserInfo(
    id: string,
    username: string,
    avatarUrl: Option<string>,
    isVip: Option<bool>,
    email: Option<string>)

  /** A code as the promotion service lists it. */
  datatype PromotionCodeInfo = PromotionCodeInfo(
    promotionCode: string,
    promotionLevel: int,
    promotionCount: int,
    linkedUser: string,
    isActive: bool,
    createdTime: string,
    linkedTime: string)

  datatype PromotedUserDetail = PromotedUserDetail(userId: string, promotionTime: string, userInfo: SimpleUserInfo)

  /**
   * `new Date(t).toISOString().split("T")[0]`, supplied by the caller:
   * the calendar date of a timestamp, or `None` where `toISOString` throws
   * (an invalid time value).
   */
  type DateOf = string -> Option<string>

  /**
   * The mapping `fetchCodes` applies to one server record; `None` when the
   * record's link time is not a valid date, which makes the whole fetch throw.
   */
  function ToInvitationCode(p: PromotionCodeInfo, dateOf: DateOf): (r: Option<InvitationCode>)
    ensures r.None? <==> p.linkedTime != [] && dateOf(p.linkedTime).None?
    ensures r.Some? ==>
      && r.value.id == p.promotionCode && r.value.code == p.promotionCode
      && r.value.frozen == !p.isActive
      && r.value.redemptionCount == p.promotionCount
      && (r.value.boundToUserId.None? <==> p.linkedUser == [])
      && (r.value.boundToUserId.Some? ==> r.value.boundToUserId.value == p.linkedUser)
      && r.value.redeemedByUserIds == []
      && (r.value.bindingDate.None? <==> p.linkedTime == [])
      && (p.linkedTime != [] ==> r.value.bindingDate == dateOf(p.linkedTime))
      && r.value.level == p.promotionLevel
  {
    var date := if p.linkedTime != [] then dateOf(p.linkedTime) else None;
    if p.linkedTime != [] && date.None? then None
    else Some(InvitationCode(
      id := p.promotionCode,
      code := p.promotionCode,
      frozen := !p.isActive,
      redemptionCount := p.promotionCount,
      boundToUserId := if p.linkedUser != [] then Some(p.linkedUser) else None,
      redeemedByUserIds := [],
      bindingDate := date,
      level := p.promotionLevel))
  }

  /** `response.promotionCodes.map(...)`: every record mapped in order, or `None` if one throws. */
  function MapCodes(ps: seq<PromotionCodeInfo>, dateOf: DateOf): (r: Option<seq<InvitationCode>>)
    ensures r.None? <==> exists i :: 0 <= i < |ps| && ToInvitationCode(ps[i], dateOf).None?
    ensures r.Some? ==> |r.value| == |ps|
    ensures r.Some? ==> forall i :: 0 <= i < |ps| ==> ToInvitationCode(ps[i], dateOf) == Some(r.value[i])
  {
    if ps == [] then Some([])
    else
      match ToInvitationCode(ps[0], dateOf)
      case None => None
      case Some(c) =>
        match MapCodes(ps[1..], dateOf)
        case None => None
        case Some(rest) => Some([c] + rest)
  }

  /** No two cached records share an identifier. */
  ghost predicate UniqueIds(codes: seq<InvitationCode>)
  {
    forall i, j :: 0 <= i < j < |codes| ==> codes[i].id != codes[j].id
  }

  ghost predicate UniqueCodes(ps: seq<PromotionCodeInfo>)
  {
    forall i, j :: 0 <= i < j < |ps| ==> ps[i].promotionCode != ps[j].promotionCode
  }

  /** Mapping keeps identifiers apart when the service's codes are distinct. */
  lemma MappedIdsUnique(ps: seq<PromotionCodeInfo>, dateOf: DateOf)
    requires UniqueCodes(ps)
    ensures MapCodes(ps, dateOf).Some? ==> UniqueIds(MapCodes(ps, dateOf).value)
  {
    var r := MapCodes(ps, dateOf);
    if r.Some? {
      forall i, j | 0 <= i < j < |r.value| ensures r.value[i].id != r.value[j].id {
        assert ToInvitationCode(ps[i], dateOf) == Some(r.value[i]);
        assert ToInvitationCode(ps[j], dateOf) == Some(r.value[j]);
      }
    }
  }

  /** Which records an update targets: equal `id`, or equal `code`. */
  datatype Target = ById(id: string) | ByCode(code: string)
  {
    predicate Selects(c: InvitationCode)
    {
      match this
      case ById(id) => c.id == id
      case ByCode(code) => c.code == code
    }
  }

  /** `codes.map(c => c.id === id ? {...c, frozen: true} : c)`. */
  function Freeze(codes: seq<InvitationCode>, id: string): (r: seq<InvitationCode>)
    ensures |r| == |codes|
    ensures forall i :: 0 <= i < |codes| ==> r[i] == if codes[i].id == id then codes[i].(frozen := true) else codes[i]
  {
    seq(|codes|, i requires 0 <= i < |codes| => if codes[i].id == id then codes[i].(frozen := true) else codes[i])
  }

  /** `codes.map(c => selected(c) ? {...c, boundToUserId: user, bindingDate: date} : c)`. */
  function Bind(codes: seq<InvitationCode>, target: Target, user: string, date: string): (r: seq<InvitationCode>)
    ensures |r| == |codes|
    ensures forall i :: 0 <= i < |codes| ==>
      r[i] == if target.Selects(codes[i]) then codes[i].(boundToUserId := Some(user), bindingDate := Some(date)) else codes[i]
  {
    seq(|codes|, i requires 0 <= i < |codes| =>
      if target.Selects(codes[i]) then codes[i].(boundToUserId := Some(user), bindingDate := Some(date)) else codes[i])
  }

  /** Freezing twice is freezing once. */
  lemma FreezeIdempotent(codes: seq<InvitationCode>, id: string)
    ensures Freeze(Freeze(codes, id), id) == Freeze(codes, id)
  {
  }

  /** The two updates never unfreeze a code, keep identifiers and codes, and so keep them distinct. */
  lemma UpdatesKeepIdentity(codes: seq<InvitationCode>, id: string, target: Target, user: string, date: string)
    ensures forall i :: 0 <= i < |codes| && codes[i].frozen ==> Freeze(codes, id)[i].frozen && Bind(codes, target, user, date)[i].frozen
    ensures forall i :: 0 <= i < |codes| ==>
      Freeze(codes, id)[i].id == codes[i].id && Bind(codes, target, user, date)[i].id == codes[i].id &&
      Freeze(codes, id)[i].code == codes[i].code && Bind(codes, target, user, date)[i].code == codes[i].code
    ensures UniqueIds(codes) ==> UniqueIds(Freeze(codes, id)) && UniqueIds(Bind(codes, target, user, date))
  {
  }

  /** The case-insensitive substring test of `getFilteredCodes`. */
  predicate CodeMatches(c: InvitationCode, loweredQuery: string)
  {
    Contains(Lower(c.code), loweredQuery)
  }

  /** `codes.filter(c => c.code.toLowerCase().includes(loweredQuery))`. */
  function FilterByCode(codes: seq<InvitationCode>, loweredQuery: string): seq<InvitationCode>
  {
    if codes == [] then []
    else
      var rest := FilterByCode(codes[1..], loweredQuery);
      if CodeMatches(codes[0], loweredQuery) then [codes[0]] + rest else rest
  }

  /** The filter keeps order, and keeps every copy of each matching record and nothing else. */
  lemma {:induction false} FilterSpec(codes: seq<InvitationCode>, q: string)
    ensures IsSubsequence(FilterByCode(codes, q), codes)
    ensures forall c :: c in FilterByCode(codes, q) <==> c in codes && CodeMatches(c, q)
    ensures forall c :: multiset(FilterByCode(codes, q))[c] == if CodeMatches(c, q) then multiset(codes)[c] else 0
    ensures (forall c :: c in codes ==> CodeMatches(c, q)) ==> FilterByCode(codes, q) == codes
  {
    if codes != [] {
      FilterSpec(codes[1..], q);
      assert codes == [codes[0]] + codes[1..];
      assert multiset(codes) == multiset([codes[0]]) + multiset(codes[1..]);
      var rest := FilterByCode(codes[1..], q);
      if CodeMatches(codes[0], q) {
        assert multiset([codes[0]] + rest) == multiset([codes[0]]) + multiset(rest);
      }
    }
  }

  /** Filtering with the same query twice gives what filtering once gives. */
  lemma {:induction false} FilterIdempotent(codes: seq<InvitationCode>, q: string)
    ensures FilterByCode(FilterByCode(codes, q), q) == FilterByCode(codes, q)
  {
    if codes != [] {
      FilterIdempotent(codes[1..], q);
      var rest := FilterByCode(codes[1..], q);
      if CodeMatches(codes[0], q) {
        assert ([codes[0]] + rest)[1..] == rest;
      }
    }
  }

  /** `getFilteredCodes`: all codes for a blank query, else those whose lower-cased code contains the lower-cased (untrimmed) query. */
  function FilteredCodes(codes: seq<InvitationCode>, searchQuery: string): (r: seq<InvitationCode>)
    ensures IsBlank(searchQuery) ==> r == codes
    ensures IsSubsequence(r, codes)
    ensures !IsBlank(searchQuery) ==> forall c :: c in r <==> c in codes && CodeMatches(c, Lower(searchQuery))
    ensures !IsBlank(searchQuery) ==>
      forall c :: multiset(r)[c] == if CodeMatches(c, Lower(searchQuery)) then multiset(codes)[c] else 0
  {
    FilterSpec(codes, Lower(searchQuery));
    SubsequenceOfItself(codes);
    if IsBlank(searchQuery) then codes else FilterByCode(codes, Lower(searchQuery))
  }
}
