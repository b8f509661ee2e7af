/**
 * The invitation-code store (src/store/invitation-store.ts): the client-side
 * cache of invitation codes and the UI state around it. Each action replaces
 * some fields; the service's answer to the call an action makes is an input
 * (`Result`: the resolved value, or the rejection's message).
 */
module InvitationStore {
  import opened Optional
  import opened Text
  import opened Types
  import opened Api
  import opened Seqs

  /** What `toISOString` throws on an invalid time value. */
  const InvalidTimeValue: string := "Invalid time value"

  /** The placeholder the table shows for an unbound user; the popover ignores it. */
  const NotApplicable: string := "N/A"

  class Store {
    var codes: seq<InvitationCode>
    var isLoading: bool
    var searchQuery: string
    var selectedCode: Option<InvitationCode>
    var selectedUser: Option<SimpleUserInfo>
    var isViewUsersOpen: bool
    var isBindUserOpen: bool
    var isUserInfoOpen: bool
    var bindUserEmail: string
    var promotedUsers: seq<SimpleUserInfo>
    var popoverUserId: Option<string>
    var popoverUserInfo: Option<SimpleUserInfo>
    var isLoadingPopover: bool

    /** The initial state. */
    constructor ()
      ensures codes == [] && isLoading && searchQuery == []
      ensures selectedCode.None? && selectedUser.None?
      ensures !isViewUsersOpen && !isBindUserOpen && !isUserInfoOpen && bindUserEmail == []
      ensures promotedUsers == [] && popoverUserId.None? && popoverUserInfo.None? && !isLoadingPopover
    {
      codes := [];
      isLoading := true;
      searchQuery := [];
      selectedCode := None;
      selectedUser := None;
      isViewUsersOpen := false;
      isBindUserOpen := false;
      isUserInfoOpen := false;
      bindUserEmail := [];
      promotedUsers := [];
      popoverUserId := None;
      popoverUserInfo := None;
      isLoadingPopover := false;
    }

    /** The fields no API action writes are as they were. */
    twostate predicate SelectionUnchanged()
      reads this
    {
      && searchQuery == old(searchQuery)
      && selectedCode == old(selectedCode) && selectedUser == old(selectedUser)
      && isViewUsersOpen == old(isViewUsersOpen) && isBindUserOpen == old(isBindUserOpen)
      && isUserInfoOpen == old(isUserInfoOpen) && bindUserEmail == old(bindUserEmail)
    }

    twostate predicate PopoverUnchanged()
      reads this
    {
      popoverUserId == old(popoverUserId) && popoverUserInfo == old(popoverUserInfo) && isLoadingPopover == old(isLoadingPopover)
    }

    method SetCodes(c: seq<InvitationCode>)
      modifies this
      ensures codes == c && isLoading == old(isLoading) && promotedUsers == old(promotedUsers)
      ensures SelectionUnchanged() && PopoverUnchanged()
    {
      codes := c;
    }

    method SetSearchQuery(query: string)
      modifies this
      ensures searchQuery == query && codes == old(codes) && isLoading == old(isLoading)
      ensures selectedCode == old(selectedCode) && selectedUser == old(selectedUser) && bindUserEmail == old(bindUserEmail)
      ensures isViewUsersOpen == old(isViewUsersOpen) && isBindUserOpen == old(isBindUserOpen) && isUserInfoOpen == old(isUserInfoOpen)
      ensures promotedUsers == old(promotedUsers) && PopoverUnchanged()
    {
      searchQuery := query;
    }

    method SetSelectedCode(code: Option<InvitationCode>)
      modifies this`selectedCode
      ensures selectedCode == code
    {
      selectedCode := code;
    }

    method SetSelectedUser(user: Option<SimpleUserInfo>)
      modifies this`selectedUser
      ensures selectedUser == user
    {
      selectedUser := user;
    }

    method SetIsViewUsersOpen(open: bool)
      modifies this`isViewUsersOpen
      ensures isViewUsersOpen == open
    {
      isViewUsersOpen := open;
    }

    method SetIsBindUserOpen(open: bool)
      modifies this`isBindUserOpen
      ensures isBindUserOpen == open
    {
      isBindUserOpen := open;
    }

    method SetIsUserInfoOpen(open: bool)
      modifies this`isUserInfoOpen
      ensures isUserInfoOpen == open
    {
      isUserInfoOpen := open;
    }

    method SetBindUserEmail(email: string)
      modifies this`bindUserEmail
      ensures bindUserEmail == email
    {
      bindUserEmail := email;
    }

    method SetPromotedUsers(users: seq<SimpleUserInfo>)
      modifies this`promotedUsers
      ensures promotedUsers == users
    {
      promotedUsers := users;
    }

    method SetPopoverUserId(userId: Option<string>)
      modifies this`popoverUserId
      ensures popoverUserId == userId
    {
      popoverUserId := userId;
    }

    method SetPopoverUserInfo(userInfo: Option<SimpleUserInfo>)
      modifies this`popoverUserInfo
      ensures popoverUserInfo == userInfo
    {
      popoverUserInfo := userInfo;
    }

    method SetIsLoadingPopover(loading: bool)
      modifies this`isLoadingPopover
      ensures isLoadingPopover == loading
    {
      isLoadingPopover := loading;
    }

    /**
     * `fetchCodes`: on success the cache is the mapped list; a rejected call,
     * or a record whose link time is not a date, leaves it as it was and is
     * rethrown. Loading is over afterwards either way.
     */
    method FetchCodes(response: Result<seq<PromotionCodeInfo>>, dateOf: DateOf) returns (call: ApiCall, thrown: Option<string>)
      modifies this
      ensures call == GetAllPromotionCodes && !isLoading
      ensures response.Err? ==> thrown == Some(response.message) && codes == old(codes)
      ensures response.Ok? && MapCodes(response.value, dateOf).None? ==> thrown == Some(InvalidTimeValue) && codes == old(codes)
      ensures response.Ok? && MapCodes(response.value, dateOf).Some? ==> thrown.None? && codes == MapCodes(response.value, dateOf).value
      ensures promotedUsers == old(promotedUsers) && SelectionUnchanged() && PopoverUnchanged()
    {
      isLoading := true;
      call := GetAllPromotionCodes;
      if response.Err? {
        thrown := Some(response.message);
      } else {
        var mapped := MapCodes(response.value, dateOf);
        if mapped.None? {
          thrown := Some(InvalidTimeValue);
        } else {
          codes := mapped.value;
          thrown := None;
        }
      }
      isLoading := false;
    }

    /** `deactivateCode`: after the service accepts, the records with this id are frozen; a rejection changes nothing and is rethrown. */
    method DeactivateCode(codeId: string, response: Result<bool>) returns (call: ApiCall, thrown: Option<string>)
      modifies this`codes
      ensures call == DeactivatePromotionCode(codeId)
      ensures response.Err? ==> thrown == Some(response.message) && codes == old(codes)
      ensures response.Ok? ==> thrown.None? && codes == Freeze(old(codes), codeId)
    {
      call := DeactivatePromotionCode(codeId);
      if response.Err? {
        return call, Some(response.message);
      }
      codes := Freeze(codes, codeId);
      thrown := None;
    }

    /**
     * `bindUser(code, email)`: after the service accepts, the records with this
     * code are bound to the user id the service answers with, on `today`; a
     * rejection changes nothing and is rethrown. The call carries no `userId`.
     */
    method BindUser(code: string, email: string, response: Result<string>, today: string) returns (call: ApiCall, thrown: Option<string>)
      modifies this`codes
      ensures call == BindPromotionCode(None, code, Some(email))
      ensures response.Err? ==> thrown == Some(response.message) && codes == old(codes)
      ensures response.Ok? ==> thrown.None? && codes == Bind(old(codes), ByCode(code), response.value, today)
    {
      call := BindPromotionCode(None, code, Some(email));
      if response.Err? {
        return call, Some(response.message);
      }
      codes := Bind(codes, ByCode(code), response.value, today);
      thrown := None;
    }

    /** `fetchPromotedUsers`: the users' profiles in the service's order, or none when the call is rejected (and rethrown). */
    method FetchPromotedUsers(code: string, response: Result<seq<PromotedUserDetail>>) returns (call: ApiCall, thrown: Option<string>)
      modifies this`promotedUsers
      ensures call == GetPromotedUsers(code)
      ensures response.Err? ==> thrown == Some(response.message) && promotedUsers == []
      ensures response.Ok? ==> thrown.None? && |promotedUsers| == |response.value|
      ensures response.Ok? ==> forall i :: 0 <= i < |promotedUsers| ==> promotedUsers[i] == response.value[i].userInfo
    {
      call := GetPromotedUsers(code);
      if response.Err? {
        promotedUsers := [];
        return call, Some(response.message);
      }
      promotedUsers := seq(|response.value|, i requires 0 <= i < |response.value| => response.value[i].userInfo);
      thrown := None;
    }

    /**
     * `fetchUserProfile`: an empty or "N/A" id is ignored; otherwise the
     * popover shows that user and, on success, their profile; on failure the
     * popover's user is cleared and the error rethrown. Loading is over afterwards.
     */
    method FetchUserProfile(userId: string, response: Result<SimpleUserInfo>) returns (call: Option<ApiCall>, thrown: Option<string>)
      modifies this`popoverUserId, this`popoverUserInfo, this`isLoadingPopover
      ensures userId == [] || userId == NotApplicable ==>
        call.None? && thrown.None? && PopoverUnchanged()
      ensures userId != [] && userId != NotApplicable ==> call == Some(GetUserProfile(userId)) && !isLoadingPopover
      ensures userId != [] && userId != NotApplicable && response.Ok? ==>
        thrown.None? && popoverUserId == Some(userId) && popoverUserInfo == Some(response.value)
      ensures userId != [] && userId != NotApplicable && response.Err? ==>
        thrown == Some(response.message) && popoverUserId.None? && popoverUserInfo == old(popoverUserInfo)
      ensures !isLoadingPopover || old(isLoadingPopover)
    {
      if userId == [] || userId == NotApplicable {
        return None, None;
      }
      isLoadingPopover := true;
      popoverUserId := Some(userId);
      call := Some(GetUserProfile(userId));
      if response.Ok? {
        popoverUserInfo := Some(response.value);
        thrown := None;
      } else {
        popoverUserId := None;
        thrown := Some(response.message);
      }
      isLoadingPopover := false;
    }

    /** `getFilteredCodes`. */
    function GetFilteredCodes(): (r: seq<InvitationCode>)
      reads this
      ensures IsBlank(searchQuery) ==> r == codes
      ensures IsSubsequence(r, codes)
      ensures !IsBlank(searchQuery) ==> forall c :: c in r <==> c in codes && CodeMatches(c, Lower(searchQuery))
      ensures !IsBlank(searchQuery) ==>
        forall c :: multiset(r)[c] == if CodeMatches(c, Lower(searchQuery)) then multiset(codes)[c] else 0
    {
      FilteredCodes(codes, searchQuery)
    }
  }

  /**
   * A deactivation followed by the same deactivation leaves the cache as the
   * first left it, the list keeps its length and order, and only the
   * records with that id change, and only in `frozen`.
   */
  method DeactivateTwice(store: Store, codeId: string)
    modifies store
    ensures |store.codes| == |old(store.codes)|
    ensures forall i :: 0 <= i < |store.codes| ==>
      store.codes[i] == if old(store.codes)[i].id == codeId then old(store.codes)[i].(frozen := true) else old(store.codes)[i]
  {
    var _, _ := store.DeactivateCode(codeId, Ok(true));
    ghost var once := store.codes;
    var _, _ := store.DeactivateCode(codeId, Ok(true));
    FreezeIdempotent(old(store.codes), codeId);
    assert store.codes == once;
  }

  /** The store's bind names no caller, so the service sees the built-in identity. */
  lemma StoreBindIdentifiesAsDefault(code: string, email: string)
    ensures UserIdHeader(RouteOf(BindPromotionCode(None, code, Some(email))).identity) == DefaultUserId
  {
    IdentitySent(BindPromotionCode(None, code, Some(email)));
  }
}
