/**
 * The older invitation-code page (src/components/invitation-codes.tsx): the
 * same cache as the store, kept in component state, with handlers that
 * swallow service errors (the page then only shows a toast, which is not
 * modelled). Each handler takes the service's answer to its call as input.
 */
module InvitationCodesView {
  import opened Optional
  import opened Text
  import opened Types
  import opened Api

  class View {
    var codes: seq<InvitationCode>
    var selectedCode: Option<InvitationCode>
    var selectedUser: Option<SimpleUserInfo>
    var isViewUsersOpen: bool
    var isBindUserOpen: bool
    var isUserInfoOpen: bool
    var bindUserId: string
    var promotedUsers: seq<SimpleUserInfo>
    var isLoading: bool

    constructor ()
      ensures codes == [] && selectedCode.None? && selectedUser.None?
      ensures !isViewUsersOpen && !isBindUserOpen && !isUserInfoOpen
      ensures bindUserId == [] && promotedUsers == [] && isLoading
    {
      codes := [];
      selectedCode := None;
      selectedUser := None;
      isViewUsersOpen := false;
      isBindUserOpen := false;
      isUserInfoOpen := false;
      bindUserId := [];
      promotedUsers := [];
      isLoading := true;
    }

    /** `fetchCodes`: the mapped list on success; on any failure the list stays as it was. Loading is over afterwards. */
    method FetchCodes(response: Result<seq<PromotionCodeInfo>>, dateOf: DateOf) returns (call: ApiCall)
      modifies this`codes, this`isLoading
      ensures call == GetAllPromotionCodes && !isLoading
      ensures response.Ok? && MapCodes(response.value, dateOf).Some? ==> codes == MapCodes(response.value, dateOf).value
      ensures response.Err? || MapCodes(response.value, dateOf).None? ==> codes == old(codes)
    {
      isLoading := true;
      call := GetAllPromotionCodes;
      if response.Ok? {
        var mapped := MapCodes(response.value, dateOf);
        if mapped.Some? {
          codes := mapped.value;
        }
      }
      isLoading := false;
    }

    /** `handleDeactivateCode`: after the service accepts, the records with this id are frozen; otherwise nothing changes. */
    method HandleDeactivateCode(codeId: string, response: Result<bool>) returns (call: ApiCall)
      modifies this`codes
      ensures call == DeactivatePromotionCode(codeId)
      ensures response.Ok? ==> codes == Freeze(old(codes), codeId)
      ensures response.Err? ==> codes == old(codes)
    {
      call := DeactivatePromotionCode(codeId);
      if response.Ok? {
        codes := Freeze(codes, codeId);
      }
    }

    /** `handleOpenBindDialog`: select the code and prefill the input with its bound user, if any. */
    method HandleOpenBindDialog(code: InvitationCode)
      modifies this`selectedCode, this`bindUserId, this`isBindUserOpen
      ensures selectedCode == Some(code) && isBindUserOpen
      ensures bindUserId == code.boundToUserId.GetOr([])
    {
      selectedCode := Some(code);
      bindUserId := code.boundToUserId.GetOr([]);
      isBindUserOpen := true;
    }

    /**
     * `handleBindUser`: nothing happens without a selected code, and a blank
     * input is refused before any request. Otherwise the trimmed input is sent
     * as the caller identity, and after the service accepts, the records with
     * the selected id are bound to that trimmed input (not to an answer from
     * the service) on `today`, and the dialog is closed and cleared.
     */
    method HandleBindUser(response: Result<bool>, today: string) returns (call: Option<ApiCall>)
      modifies this`codes, this`isBindUserOpen, this`bindUserId
      ensures selectedCode.None? || IsBlank(old(bindUserId)) ==>
        call.None? && codes == old(codes) && isBindUserOpen == old(isBindUserOpen) && bindUserId == old(bindUserId)
      ensures selectedCode.Some? && !IsBlank(old(bindUserId)) ==>
        call == Some(BindPromotionCode(Some(Trim(old(bindUserId))), selectedCode.value.code, None))
      ensures selectedCode.Some? && !IsBlank(old(bindUserId)) && response.Ok? ==>
        codes == Bind(old(codes), ById(selectedCode.value.id), Trim(old(bindUserId)), today) && !isBindUserOpen && bindUserId == []
      ensures selectedCode.Some? && !IsBlank(old(bindUserId)) && response.Err? ==>
        codes == old(codes) && isBindUserOpen == old(isBindUserOpen) && bindUserId == old(bindUserId)
    {
      if selectedCode.None? {
        return None;
      }
      var userIdToBind := Trim(bindUserId);
      if userIdToBind == [] {
        return None;
      }
      call := Some(BindPromotionCode(Some(userIdToBind), selectedCode.value.code, None));
      if response.Ok? {
        codes := Bind(codes, ById(selectedCode.value.id), userIdToBind, today);
        isBindUserOpen := false;
        bindUserId := [];
      }
    }

    /** `handleOpenViewUsersSheet`: select the code, open the sheet, and list its users, or none on failure. */
    method HandleOpenViewUsersSheet(code: InvitationCode, response: Result<seq<PromotedUserDetail>>) returns (call: ApiCall)
      modifies this`selectedCode, this`isViewUsersOpen, this`promotedUsers
      ensures call == GetPromotedUsers(code.code) && selectedCode == Some(code) && isViewUsersOpen
      ensures response.Err? ==> promotedUsers == []
      ensures response.Ok? ==> |promotedUsers| == |response.value|
      ensures response.Ok? ==> forall i :: 0 <= i < |promotedUsers| ==> promotedUsers[i] == response.value[i].userInfo
    {
      selectedCode := Some(code);
      isViewUsersOpen := true;
      call := GetPromotedUsers(code.code);
      if response.Ok? {
        promotedUsers := seq(|response.value|, i requires 0 <= i < |response.value| => response.value[i].userInfo);
      } else {
        promotedUsers := [];
      }
    }

    /** `handleViewUserInfo`. */
    method HandleViewUserInfo(user: SimpleUserInfo)
      modifies this`selectedUser, this`isUserInfoOpen
      ensures selectedUser == Some(user) && isUserInfoOpen
    {
      selectedUser := Some(user);
      isUserInfoOpen := true;
    }

    /** The freeze switch: switching on deactivates the row's code; switching off makes no request and changes nothing. */
    method OnFreezeSwitch(code: InvitationCode, checked: bool, response: Result<bool>) returns (call: Option<ApiCall>)
      modifies this`codes
      ensures !checked ==> call.None? && codes == old(codes)
      ensures checked ==> call == Some(DeactivatePromotionCode(code.id))
      ensures checked && response.Ok? ==> codes == Freeze(old(codes), code.id)
      ensures checked && response.Err? ==> codes == old(codes)
      ensures forall i :: 0 <= i < |codes| && old(codes)[i].frozen ==> codes[i].frozen
    {
      if !checked {
        return None;
      }
      var c := HandleDeactivateCode(code.id, response);
      call := Some(c);
      UpdatesKeepIdentity(old(codes), code.id, ById(code.id), [], []);
    }
  }

  /** The page's bind, unlike the store's, identifies as the user being bound. */
  lemma ViewBindIdentifiesAsBoundUser(userIdToBind: string, code: string)
    requires userIdToBind != []
    ensures UserIdHeader(RouteOf(BindPromotionCode(Some(userIdToBind), code, None)).identity) == userIdToBind
  {
  }
}
