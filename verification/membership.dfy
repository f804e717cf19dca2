/** app/telegram/membership.py: whether a user counts as a member of the
    required group. */
module Membership {
  import opened Common

  /** What `get_chat_member` produced: it raised, or a member status. */
  datatype Lookup = LookupFailed | MemberStatus(status: string)

  /** `is_user_member`: true without a configured group; otherwise true for any
      status but "left" and "kicked", false when the lookup fails. */
  function IsUserMember(requiredGroup: Option<string>, lookup: Lookup): (r: bool)
    ensures !Truthy(requiredGroup) ==> r
    ensures Truthy(requiredGroup) && lookup.LookupFailed? ==> !r
    ensures Truthy(requiredGroup) && lookup.MemberStatus? ==>
              (r <==> lookup.status != "left" && lookup.status != "kicked")
  {
    if !Truthy(requiredGroup) then true
    else match lookup
      case LookupFailed => false
      case MemberStatus(s) =>
        if s == "creator" || s == "administrator" || s == "member" then true
        else if s != "left" && s != "kicked" then true
        else false
  }
}
