/** Organization membership and role checks: a search of the
    organization's member list for the caller, then checks of the member's
    status and role. */
module Membership {
  import opened Wrappers
  import opened Jwt

  /** A member status; the source compares it against the ACTIVE status. */
  datatype MemberStatus = Active | Inactive(name: string)

  /** An entry of `organization.members`. `userId` is the string form of
      the member's user reference; a lower `role` is a stronger role. */
  datatype Member = Member(userId: string, role: int, status: MemberStatus)

  datatype Organization = Organization(members: seq<Member>)

  /** The Forbidden errors of the membership checks. */
  datatype MemberFailure =
    | MemberError(user: User)                             // "Must be a member of the organization"
    | MemberStatusError(member: Member, status: MemberStatus)  // "Must have status ... to do this operation"
    | RoleError(member: Member, roleNeeded: int)

  /** Reference definition: some member entry belongs to the user. */
  predicate IsMember(organization: Organization, userId: string)
  {
    exists k :: 0 <= k < |organization.members| && organization.members[k].userId == userId
  }

  /** The search of `findIndex`: the first index of a member whose user id
      equals `userId`, or -1 when there is none. */
  function FindMemberIndex(members: seq<Member>, userId: string): (r: int)
    ensures -1 <= r < |members|
    ensures r == -1 <==> forall k :: 0 <= k < |members| ==> members[k].userId != userId
    ensures r != -1 ==> members[r].userId == userId
    ensures r != -1 ==> forall k :: 0 <= k < r ==> members[k].userId != userId
  {
    if |members| == 0 then -1
    else if members[0].userId == userId then 0
    else
      var i := FindMemberIndex(members[1..], userId);
      if i == -1 then -1 else i + 1
  }

  /** `getMember`: the caller's first member entry, or MemberError when the
      caller is not a member. */
  function GetMember(organization: Organization, caller: User): (r: Result<Member, MemberFailure>)
    ensures r.Err? <==> !IsMember(organization, caller.id)
    ensures r.Err? ==> r.error == MemberError(caller)
    ensures r.Ok? ==> r.value in organization.members && r.value.userId == caller.id
    ensures r.Ok? ==> exists k :: (0 <= k < |organization.members| && organization.members[k] == r.value
                                   && forall j :: 0 <= j < k ==> organization.members[j].userId != caller.id)
  {
    var index := FindMemberIndex(organization.members, caller.id);
    if index == -1 then Err(MemberError(caller)) else Ok(organization.members[index])
  }

  /** `checkRoleNeeded` as intended: the caller's member entry must exist,
      be ACTIVE, and hold a role no weaker than `roleNeeded`. */
  function CheckRoleNeeded(organization: Organization, caller: User, roleNeeded: int): (r: Outcome<MemberFailure>)
    ensures r.Pass? <==> (IsMember(organization, caller.id)
                          && GetMember(organization, caller).value.status == Active
                          && GetMember(organization, caller).value.role <= roleNeeded)
    ensures !IsMember(organization, caller.id) ==> r == Fail(MemberError(caller))
    ensures IsMember(organization, caller.id) && GetMember(organization, caller).value.status != Active ==>
      r == Fail(MemberStatusError(GetMember(organization, caller).value, Active))
    ensures (IsMember(organization, caller.id) && GetMember(organization, caller).value.status == Active
             && GetMember(organization, caller).value.role > roleNeeded) ==>
      r == Fail(RoleError(GetMember(organization, caller).value, roleNeeded))
  {
    match GetMember(organization, caller)
    case Err(e) => Fail(e)
    case Ok(member) =>
      if member.status != Active then Fail(MemberStatusError(member, Active))
      else if member.role > roleNeeded then Fail(RoleError(member, roleNeeded))
      else Pass
  }

  /** Only the first entry of the caller counts: when it is not ACTIVE, a
      later ACTIVE entry of the same user does not let the check pass. */
  lemma FirstEntryDecides(organization: Organization, caller: User, roleNeeded: int, i: nat, j: nat)
    requires i < j < |organization.members|
    requires organization.members[i].userId == caller.id && organization.members[j].userId == caller.id
    requires forall k :: 0 <= k < i ==> organization.members[k].userId != caller.id
    requires organization.members[i].status != Active
    ensures CheckRoleNeeded(organization, caller, roleNeeded) == Fail(MemberStatusError(organization.members[i], Active))
  {
    assert FindMemberIndex(organization.members, caller.id) == i;
  }

  // ---------------------------------------------------------------------
  // checkRoleNeeded as written

  /** What the source's checkRoleNeeded can raise: a membership error, or
      the ReferenceError of evaluating a name that is not defined. */
  datatype RoleCheckFailure = Forbidden(failure: MemberFailure) | ReferenceError(identifier: string)

  /** `checkRoleNeeded` as written: once the member is found, the status
      test evaluates `MemberStatusEnum.ACTIVE`, a name that is neither
      declared nor imported, so it throws before any check is made. */
  function CheckRoleNeededAsWritten(organization: Organization, caller: User, roleNeeded: int)
    : (r: Outcome<RoleCheckFailure>)
    ensures r.Fail?
    ensures !IsMember(organization, caller.id) <==> r == Fail(Forbidden(MemberError(caller)))
    ensures IsMember(organization, caller.id) <==> r == Fail(ReferenceError("MemberStatusEnum"))
  {
    match GetMember(organization, caller)
    case Err(e) => Fail(Forbidden(e))
    case Ok(_) => Fail(ReferenceError("MemberStatusEnum"))
  }

  /** An ACTIVE member with a sufficient role passes the intended check but
      is refused by the code as written. */
  lemma CheckRoleNeededAsWrittenRefusesActiveMember()
    ensures var org := Organization([Member("u1", 0, Active)]);
      var caller := User("u1", map[]);
      CheckRoleNeeded(org, caller, 0) == Pass
      && CheckRoleNeededAsWritten(org, caller, 0) == Fail(ReferenceError("MemberStatusEnum"))
  {
    var org := Organization([Member("u1", 0, Active)]);
    assert org.members[0].userId == "u1";
  }
}
