/** The option-returning variant of claim resolution: the same priority
    chain and parse, but no bypass check and no exception. */
module ClaimsPrincipalExtensions {
  import opened Domain
  import opened GuidText
  import UserContext

  /** ClaimsPrincipal.GetProdutorId(): the first present of the four claim
      types, parsed; None when there is none or it does not parse. */
  function GetProdutorId(user: UserContext.Principal): (r: Option<Guid>)
    ensures UserContext.SelectClaim(user.claims).None? ==> r.None?
    ensures r.Some? ==> r.value < GuidCount
  {
    var claim := UserContext.SelectClaim(user.claims);
    if claim.Some? && ParseGuid(claim.value.value).Some?
    then ParseGuid(claim.value.value)
    else None
  }

  /** Outside the bypass scheme the two resolutions agree: this one yields
      Some(g) exactly when the throwing one returns g, and None exactly
      when it throws. */
  lemma AgreesWithUserContext(user: UserContext.Principal, bypass: UserContext.BypassConstants)
    requires !UserContext.IsBypass(user, bypass)
    ensures GetProdutorId(user).Some? <==> UserContext.GetProdutorId(Some(user), bypass).Resolved?
    ensures GetProdutorId(user).Some? ==>
              UserContext.GetProdutorId(Some(user), bypass) == UserContext.Resolved(GetProdutorId(user).value)
  {
  }

  /** No fallback here either: when the selected claim does not parse the
      result is None, whatever lower-priority claims follow. */
  lemma {:induction false} UnparsableClaimGivesNone(identity: Option<UserContext.Identity>, k: nat, bad: string,
                                                    others: seq<UserContext.Claim>, rest: seq<UserContext.Claim>)
    requires k < |UserContext.ClaimPriority| && ParseGuid(bad).None?
    requires forall x | x in others :: forall j | 0 <= j <= k ::
               !UserContext.SameClaimType(x.claimType, UserContext.ClaimPriority[j])
    requires forall x | x in rest :: forall j | 0 <= j < k ::
               !UserContext.SameClaimType(x.claimType, UserContext.ClaimPriority[j])
    ensures GetProdutorId(UserContext.Principal(identity,
              others + [UserContext.Claim(UserContext.ClaimPriority[k], bad)] + rest)) == None
  {
    UserContext.SelectClaimPicks(others, UserContext.Claim(UserContext.ClaimPriority[k], bad), rest, k);
  }
}
