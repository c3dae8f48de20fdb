/** Resolving the calling producer from the request's principal: a fixed
    development identity when the bypass scheme authenticated the request,
    otherwise the first present claim of `sub`, NameIdentifier, `userId`,
    `produtorId` (in that order), which must parse as a Guid. */
module UserContext {
  import opened Domain
  import opened GuidText

  datatype Claim = Claim(claimType: string, value: string)

  /** The principal's primary identity. */
  datatype Identity = Identity(authenticationType: Option<string>)

  /** A principal: its identity, if any, and the claims of all its identities
      in order. */
  datatype Principal = Principal(identity: Option<Identity>, claims: seq<Claim>)

  /** The user of the current request; None when there is no HTTP context. */
  type HttpContext = Option<Principal>

  /** The development bypass's scheme name and the producer it stands for. */
  datatype BypassConstants = BypassConstants(schemeName: string, produtorId: Guid)

  const SubClaim: string := "sub"
  const NameIdentifierClaim: string := "http://schemas.xmlsoap.org/ws/2005/05/identity/claims/nameidentifier"
  const UserIdClaim: string := "userId"
  const ProdutorIdClaim: string := "produtorId"

  /** The claim types consulted, highest priority first. */
  const ClaimPriority: seq<string> := [SubClaim, NameIdentifierClaim, UserIdClaim, ProdutorIdClaim]

  const NotAuthenticatedMessage: string := "Usuário não autenticado."
  const UserIdNotFoundMessage: string := "UserId não encontrado no token."

  /** Either the producer's id, or the UnauthorizedAccessException thrown. */
  datatype Resolution = Resolved(produtorId: Guid) | Unauthorized(message: string)

  function UpperAscii(c: char): char {
    if 'a' <= c <= 'z' then (c as int - 32) as char else c
  }

  /** Claim types are compared ignoring case. */
  predicate SameClaimType(a: string, b: string) {
    |a| == |b| && forall i | 0 <= i < |a| :: UpperAscii(a[i]) == UpperAscii(b[i])
  }

  /** ClaimsPrincipal.FindFirst: the first claim of the given type. */
  function FindFirst(claims: seq<Claim>, claimType: string): (r: Option<Claim>)
    ensures r.Some? ==> r.value in claims && SameClaimType(r.value.claimType, claimType)
    ensures r.None? ==> forall c | c in claims :: !SameClaimType(c.claimType, claimType)
  {
    if |claims| == 0 then None
    else if SameClaimType(claims[0].claimType, claimType) then Some(claims[0])
    else FindFirst(claims[1..], claimType)
  }

  /** FindFirst returns the earliest matching claim, not just some match. */
  lemma {:induction false} FindFirstIsEarliest(claims: seq<Claim>, claimType: string, i: nat)
    requires i < |claims| && SameClaimType(claims[i].claimType, claimType)
    requires forall j | 0 <= j < i :: !SameClaimType(claims[j].claimType, claimType)
    ensures FindFirst(claims, claimType) == Some(claims[i])
  {
    if i > 0 {
      FindFirstIsEarliest(claims[1..], claimType, i - 1);
    }
  }

  /** The null-coalescing chain over the four claim types. */
  function SelectClaim(claims: seq<Claim>): (r: Option<Claim>)
    ensures r.None? <==> forall k | 0 <= k < |ClaimPriority| :: FindFirst(claims, ClaimPriority[k]).None?
    ensures r.Some? ==> exists k | 0 <= k < |ClaimPriority| ::
              && r == FindFirst(claims, ClaimPriority[k])
              && forall j | 0 <= j < k :: FindFirst(claims, ClaimPriority[j]).None?
  {
    var sub := FindFirst(claims, SubClaim);
    if sub.Some? then
      assert sub == FindFirst(claims, ClaimPriority[0]);
      sub
    else
      var nameIdentifier := FindFirst(claims, NameIdentifierClaim);
      if nameIdentifier.Some? then
        assert nameIdentifier == FindFirst(claims, ClaimPriority[1]);
        nameIdentifier
      else
        var userId := FindFirst(claims, UserIdClaim);
        if userId.Some? then
          assert userId == FindFirst(claims, ClaimPriority[2]);
          userId
        else
          assert FindFirst(claims, ProdutorIdClaim) == FindFirst(claims, ClaimPriority[3]);
          FindFirst(claims, ProdutorIdClaim)
  }

  /** The request was authenticated by the development bypass scheme
      (ordinal comparison of the authentication type). */
  predicate IsBypass(user: Principal, bypass: BypassConstants) {
    user.identity.Some? && user.identity.value.authenticationType == Some(bypass.schemeName)
  }

  /** IUserContextService.GetProdutorId. */
  function GetProdutorId(ctx: HttpContext, bypass: BypassConstants): (r: Resolution)
    ensures ctx.None? ==> r == Unauthorized(NotAuthenticatedMessage)
    ensures r.Unauthorized? ==> r.message in {NotAuthenticatedMessage, UserIdNotFoundMessage}
    ensures r.Resolved? && !IsBypass(ctx.value, bypass) ==>
              exists c | c in ctx.value.claims ::
                (exists k | 0 <= k < |ClaimPriority| :: SameClaimType(c.claimType, ClaimPriority[k]))
                && ParseGuid(c.value) == Some(r.produtorId)
    // outside the bypass only the selected claim decides: no fallback
    ensures ctx.Some? && !IsBypass(ctx.value, bypass) && r.Resolved? ==>
              && SelectClaim(ctx.value.claims).Some?
              && ParseGuid(SelectClaim(ctx.value.claims).value.value) == Some(r.produtorId)
    ensures (ctx.Some? && !IsBypass(ctx.value, bypass) && SelectClaim(ctx.value.claims).Some?
             && ParseGuid(SelectClaim(ctx.value.claims).value.value).Some?) ==> r.Resolved?
  {
    match ctx
    case None => Unauthorized(NotAuthenticatedMessage)
    case Some(user) =>
      if IsBypass(user, bypass) then Resolved(bypass.produtorId)
      else
        match SelectClaim(user.claims)
        case None => Unauthorized(UserIdNotFoundMessage)
        case Some(claim) =>
          match ParseGuid(claim.value)
          case None => Unauthorized(UserIdNotFoundMessage)
          case Some(produtorId) => Resolved(produtorId)
  }

  /** IUserContextService.IsAuthenticated: an identity with a non-empty
      authentication type; false without an HTTP context. */
  function IsAuthenticated(ctx: HttpContext): (r: bool)
    ensures ctx.None? ==> !r
    ensures r <==> && ctx.Some? && ctx.value.identity.Some?
                   && ctx.value.identity.value.authenticationType.Some?
                   && |ctx.value.identity.value.authenticationType.value| > 0
  {
    match ctx
    case None => false
    case Some(user) =>
      match user.identity
      case None => false
      case Some(identity) => identity.authenticationType.Some? && |identity.authenticationType.value| > 0
  }

  /** The bypass scheme short-circuits: whatever the claims, the fixed
      development producer is returned. */
  lemma BypassIgnoresClaims(user: Principal, bypass: BypassConstants, claims: seq<Claim>)
    requires IsBypass(user, bypass)
    ensures GetProdutorId(Some(user.(claims := claims)), bypass) == Resolved(bypass.produtorId)
  {
  }

  /** Without any of the four claim types resolution fails with the
      "UserId not found" message. */
  lemma NoPriorityClaimFails(user: Principal, bypass: BypassConstants)
    requires !IsBypass(user, bypass)
    requires forall c | c in user.claims :: forall k | 0 <= k < |ClaimPriority| ::
               !SameClaimType(c.claimType, ClaimPriority[k])
    ensures GetProdutorId(Some(user), bypass) == Unauthorized(UserIdNotFoundMessage)
  {
  }

  /** The chain picks `c` when it has priority type k, no claim before it
      has that type or a higher one, and no claim after it has a higher one;
      claims of lower priority anywhere do not matter. */
  lemma {:induction false} SelectClaimPicks(others: seq<Claim>, c: Claim, rest: seq<Claim>, k: nat)
    requires k < |ClaimPriority| && SameClaimType(c.claimType, ClaimPriority[k])
    requires forall x | x in others :: forall j | 0 <= j <= k :: !SameClaimType(x.claimType, ClaimPriority[j])
    requires forall x | x in rest :: forall j | 0 <= j < k :: !SameClaimType(x.claimType, ClaimPriority[j])
    ensures SelectClaim(others + [c] + rest) == Some(c)
  {
    var claims := others + [c] + rest;
    var n := |others|;
    assert claims[n] == c;
    assert forall i | 0 <= i < n :: claims[i] in others;
    FindFirstIsEarliest(claims, ClaimPriority[k], n);
    forall j | 0 <= j < k
      ensures FindFirst(claims, ClaimPriority[j]).None?
    {
      // the four claim types have different lengths
      assert |ClaimPriority[j]| != |ClaimPriority[k]|;
      assert forall x | x in claims :: x in others || x == c || x in rest;
    }
  }

  /** No fallback: when the selected claim (of any of the four types, in any
      position) does not parse, resolution fails even if claims of lower
      priority hold valid Guids. */
  lemma {:induction false} UnparsableClaimHasNoFallback(identity: Option<Identity>, bypass: BypassConstants,
                                                        k: nat, bad: string, others: seq<Claim>, rest: seq<Claim>)
    requires k < |ClaimPriority| && ParseGuid(bad).None?
    requires !IsBypass(Principal(identity, []), bypass)
    requires forall x | x in others :: forall j | 0 <= j <= k :: !SameClaimType(x.claimType, ClaimPriority[j])
    requires forall x | x in rest :: forall j | 0 <= j < k :: !SameClaimType(x.claimType, ClaimPriority[j])
    ensures GetProdutorId(Some(Principal(identity, others + [Claim(ClaimPriority[k], bad)] + rest)), bypass)
              == Unauthorized(UserIdNotFoundMessage)
  {
    SelectClaimPicks(others, Claim(ClaimPriority[k], bad), rest, k);
  }

  /** A claim holding a Guid's text resolves to that Guid when no claim of
      its type or a higher one comes before it and none of a higher type
      comes after it. */
  lemma {:induction false} ClaimOfGuidResolves(identity: Option<Identity>, bypass: BypassConstants,
                                               k: nat, g: Guid, others: seq<Claim>, rest: seq<Claim>)
    requires k < |ClaimPriority| && g < GuidCount
    requires !IsBypass(Principal(identity, []), bypass)
    requires forall x | x in others :: forall j | 0 <= j <= k :: !SameClaimType(x.claimType, ClaimPriority[j])
    requires forall x | x in rest :: forall j | 0 <= j < k :: !SameClaimType(x.claimType, ClaimPriority[j])
    ensures GetProdutorId(Some(Principal(identity, others + [Claim(ClaimPriority[k], FormatGuid(g))] + rest)), bypass)
              == Resolved(g)
  {
    SelectClaimPicks(others, Claim(ClaimPriority[k], FormatGuid(g)), rest, k);
    ParseFormatRoundTrip(g);
  }
}
