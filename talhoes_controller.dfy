/** HTTP endpoints for fields. Every action takes the caller's producer id
    from identity resolution, never from the route or body, calls the field
    service and maps its answer to a result kind. */
module TalhoesControllers {
  import opened Domain
  import opened Data
  import UserContext
  import TalhaoServices

  datatype ActionResult<T> =
    | Ok(body: T)
    | NotFound
    | BadRequest(message: string)
    | CreatedAtAction(actionName: string, routeId: Guid, body: T)
    | NoContent

  /** An exception that escapes an action. */
  datatype ActionFault =
    | UnauthorizedAccess(message: string)  // identity resolution failed
    | ServiceFault(fault: Fault)           // the service let a fault through

  datatype ActionOutcome<T> = Returned(result: ActionResult<T>) | Threw(exception: ActionFault)

  /** Request body of create and update. */
  datatype TalhaoDto = TalhaoDto(nome: string, cultura: string, descricao: Option<string>, areaHectares: Option<int>)

  const PropriedadeNaoEncontradaMessage: string := "Propriedade não encontrada ou não pertence ao produtor."

  /** GET {id} and PUT {id}: NotFound for no field, Ok with the field
      otherwise. */
  function OkOrNotFound(talhao: Option<Talhao>): (r: ActionResult<Talhao>)
    ensures r.NotFound? <==> talhao.None?
    ensures r.Ok? <==> talhao.Some?
    ensures r.Ok? ==> r.body == talhao.value
  {
    if talhao.None? then NotFound else Ok(talhao.value)
  }

  /** GET propriedade/{propriedadeId}: always Ok, possibly with no fields. */
  function ObterPorPropriedadeIdResult(talhoes: set<Talhao>): (r: ActionResult<set<Talhao>>)
    ensures r.Ok? && r.body == talhoes
  {
    Ok(talhoes)
  }

  /** POST propriedade/{propriedadeId}: BadRequest when the service created
      nothing, otherwise Created pointing at GET {id} of the new field. */
  function CriarResult(talhao: Option<Talhao>): (r: ActionResult<Talhao>)
    ensures talhao.None? <==> r == BadRequest(PropriedadeNaoEncontradaMessage)
    ensures talhao.Some? <==> r.CreatedAtAction?
    ensures talhao.Some? ==> r == CreatedAtAction("ObterPorId", talhao.value.id, talhao.value)
  {
    if talhao.None? then BadRequest(PropriedadeNaoEncontradaMessage)
    else CreatedAtAction("ObterPorId", talhao.value.id, talhao.value)
  }

  /** DELETE {id}: NoContent when deleted, NotFound otherwise. */
  function ExcluirResult(sucesso: bool): (r: ActionResult<()>)
    ensures r.NoContent? <==> sucesso
    ensures r.NotFound? <==> !sucesso
  {
    if sucesso then NoContent else NotFound
  }

  /** The answer to GET {id} does not reveal whether a field exists under
      another producer: missing and not-owned both give NotFound. */
  lemma NotFoundHidesOtherOwners(t: Tables, id: Guid, produtorId: Guid)
    requires Consistent(t)
    ensures OkOrNotFound(TalhaoServices.ObterPorIdEProdutorId(t, id, produtorId)) ==
              if OwnsTalhao(t, produtorId, id) then Ok(t.talhoes[id]) else NotFound
  {
  }

  class TalhoesController {
    const talhaoService: TalhaoServices.TalhaoService
    /** Configuration of the user context service. */
    const bypass: UserContext.BypassConstants

    constructor (talhaoService: TalhaoServices.TalhaoService, bypass: UserContext.BypassConstants)
      ensures this.talhaoService == talhaoService && this.bypass == bypass
    {
      this.talhaoService := talhaoService;
      this.bypass := bypass;
    }

    method ObterPorId(ctx: UserContext.HttpContext, id: Guid) returns (r: ActionOutcome<Talhao>)
      requires talhaoService.Valid()
      ensures UserContext.GetProdutorId(ctx, bypass).Unauthorized? ==>
                r == Threw(UnauthorizedAccess(UserContext.GetProdutorId(ctx, bypass).message))
      ensures UserContext.GetProdutorId(ctx, bypass).Resolved? ==>
                var produtorId := UserContext.GetProdutorId(ctx, bypass).produtorId;
                var t := talhaoService.Db().State();
                r == Returned(if OwnsTalhao(t, produtorId, id) then Ok(t.talhoes[id]) else NotFound)
    {
      var who := UserContext.GetProdutorId(ctx, bypass);
      if who.Unauthorized? {
        return Threw(UnauthorizedAccess(who.message));
      }
      var talhao := TalhaoServices.ObterPorIdEProdutorId(talhaoService.Db().State(), id, who.produtorId);
      r := Returned(OkOrNotFound(talhao));
    }

    method ObterPorPropriedadeId(ctx: UserContext.HttpContext, propriedadeId: Guid)
      returns (r: ActionOutcome<set<Talhao>>)
      requires talhaoService.Valid()
      ensures UserContext.GetProdutorId(ctx, bypass).Unauthorized? ==>
                r == Threw(UnauthorizedAccess(UserContext.GetProdutorId(ctx, bypass).message))
      ensures UserContext.GetProdutorId(ctx, bypass).Resolved? ==>
                var produtorId := UserContext.GetProdutorId(ctx, bypass).produtorId;
                var t := talhaoService.Db().State();
                && r.Returned? && r.result.Ok?
                && forall f :: f in r.result.body <==>
                     Owns(t, produtorId, propriedadeId) && f in t.talhoes.Values && f.propriedadeId == propriedadeId
    {
      var who := UserContext.GetProdutorId(ctx, bypass);
      if who.Unauthorized? {
        return Threw(UnauthorizedAccess(who.message));
      }
      var talhoes := TalhaoServices.ObterPorPropriedadeIdEProdutorId(talhaoService.Db().State(), propriedadeId, who.produtorId);
      r := Returned(ObterPorPropriedadeIdResult(talhoes));
    }

    method Criar(ctx: UserContext.HttpContext, propriedadeId: Guid, dto: TalhaoDto, newId: Guid, now: Timestamp)
      returns (r: ActionOutcome<Talhao>)
      requires talhaoService.Valid()
      requires newId !in talhaoService.Db().talhoes
      modifies talhaoService.Db(), talhaoService.publishEndpoint`published
      ensures talhaoService.Valid()
      ensures talhaoService.Db().propriedades == old(talhaoService.Db().propriedades)
      ensures UserContext.GetProdutorId(ctx, bypass).Unauthorized? ==>
                && r == Threw(UnauthorizedAccess(UserContext.GetProdutorId(ctx, bypass).message))
                && talhaoService.Db().talhoes == old(talhaoService.Db().talhoes)
                && talhaoService.publishEndpoint.published == old(talhaoService.publishEndpoint.published)
      ensures UserContext.GetProdutorId(ctx, bypass).Resolved? ==>
                var produtorId := UserContext.GetProdutorId(ctx, bypass).produtorId;
                var row := Talhao(newId, propriedadeId, dto.nome, dto.cultura, dto.descricao, dto.areaHectares, now);
                var stored := Owns(old(talhaoService.Db().State()), produtorId, propriedadeId) && TalhaoFits(row);
                && talhaoService.Db().talhoes ==
                     (if stored then old(talhaoService.Db().talhoes)[newId := row] else old(talhaoService.Db().talhoes))
                && talhaoService.publishEndpoint.published == old(talhaoService.publishEndpoint.published)
                     + (if stored && talhaoService.publishEndpoint.available
                        then [TalhaoData(newId, dto.nome, propriedadeId)] else [])
                && r == if !Owns(old(talhaoService.Db().State()), produtorId, propriedadeId)
                          then Returned(BadRequest(PropriedadeNaoEncontradaMessage))
                        else if !TalhaoFits(row) then Threw(ServiceFault(PersistenceFailed))
                        else if !talhaoService.publishEndpoint.available then Threw(ServiceFault(PublishFailed))
                        else Returned(CreatedAtAction("ObterPorId", newId, row))
    {
      var who := UserContext.GetProdutorId(ctx, bypass);
      if who.Unauthorized? {
        return Threw(UnauthorizedAccess(who.message));
      }
      var talhao := talhaoService.Criar(propriedadeId, who.produtorId, dto.nome, dto.cultura,
                                        dto.descricao, dto.areaHectares, newId, now);
      if talhao.Faulted? {
        return Threw(ServiceFault(talhao.fault));
      }
      r := Returned(CriarResult(talhao.value));
    }

    method Atualizar(ctx: UserContext.HttpContext, id: Guid, dto: TalhaoDto) returns (r: ActionOutcome<Talhao>)
      requires talhaoService.Valid()
      modifies talhaoService.Db(), talhaoService.publishEndpoint`published
      ensures talhaoService.Valid()
      ensures talhaoService.Db().propriedades == old(talhaoService.Db().propriedades)
      ensures UserContext.GetProdutorId(ctx, bypass).Unauthorized? ==>
                && r == Threw(UnauthorizedAccess(UserContext.GetProdutorId(ctx, bypass).message))
                && talhaoService.Db().talhoes == old(talhaoService.Db().talhoes)
                && talhaoService.publishEndpoint.published == old(talhaoService.publishEndpoint.published)
      ensures UserContext.GetProdutorId(ctx, bypass).Resolved? ==>
                var produtorId := UserContext.GetProdutorId(ctx, bypass).produtorId;
                if !OwnsTalhao(old(talhaoService.Db().State()), produtorId, id) then
                  && r == Returned(NotFound)
                  && talhaoService.Db().talhoes == old(talhaoService.Db().talhoes)
                  && talhaoService.publishEndpoint.published == old(talhaoService.publishEndpoint.published)
                else
                  var updated := old(talhaoService.Db().talhoes[id]).(nome := dto.nome, cultura := dto.cultura,
                                   descricao := dto.descricao, areaHectares := dto.areaHectares);
                  && talhaoService.Db().talhoes ==
                       (if TalhaoFits(updated) then old(talhaoService.Db().talhoes)[id := updated]
                        else old(talhaoService.Db().talhoes))
                  && talhaoService.publishEndpoint.published == old(talhaoService.publishEndpoint.published)
                       + (if TalhaoFits(updated) && talhaoService.publishEndpoint.available
                          then [TalhaoData(id, dto.nome, updated.propriedadeId)] else [])
                  && r == if !TalhaoFits(updated) then Threw(ServiceFault(PersistenceFailed))
                          else if !talhaoService.publishEndpoint.available then Threw(ServiceFault(PublishFailed))
                          else Returned(Ok(updated))
    {
      var who := UserContext.GetProdutorId(ctx, bypass);
      if who.Unauthorized? {
        return Threw(UnauthorizedAccess(who.message));
      }
      var talhao := talhaoService.Atualizar(id, who.produtorId, dto.nome, dto.cultura, dto.descricao, dto.areaHectares);
      if talhao.Faulted? {
        return Threw(ServiceFault(talhao.fault));
      }
      r := Returned(OkOrNotFound(talhao.value));
    }

    method Excluir(ctx: UserContext.HttpContext, id: Guid) returns (r: ActionOutcome<()>)
      requires talhaoService.Valid()
      modifies talhaoService.Db()
      ensures talhaoService.Valid()
      ensures talhaoService.Db().propriedades == old(talhaoService.Db().propriedades)
      ensures UserContext.GetProdutorId(ctx, bypass).Unauthorized? ==>
                && r == Threw(UnauthorizedAccess(UserContext.GetProdutorId(ctx, bypass).message))
                && talhaoService.Db().talhoes == old(talhaoService.Db().talhoes)
      ensures UserContext.GetProdutorId(ctx, bypass).Resolved? ==>
                var owned := OwnsTalhao(old(talhaoService.Db().State()), UserContext.GetProdutorId(ctx, bypass).produtorId, id);
                && r == Returned(if owned then NoContent else NotFound)
                && talhaoService.Db().talhoes ==
                     (if owned then old(talhaoService.Db().talhoes) - {id} else old(talhaoService.Db().talhoes))
    {
      var who := UserContext.GetProdutorId(ctx, bypass);
      if who.Unauthorized? {
        return Threw(UnauthorizedAccess(who.message));
      }
      var sucesso := talhaoService.Excluir(id, who.produtorId);
      r := Returned(ExcluirResult(sucesso));
    }
  }
}
