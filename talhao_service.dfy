/** Owner-scoped operations on fields. A field stores no owner: every access
    walks to its parent property and checks that property's owner. Change
    events are published after the write without a guard, so a broker
    failure escapes the operation although the write has been saved. */
module TalhaoServices {
  import opened Domain
  import opened Data
  import PropriedadeRepositories
  import TalhaoRepositories
  import opened Messaging

  /** The field `id`, present exactly when it exists and its parent property
      belongs to `produtorId`. */
  function ObterPorIdEProdutorId(t: Tables, id: Guid, produtorId: Guid): (r: Option<Talhao>)
    requires Consistent(t)
    ensures r.Some? <==> OwnsTalhao(t, produtorId, id)
    ensures r.Some? ==> r.value == t.talhoes[id]
  {
    match TalhaoRepositories.ObterPorId(t, id)
    case None => None
    case Some(talhao) =>
      if PropriedadeRepositories.ObterPorIdEProdutorId(t, talhao.propriedadeId, produtorId).None?
      then None else Some(talhao)
  }

  /** The fields of property `propriedadeId` when `produtorId` owns it; the
      empty collection (not an error) when the property is missing or
      someone else's. */
  function ObterPorPropriedadeIdEProdutorId(t: Tables, propriedadeId: Guid, produtorId: Guid): (r: set<Talhao>)
    requires Consistent(t)
    ensures forall f :: f in r <==>
              Owns(t, produtorId, propriedadeId) && f in t.talhoes.Values && f.propriedadeId == propriedadeId
  {
    if PropriedadeRepositories.ObterPorIdEProdutorId(t, propriedadeId, produtorId).None? then {}
    else TalhaoRepositories.ObterPorPropriedadeId(t, propriedadeId)
  }

  /** Once a property is deleted, none of its former fields is reachable by
      anyone: the cascade removed them. */
  lemma {:induction false} DeletedPropertyHidesItsFields(t: Tables, propriedadeId: Guid, talhaoId: Guid, produtorId: Guid)
    requires Consistent(t)
    requires talhaoId in t.talhoes && t.talhoes[talhaoId].propriedadeId == propriedadeId
    ensures Consistent(CascadeDelete(t, propriedadeId))
    ensures ObterPorIdEProdutorId(CascadeDelete(t, propriedadeId), talhaoId, produtorId) == None
    ensures ObterPorPropriedadeIdEProdutorId(CascadeDelete(t, propriedadeId), propriedadeId, produtorId) == {}
  {
    CascadeDeletePreservesConsistency(t, propriedadeId);
    var after := CascadeDelete(t, propriedadeId);
    assert talhaoId !in after.talhoes;
    var fields := ObterPorPropriedadeIdEProdutorId(after, propriedadeId, produtorId);
    if f :| f in fields {
      assert propriedadeId !in after.propriedades;
    }
  }

  /** A field is visible to the owner of its property and to no one else. */
  lemma {:induction false} FieldOwnerIsolation(t: Tables, talhaoId: Guid, other: Guid)
    requires Consistent(t)
    requires talhaoId in t.talhoes
    requires other != t.propriedades[t.talhoes[talhaoId].propriedadeId].produtorId
    ensures ObterPorIdEProdutorId(t, talhaoId, t.propriedades[t.talhoes[talhaoId].propriedadeId].produtorId)
              == Some(t.talhoes[talhaoId])
    ensures ObterPorIdEProdutorId(t, talhaoId, other) == None
  {
  }

  class TalhaoService {
    const talhaoRepository: TalhaoRepositories.TalhaoRepository
    const propriedadeRepository: PropriedadeRepositories.PropriedadeRepository
    const publishEndpoint: PublishEndpoint

    constructor (talhaoRepository: TalhaoRepositories.TalhaoRepository,
                 propriedadeRepository: PropriedadeRepositories.PropriedadeRepository,
                 publishEndpoint: PublishEndpoint)
      ensures this.talhaoRepository == talhaoRepository
      ensures this.propriedadeRepository == propriedadeRepository
      ensures this.publishEndpoint == publishEndpoint
    {
      this.talhaoRepository := talhaoRepository;
      this.propriedadeRepository := propriedadeRepository;
      this.publishEndpoint := publishEndpoint;
    }

    /** The database both repositories work on. */
    function Db(): Database {
      talhaoRepository.db
    }

    ghost predicate Valid()
      reads Db()
    {
      propriedadeRepository.db == Db() && Db().Valid()
    }

    /** Adds a field under the caller's property `propriedadeId`. Nothing is
        written (and None is returned) when the property is missing or
        someone else's. After a successful write the event is published; if
        that fails the fault escapes, but the field stays stored. */
    method Criar(propriedadeId: Guid, produtorId: Guid, nome: string, cultura: string,
                 descricao: Option<string>, areaHectares: Option<int>, newId: Guid, now: Timestamp)
      returns (r: Outcome<Option<Talhao>>)
      requires Valid()
      requires newId !in Db().talhoes
      modifies Db(), publishEndpoint`published
      ensures Valid()
      ensures Db().propriedades == old(Db().propriedades)
      ensures !Owns(old(Db().State()), produtorId, propriedadeId) ==>
                && r == Completed(None)
                && Db().talhoes == old(Db().talhoes)
                && publishEndpoint.published == old(publishEndpoint.published)
      ensures Owns(old(Db().State()), produtorId, propriedadeId) ==>
                var row := Talhao(newId, propriedadeId, nome, cultura, descricao, areaHectares, now);
                if !TalhaoFits(row) then
                  && r == Faulted(PersistenceFailed)
                  && Db().talhoes == old(Db().talhoes)
                  && publishEndpoint.published == old(publishEndpoint.published)
                else
                  && Db().talhoes == old(Db().talhoes)[newId := row]
                  && if publishEndpoint.available then
                       && r == Completed(Some(row))
                       && publishEndpoint.published == old(publishEndpoint.published)
                            + [TalhaoData(newId, nome, propriedadeId)]
                     else
                       && r == Faulted(PublishFailed)
                       && publishEndpoint.published == old(publishEndpoint.published)
    {
      var propriedade := PropriedadeRepositories.ObterPorIdEProdutorId(Db().State(), propriedadeId, produtorId);
      if propriedade.None? {
        return Completed(None);
      }
      var talhao := Talhao(0, propriedadeId, nome, cultura, descricao, areaHectares, 0);
      var created := talhaoRepository.Criar(talhao, newId, now);
      if created.Faulted? {
        return Faulted(created.fault);
      }
      var delivered := publishEndpoint.Publish(
        TalhaoData(created.value.id, created.value.nome, created.value.propriedadeId));
      if !delivered {
        return Faulted(PublishFailed);
      }
      r := Completed(Some(created.value));
    }

    /** Changes name, crop, description and area of the caller's field `id`;
        its id, parent and creation time stay. Ownership is re-derived through
        the parent first; without it nothing is written. */
    method Atualizar(id: Guid, produtorId: Guid, nome: string, cultura: string,
                     descricao: Option<string>, areaHectares: Option<int>)
      returns (r: Outcome<Option<Talhao>>)
      requires Valid()
      modifies Db(), publishEndpoint`published
      ensures Valid()
      ensures Db().propriedades == old(Db().propriedades)
      ensures !OwnsTalhao(old(Db().State()), produtorId, id) ==>
                && r == Completed(None)
                && Db().talhoes == old(Db().talhoes)
                && publishEndpoint.published == old(publishEndpoint.published)
      ensures OwnsTalhao(old(Db().State()), produtorId, id) ==>
                var updated := old(Db().talhoes[id]).(nome := nome, cultura := cultura,
                                                      descricao := descricao, areaHectares := areaHectares);
                if !TalhaoFits(updated) then
                  && r == Faulted(PersistenceFailed)
                  && Db().talhoes == old(Db().talhoes)
                  && publishEndpoint.published == old(publishEndpoint.published)
                else
                  && Db().talhoes == old(Db().talhoes)[id := updated]
                  && if publishEndpoint.available then
                       && r == Completed(Some(updated))
                       && publishEndpoint.published == old(publishEndpoint.published)
                            + [TalhaoData(id, nome, updated.propriedadeId)]
                     else
                       && r == Faulted(PublishFailed)
                       && publishEndpoint.published == old(publishEndpoint.published)
      ensures r.Completed? && r.value.Some? ==>
                var f := r.value.value;
                && f.id == id
                && f.propriedadeId == old(Db().talhoes[id].propriedadeId)
                && f.dataCriacao == old(Db().talhoes[id].dataCriacao)
    {
      var talhao := ObterPorIdEProdutorId(Db().State(), id, produtorId);
      if talhao.None? {
        return Completed(None);
      }
      var changed := talhao.value.(nome := nome, cultura := cultura,
                                   descricao := descricao, areaHectares := areaHectares);
      var updated := talhaoRepository.Atualizar(changed);
      if updated.Faulted? {
        return Faulted(updated.fault);
      }
      var delivered := publishEndpoint.Publish(
        TalhaoData(updated.value.id, updated.value.nome, updated.value.propriedadeId));
      if !delivered {
        return Faulted(PublishFailed);
      }
      r := Completed(Some(updated.value));
    }

    /** Deletes the caller's field `id`; false, deleting nothing, when the
        field is missing or its property is someone else's. */
    method Excluir(id: Guid, produtorId: Guid) returns (deleted: bool)
      requires Valid()
      modifies Db()
      ensures Valid()
      ensures deleted == OwnsTalhao(old(Db().State()), produtorId, id)
      ensures Db().propriedades == old(Db().propriedades)
      ensures Db().talhoes == if deleted then old(Db().talhoes) - {id} else old(Db().talhoes)
    {
      var talhao := ObterPorIdEProdutorId(Db().State(), id, produtorId);
      if talhao.None? {
        return false;
      }
      deleted := talhaoRepository.Excluir(id);
    }
  }
}
