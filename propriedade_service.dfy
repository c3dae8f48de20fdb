/** Owner-scoped operations on properties. Every write first checks that the
    caller owns the property; a change event is then published, and a
    failure to publish it is swallowed (only logged). */
module PropriedadeServices {
  import opened Domain
  import opened Data
  import PropriedadeRepositories
  import opened Messaging

  /** The caller's property `id`: present exactly when it exists and
      `produtorId` owns it; "missing" and "someone else's" look the same. */
  function ObterPorId(t: Tables, id: Guid, produtorId: Guid): (r: Option<Propriedade>)
    requires Consistent(t)
    ensures r.None? <==> !(id in t.propriedades && t.propriedades[id].produtorId == produtorId)
    ensures r.Some? ==> r.value == t.propriedades[id]
  {
    PropriedadeRepositories.ObterPorIdEProdutorId(t, id, produtorId)
  }

  /** All of the caller's properties and nothing else. */
  function ObterPorProdutorId(t: Tables, produtorId: Guid): (r: set<Propriedade>)
    ensures forall p :: p in r <==> p in t.propriedades.Values && p.produtorId == produtorId
    ensures forall id | Owns(t, produtorId, id) :: t.propriedades[id] in r
  {
    PropriedadeRepositories.ObterPorProdutorId(t, produtorId)
  }

  class PropriedadeService {
    const repository: PropriedadeRepositories.PropriedadeRepository
    const publishEndpoint: PublishEndpoint

    constructor (repository: PropriedadeRepositories.PropriedadeRepository, publishEndpoint: PublishEndpoint)
      ensures this.repository == repository && this.publishEndpoint == publishEndpoint
    {
      this.repository := repository;
      this.publishEndpoint := publishEndpoint;
    }

    ghost predicate Valid()
      reads repository.db
    {
      repository.db.Valid()
    }

    /** Stores a new property of `produtorId` under the fresh id `newId`, then
        tries to publish it. The stored row is returned whether or not the
        event could be delivered; only a refused write is a fault. */
    method Criar(produtorId: Guid, nome: string, descricao: Option<string>, newId: Guid, now: Timestamp)
      returns (r: Outcome<Propriedade>)
      requires Valid()
      requires newId !in repository.db.propriedades
      modifies repository.db, publishEndpoint`published
      ensures Valid()
      ensures repository.db.talhoes == old(repository.db.talhoes)
      ensures var row := Propriedade(newId, produtorId, nome, descricao, now);
              if PropriedadeFits(row) then
                && r == Completed(row)
                && repository.db.propriedades == old(repository.db.propriedades)[newId := row]
                && publishEndpoint.published == old(publishEndpoint.published)
                     + (if publishEndpoint.available then [PropriedadeData(newId, nome, produtorId)] else [])
              else
                && r == Faulted(PersistenceFailed)
                && repository.db.propriedades == old(repository.db.propriedades)
                && publishEndpoint.published == old(publishEndpoint.published)
    {
      var propriedade := Propriedade(0, produtorId, nome, descricao, 0);
      var created := repository.Criar(propriedade, newId, now);
      if created.Faulted? {
        return created;
      }
      var delivered := publishEndpoint.Publish(
        PropriedadeData(created.value.id, created.value.nome, created.value.produtorId));
      // an undelivered event is only logged
      r := created;
    }

    /** Renames and re-describes the caller's property `id`; every other
        column keeps its value. Nothing happens (and None is returned) when
        the property is missing or owned by someone else. */
    method Atualizar(id: Guid, produtorId: Guid, nome: string, descricao: Option<string>)
      returns (r: Outcome<Option<Propriedade>>)
      requires Valid()
      modifies repository.db, publishEndpoint`published
      ensures Valid()
      ensures repository.db.talhoes == old(repository.db.talhoes)
      ensures !Owns(old(repository.db.State()), produtorId, id) ==>
                && r == Completed(None)
                && repository.db.propriedades == old(repository.db.propriedades)
                && publishEndpoint.published == old(publishEndpoint.published)
      ensures Owns(old(repository.db.State()), produtorId, id) ==>
                var updated := old(repository.db.propriedades[id]).(nome := nome, descricao := descricao);
                if PropriedadeFits(updated) then
                  && r == Completed(Some(updated))
                  && repository.db.propriedades == old(repository.db.propriedades)[id := updated]
                  && publishEndpoint.published == old(publishEndpoint.published)
                       + (if publishEndpoint.available then [PropriedadeData(id, nome, produtorId)] else [])
                else
                  && r == Faulted(PersistenceFailed)
                  && repository.db.propriedades == old(repository.db.propriedades)
                  && publishEndpoint.published == old(publishEndpoint.published)
      ensures r.Completed? && r.value.Some? ==>
                var p := r.value.value;
                && p.id == id && p.produtorId == produtorId
                && p.dataCriacao == old(repository.db.propriedades[id].dataCriacao)
                && p.nome == nome && p.descricao == descricao
    {
      var propriedade := PropriedadeRepositories.ObterPorIdEProdutorId(repository.db.State(), id, produtorId);
      if propriedade.None? {
        return Completed(None);
      }
      var changed := propriedade.value.(nome := nome, descricao := descricao);
      var updated := repository.Atualizar(changed);
      if updated.Faulted? {
        return Faulted(updated.fault);
      }
      var delivered := publishEndpoint.Publish(
        PropriedadeData(updated.value.id, updated.value.nome, updated.value.produtorId));
      // an undelivered event is only logged
      r := Completed(Some(updated.value));
    }

    /** Deletes the caller's property `id` together with its fields. Returns
        false, deleting nothing, when it is missing or someone else's. */
    method Excluir(id: Guid, produtorId: Guid) returns (deleted: bool)
      requires Valid()
      modifies repository.db
      ensures Valid()
      ensures deleted == Owns(old(repository.db.State()), produtorId, id)
      ensures repository.db.State() ==
                if deleted then CascadeDelete(old(repository.db.State()), id)
                else old(repository.db.State())
    {
      var propriedade := PropriedadeRepositories.ObterPorIdEProdutorId(repository.db.State(), id, produtorId);
      if propriedade.None? {
        return false;
      }
      deleted := repository.Excluir(id);
    }
  }
}
