/** The property table's repository. Its queries are filters over the table;
    its writes add, replace or remove one row and save. */
module PropriedadeRepositories {
  import opened Domain
  import opened Data

  /** The row whose id is `id` and whose owner is `produtorId`, if any. */
  function ObterPorIdEProdutorId(t: Tables, id: Guid, produtorId: Guid): (r: Option<Propriedade>)
    requires Consistent(t)
    ensures r.Some? <==> Owns(t, produtorId, id)
    ensures r.Some? ==> r.value in t.propriedades.Values
                        && r.value.id == id && r.value.produtorId == produtorId
  {
    if id in t.propriedades && t.propriedades[id].produtorId == produtorId
    then Some(t.propriedades[id]) else None
  }

  /** Every row owned by `produtorId` (the order of the list is not modelled). */
  function ObterPorProdutorId(t: Tables, produtorId: Guid): (r: set<Propriedade>)
    ensures forall p :: p in r <==> p in t.propriedades.Values && p.produtorId == produtorId
  {
    set id | id in t.propriedades && t.propriedades[id].produtorId == produtorId
      :: t.propriedades[id]
  }

  /** Owner isolation: a property is never visible to anyone but its owner,
      and always visible to its owner. */
  lemma OwnerIsolation(t: Tables, p: Propriedade, other: Guid)
    requires Consistent(t)
    requires p in t.propriedades.Values
    requires other != p.produtorId
    ensures ObterPorIdEProdutorId(t, p.id, p.produtorId) == Some(p)
    ensures ObterPorIdEProdutorId(t, p.id, other) == None
    ensures p in ObterPorProdutorId(t, p.produtorId)
    ensures p !in ObterPorProdutorId(t, other)
  {
    var k :| k in t.propriedades && t.propriedades[k] == p;
    assert k == p.id;
  }

  class PropriedadeRepository {
    const db: Database

    constructor (db: Database)
      ensures this.db == db
    {
      this.db := db;
    }

    /** Gives the row a fresh id and the creation time, then inserts it. A row
        the columns cannot hold is refused and nothing is stored. */
    method Criar(propriedade: Propriedade, newId: Guid, now: Timestamp) returns (r: Outcome<Propriedade>)
      requires db.Valid()
      requires newId !in db.propriedades
      modifies db
      ensures db.Valid()
      ensures db.talhoes == old(db.talhoes)
      ensures var row := propriedade.(id := newId, dataCriacao := now);
              if PropriedadeFits(row)
              then r == Completed(row) && db.propriedades == old(db.propriedades)[newId := row]
              else r == Faulted(PersistenceFailed) && db.propriedades == old(db.propriedades)
    {
      var row := propriedade.(id := newId, dataCriacao := now);
      if !PropriedadeFits(row) {
        return Faulted(PersistenceFailed);
      }
      db.propriedades := db.propriedades[newId := row];
      r := Completed(row);
    }

    /** Replaces the stored row with the same id. Saving fails when no such
        row exists or the new row does not fit its columns. */
    method Atualizar(propriedade: Propriedade) returns (r: Outcome<Propriedade>)
      requires db.Valid()
      modifies db
      ensures db.Valid()
      ensures db.talhoes == old(db.talhoes)
      ensures if propriedade.id in old(db.propriedades) && PropriedadeFits(propriedade)
              then r == Completed(propriedade)
                   && db.propriedades == old(db.propriedades)[propriedade.id := propriedade]
              else r == Faulted(PersistenceFailed) && db.propriedades == old(db.propriedades)
    {
      if propriedade.id !in db.propriedades || !PropriedadeFits(propriedade) {
        return Faulted(PersistenceFailed);
      }
      db.propriedades := db.propriedades[propriedade.id := propriedade];
      r := Completed(propriedade);
    }

    /** Deletes the row with id `id` and, by cascade, its fields; false and
        no change when there is no such row. */
    method Excluir(id: Guid) returns (deleted: bool)
      requires db.Valid()
      modifies db
      ensures db.Valid()
      ensures deleted == (id in old(db.propriedades))
      ensures db.State() == if deleted then CascadeDelete(old(db.State()), id) else old(db.State())
    {
      if id !in db.propriedades {
        return false;
      }
      CascadeDeletePreservesConsistency(db.State(), id);
      var after := CascadeDelete(db.State(), id);
      db.propriedades, db.talhoes := after.propriedades, after.talhoes;
      deleted := true;
    }
  }
}
