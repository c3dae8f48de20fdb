/** The field table's repository. Its queries are filters over the table;
    its writes add, replace or remove one row and save. */
module TalhaoRepositories {
  import opened Domain
  import opened Data

  /** The field with id `id`, if any. */
  function ObterPorId(t: Tables, id: Guid): (r: Option<Talhao>)
    requires Consistent(t)
    ensures r.Some? <==> id in t.talhoes
    ensures r.Some? ==> r.value in t.talhoes.Values && r.value.id == id
  {
    if id in t.talhoes then Some(t.talhoes[id]) else None
  }

  /** Every field whose parent is `propriedadeId` (the order of the list is
      not modelled). */
  function ObterPorPropriedadeId(t: Tables, propriedadeId: Guid): (r: set<Talhao>)
    ensures forall f :: f in r <==> f in t.talhoes.Values && f.propriedadeId == propriedadeId
  {
    set id | id in t.talhoes && t.talhoes[id].propriedadeId == propriedadeId :: t.talhoes[id]
  }

  class TalhaoRepository {
    const db: Database

    constructor (db: Database)
      ensures this.db == db
    {
      this.db := db;
    }

    /** Gives the row a fresh id and the creation time, then inserts it. The
        database refuses a row that does not fit its columns or whose parent
        property does not exist; then nothing is stored. */
    method Criar(talhao: Talhao, newId: Guid, now: Timestamp) returns (r: Outcome<Talhao>)
      requires db.Valid()
      requires newId !in db.talhoes
      modifies db
      ensures db.Valid()
      ensures db.propriedades == old(db.propriedades)
      ensures var row := talhao.(id := newId, dataCriacao := now);
              if TalhaoFits(row) && row.propriedadeId in old(db.propriedades)
              then r == Completed(row) && db.talhoes == old(db.talhoes)[newId := row]
              else r == Faulted(PersistenceFailed) && db.talhoes == old(db.talhoes)
    {
      var row := talhao.(id := newId, dataCriacao := now);
      if !TalhaoFits(row) || row.propriedadeId !in db.propriedades {
        return Faulted(PersistenceFailed);
      }
      db.talhoes := db.talhoes[newId := row];
      r := Completed(row);
    }

    /** Replaces the stored row with the same id. Saving fails when no such
        row exists, the row does not fit, or its parent does not exist. */
    method Atualizar(talhao: Talhao) returns (r: Outcome<Talhao>)
      requires db.Valid()
      modifies db
      ensures db.Valid()
      ensures db.propriedades == old(db.propriedades)
      ensures if talhao.id in old(db.talhoes) && TalhaoFits(talhao)
                 && talhao.propriedadeId in old(db.propriedades)
              then r == Completed(talhao) && db.talhoes == old(db.talhoes)[talhao.id := talhao]
              else r == Faulted(PersistenceFailed) && db.talhoes == old(db.talhoes)
    {
      if talhao.id !in db.talhoes || !TalhaoFits(talhao) || talhao.propriedadeId !in db.propriedades {
        return Faulted(PersistenceFailed);
      }
      db.talhoes := db.talhoes[talhao.id := talhao];
      r := Completed(talhao);
    }

    /** Deletes the field with id `id`; false and no change when absent. */
    method Excluir(id: Guid) returns (deleted: bool)
      requires db.Valid()
      modifies db
      ensures db.Valid()
      ensures deleted == (id in old(db.talhoes))
      ensures db.propriedades == old(db.propriedades)
      ensures db.talhoes == old(db.talhoes) - {id}
    {
      if id !in db.talhoes {
        return false;
      }
      db.talhoes := db.talhoes - {id};
      deleted := true;
    }
  }
}
