/** The relational store: the Propriedades and Talhoes tables and the
    constraints the model builder declares on them (column bounds, required
    foreign key, cascade on delete). A row that breaks a constraint is
    refused by the database, so the constraints hold of every stored state. */
module Data {
  import opened Domain

  const NomeMaxLength: nat := 200
  const CulturaMaxLength: nat := 200
  const DescricaoMaxLength: nat := 1000
  /** decimal(18, 2): at most 18 digits, 2 of them after the point, so at
      most 10^18 - 1 hundredths in absolute value. */
  const AreaMaxHundredths: nat := 999_999_999_999_999_999

  predicate DescricaoFits(descricao: Option<string>) {
    descricao.None? || |descricao.value| <= DescricaoMaxLength
  }

  /** Column bounds of a property row. */
  predicate PropriedadeFits(p: Propriedade) {
    |p.nome| <= NomeMaxLength && DescricaoFits(p.descricao)
  }

  /** Column bounds of a field row. */
  predicate TalhaoFits(t: Talhao) {
    && |t.nome| <= NomeMaxLength
    && |t.cultura| <= CulturaMaxLength
    && DescricaoFits(t.descricao)
    && (t.areaHectares.None? || 0 - (AreaMaxHundredths as int) <= t.areaHectares.value <= AreaMaxHundredths)
  }

  /** The two tables, keyed by primary key. */
  datatype Tables = Tables(propriedades: map<Guid, Propriedade>, talhoes: map<Guid, Talhao>)

  /** Every state the database can be in: each row is stored under its own
      id and fits its columns, and every field's parent exists. */
  ghost predicate Consistent(t: Tables) {
    && (forall id | id in t.propriedades ::
          t.propriedades[id].id == id && PropriedadeFits(t.propriedades[id]))
    && (forall id | id in t.talhoes ::
          && t.talhoes[id].id == id
          && TalhaoFits(t.talhoes[id])
          && t.talhoes[id].propriedadeId in t.propriedades)
  }

  /** The property `id` exists and belongs to `produtorId`. */
  predicate Owns(t: Tables, produtorId: Guid, id: Guid) {
    id in t.propriedades && t.propriedades[id].produtorId == produtorId
  }

  /** The field `id` exists and its parent property belongs to `produtorId`. */
  predicate OwnsTalhao(t: Tables, produtorId: Guid, id: Guid) {
    id in t.talhoes && Owns(t, produtorId, t.talhoes[id].propriedadeId)
  }

  /** Removing property `id`: the foreign key's ON DELETE CASCADE takes every
      field whose parent it is along with it. */
  function CascadeDelete(t: Tables, id: Guid): Tables {
    Tables(t.propriedades - {id},
           map k | k in t.talhoes && t.talhoes[k].propriedadeId != id :: t.talhoes[k])
  }

  /** After a cascade no field points at the deleted property, and a field
      survives exactly when its parent was some other property. */
  lemma {:induction false} CascadeDeleteRemovesExactlyChildren(t: Tables, id: Guid)
    ensures id !in CascadeDelete(t, id).propriedades
    ensures forall k :: k in CascadeDelete(t, id).talhoes <==>
                          k in t.talhoes && t.talhoes[k].propriedadeId != id
    ensures forall k | k in CascadeDelete(t, id).talhoes ::
              CascadeDelete(t, id).talhoes[k] == t.talhoes[k]
    ensures forall k | k in t.propriedades && k != id ::
              k in CascadeDelete(t, id).propriedades &&
              CascadeDelete(t, id).propriedades[k] == t.propriedades[k]
  {
  }

  /** The cascade keeps the store consistent: the foreign key of every
      surviving field still resolves. */
  lemma {:induction false} CascadeDeletePreservesConsistency(t: Tables, id: Guid)
    requires Consistent(t)
    ensures Consistent(CascadeDelete(t, id))
  {
    var r := CascadeDelete(t, id);
    forall k | k in r.talhoes
      ensures r.talhoes[k].propriedadeId in r.propriedades
    {
      assert r.talhoes[k] == t.talhoes[k];
    }
  }

  /** The database of one request scope (ApplicationDbContext). */
  class Database {
    var propriedades: map<Guid, Propriedade>
    var talhoes: map<Guid, Talhao>

    constructor ()
      ensures Valid()
      ensures propriedades == map[] && talhoes == map[]
    {
      propriedades := map[];
      talhoes := map[];
    }

    function State(): Tables
      reads this
    {
      Tables(propriedades, talhoes)
    }

    ghost predicate Valid()
      reads this
    {
      Consistent(State())
    }
  }
}
