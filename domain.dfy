/** Entities of the property service: a property (Propriedade) owned by a
    producer, the fields (Talhao) it is divided into, and the change events
    published about them. Rows are values; the store keeps them in maps. */
module Domain {

  datatype Option<+T> = None | Some(value: T)

  /** Opaque unique identifier (a Guid, read as its 128-bit number). */
  type Guid = nat

  /** Server-side creation instant (DateTime.UtcNow at insertion). */
  type Timestamp = nat

  /** A land holding; `produtorId` is its owner. */
  datatype Propriedade = Propriedade(
    id: Guid,
    produtorId: Guid,
    nome: string,
    descricao: Option<string>,
    dataCriacao: Timestamp)

  /** A subdivision of a property. It carries no owner of its own: its owner
      is the owner of the property `propriedadeId` points at. `areaHectares`
      is a decimal with two fractional digits, kept as a count of hundredths. */
  datatype Talhao = Talhao(
    id: Guid,
    propriedadeId: Guid,
    nome: string,
    cultura: string,
    descricao: Option<string>,
    areaHectares: Option<int>,
    dataCriacao: Timestamp)

  /** Change notifications: PropriedadeDataMessage(Id, Nome, ProdutorId) and
      TalhaoDataMessage(Id, Nome, PropriedadeId). */
  datatype Event =
    | PropriedadeData(propriedadeId: Guid, nome: string, produtorId: Guid)
    | TalhaoData(talhaoId: Guid, nome: string, parentId: Guid)

  /** An exception that escapes an operation. */
  datatype Fault =
    | PersistenceFailed  // SaveChanges rejected the write
    | PublishFailed      // the message broker refused the event

  /** How an operation ends: it returns a value, or a fault propagates. */
  datatype Outcome<+T> = Completed(value: T) | Faulted(fault: Fault)
}
