# PropertyService: ownership-scoped CRUD, modelled and verified in Dafny

PropertyService keeps producers' properties (`Propriedade`) and the fields
(`Talhao`) they are divided into. A property records its owner
(`ProdutorId`). A field records only its parent property (`PropriedadeId`),
so each access to a field finds its owner through that parent. This model
covers the following layers:

- **The store** (`application_db_context.dfy`, module `Data`). The two
  tables are maps keyed by id, held in a `Database` class. The model
  builder's constraints are a store invariant, `Consistent`. They are the
  length bounds on `Nome`, `Cultura` and `Descricao`, the decimal(18,2) area
  (kept as hundredths), and the required foreign key. `CascadeDelete` is the
  ON DELETE CASCADE from property to fields.
- **Repositories** (`propriedade_repository.dfy`, `talhao_repository.dfy`).
  The queries are pure filters over the tables. Create, update and delete are
  methods on classes that change the `Database` in place. A row that breaks a
  constraint is refused: the write ends in `Faulted(PersistenceFailed)` and
  nothing changes. A row can break a constraint by being too long, by having
  a missing parent, or by updating an id that is not stored.
- **Services** (`propriedade_service.dfy`, `talhao_service.dfy`). Each write
  checks ownership first and changes only the editable columns. It then
  publishes a change event on the `PublishEndpoint` (`publish_endpoint.dfy`).
  The broker's availability is a field that the environment sets. The
  property service swallows a publish failure. The field service lets it
  escape as `Faulted(PublishFailed)` after the write has been saved.
- **Identity resolution** (`user_context_service.dfy`,
  `claims_principal_extensions.dfy`, and `guid_text.dfy` for Guid text).
  The development bypass scheme short-circuits. Otherwise the first present
  claim of `sub`, NameIdentifier, `userId`, `produtorId` is chosen, and it
  must parse as a Guid. There is no fallback to a lower-priority claim.
- **Field controller** (`talhoes_controller.dfy`). Each action takes the
  producer id from identity resolution only, calls the service and maps the
  answer to Ok / NotFound / BadRequest / CreatedAtAction / NoContent.
- **Status consumer** (`talhao_status_consumer.dfy`). It range-checks the
  status (1..3, inclusive) before it makes one repository call.

`scenarios.dfy` replays a property's lifecycle across two owners, and the
creation of a field under an owned property and under a foreign one. Both
scenarios are verified from the contracts above alone.

Three behaviours of the code that a reader might not expect, modelled as
the code has them:
- The field service's publish is unguarded (TalhaoService.cs lines 56 and
  72), unlike the property service's, which catches and logs the failure.
- Claim resolution consults NameIdentifier second, after `sub`. It does not
  fall back to a later claim when the chosen claim fails to parse.
- The area of a field is not required to be non-negative, because no code
  checks it.

## Model

| member | source | states |
|---|---|---|
| `Data.Consistent` | src/PropertyService.Infrastructure/Data/ApplicationDbContext.cs:23-43 | defines the store invariant: each row is stored under its own id, fits its column bounds (name, crop and description lengths, decimal(18,2) area), and every field's parent property exists |
| `Data.CascadeDelete` | src/PropertyService.Infrastructure/Data/ApplicationDbContext.cs:28-31 | defines the store after deleting a property: the property and every field whose parent it is are removed |
| `Data.CascadeDeleteRemovesExactlyChildren` | src/PropertyService.Infrastructure/Data/ApplicationDbContext.cs:28-31 | deleting a property removes it and exactly the fields whose parent it is; all other properties and fields are kept unchanged |
| `Data.CascadeDeletePreservesConsistency` | src/PropertyService.Infrastructure/Data/ApplicationDbContext.cs:23-43 | the cascade keeps every store constraint, including that each remaining field's parent exists |
| `PropriedadeRepositories.ObterPorIdEProdutorId` | src/PropertyService.Infrastructure/Repositories/PropriedadeRepository.cs:24-29 | a row is returned exactly when one has both the given id and the given owner, and it is that row |
| `PropriedadeRepositories.ObterPorProdutorId` | src/PropertyService.Infrastructure/Repositories/PropriedadeRepository.cs:38-44 | returns exactly the stored properties whose owner is the given producer |
| `PropriedadeRepositories.OwnerIsolation` | src/PropertyService.Infrastructure/Repositories/PropriedadeRepository.cs:24-44 | a stored property is found by, and listed for, its owner and no other producer |
| `PropriedadeRepositories.PropriedadeRepository.Criar` | src/PropertyService.Infrastructure/Repositories/PropriedadeRepository.cs:46-55 | overwrites id with the fresh id and sets the creation time; adds exactly that one row, or faults and changes nothing if the row breaks a column bound; the field table is untouched |
| `PropriedadeRepositories.PropriedadeRepository.Atualizar` | src/PropertyService.Infrastructure/Repositories/PropriedadeRepository.cs:57-63 | replaces only the row with the same id; faults and changes nothing if that id is absent or the row does not fit |
| `PropriedadeRepositories.PropriedadeRepository.Excluir` | src/PropertyService.Infrastructure/Repositories/PropriedadeRepository.cs:65-75 | false and no change for an absent id; otherwise true, and the store becomes the cascade delete of the old store |
| `TalhaoRepositories.ObterPorId` | src/PropertyService.Infrastructure/Repositories/TalhaoRepository.cs:17-21 | returns the field with that id, or None exactly when there is none |
| `TalhaoRepositories.ObterPorPropriedadeId` | src/PropertyService.Infrastructure/Repositories/TalhaoRepository.cs:23-28 | returns exactly the stored fields whose parent is the given property |
| `TalhaoRepositories.TalhaoRepository.Criar` | src/PropertyService.Infrastructure/Repositories/TalhaoRepository.cs:30-42 | assigns the fresh id and creation time and adds exactly one row; faults and changes nothing on a bound or foreign-key violation |
| `TalhaoRepositories.TalhaoRepository.Atualizar` | src/PropertyService.Infrastructure/Repositories/TalhaoRepository.cs:44-50 | replaces only the row with the matching id; faults and changes nothing if that id is absent, the row does not fit, or its parent is missing |
| `TalhaoRepositories.TalhaoRepository.Excluir` | src/PropertyService.Infrastructure/Repositories/TalhaoRepository.cs:52-62 | false and no change for an absent id; otherwise true, and only that row is removed |
| `Messaging.PublishEndpoint.Publish` | src/PropertyService.Application/Services/TalhaoService.cs:56 | appends the event exactly when the broker is available, and reports that as its result |
| `PropriedadeServices.ObterPorId` | src/PropertyService.Application/Services/PropriedadeService.cs:22-23 | present exactly when the property exists and is owned by the caller; "missing" and "someone else's" are indistinguishable |
| `PropriedadeServices.ObterPorProdutorId` | src/PropertyService.Application/Services/PropriedadeService.cs:25-26 | every returned property is the caller's, and every property the caller owns is returned |
| `PropriedadeServices.PropriedadeService.Criar` | src/PropertyService.Application/Services/PropriedadeService.cs:28-47 | persists exactly one row with the given owner, name and description under the fresh id; returns it whether or not the event is delivered (the failure is swallowed); an event `(Id, Nome, ProdutorId)` is appended only when delivered |
| `PropriedadeServices.PropriedadeService.Atualizar` | src/PropertyService.Application/Services/PropriedadeService.cs:49-68 | missing or not owned: None and no change at all; otherwise only name and description change (id, owner and creation time kept); a publish failure is swallowed |
| `PropriedadeServices.PropriedadeService.Excluir` | src/PropertyService.Application/Services/PropriedadeService.cs:70-74 | true exactly when the caller owns the property; then the property and its fields are deleted, and otherwise nothing changes |
| `TalhaoServices.ObterPorIdEProdutorId` | src/PropertyService.Application/Services/TalhaoService.cs:21-29 | present exactly when the field exists and its parent property is owned by the caller, and it is the stored field |
| `TalhaoServices.ObterPorPropriedadeIdEProdutorId` | src/PropertyService.Application/Services/TalhaoService.cs:31-38 | empty when the property is missing or not owned; otherwise exactly the fields whose parent is that property |
| `TalhaoServices.DeletedPropertyHidesItsFields` | src/PropertyService.Application/Services/TalhaoService.cs:21-38 | after a property is deleted, none of its former fields can be read by any producer, and its field list is empty |
| `TalhaoServices.FieldOwnerIsolation` | src/PropertyService.Application/Services/TalhaoService.cs:21-29 | a field is visible to the owner of its parent property and to no one else |
| `TalhaoServices.TalhaoService.Criar` | src/PropertyService.Application/Services/TalhaoService.cs:40-58 | parent not owned: None, no write, no event; otherwise exactly one field with the given parent, name, crop, description and area is stored; the event `(Id, Nome, PropriedadeId)` follows the write; a publish failure escapes as a fault while the field stays stored |
| `TalhaoServices.TalhaoService.Atualizar` | src/PropertyService.Application/Services/TalhaoService.cs:60-74 | ownership is re-derived through the parent, and without it nothing is written; only name, crop, description and area change (id, parent and creation time kept); the publish is unguarded, as in Criar |
| `TalhaoServices.TalhaoService.Excluir` | src/PropertyService.Application/Services/TalhaoService.cs:76-80 | true exactly when the caller owns the field through its parent; then only that field is removed, and otherwise nothing changes |
| `GuidText.ParseGuid` | src/PropertyService.Api/Services/UserContextService.cs:37 | a parsed Guid is below 2^128, and only 36-character text with hyphens at positions 8, 13, 18 and 23 parses |
| `GuidText.FormatGuid` | tests/Services/UserContextServiceTests.cs:35 | Guid.ToString(): 36 characters, in the 8-4-4-4-12 form with lower-case hex digits |
| `GuidText.ParseFormatRoundTrip` | tests/Services/UserContextServiceTests.cs:30-50 | the text Guid.ToString writes for any Guid parses back to that Guid |
| `GuidText.FormatParseRoundTrip` | src/PropertyService.Api/Services/UserContextService.cs:37 | the other direction: any text that parses is the text of the Guid it parses to, up to the case of its hex letters |
| `UserContext.FindFirst` | src/PropertyService.Api/Services/UserContextService.cs:32 | a returned claim is in the list and has the requested type; None only when no claim has that type |
| `UserContext.FindFirstIsEarliest` | src/PropertyService.Api/Services/UserContextService.cs:32-35 | FindFirst returns the earliest claim of the requested type |
| `UserContext.SelectClaim` | src/PropertyService.Api/Services/UserContextService.cs:32-35 | None exactly when none of `sub`, NameIdentifier, `userId`, `produtorId` is present; otherwise the first claim of the highest-priority type that is present |
| `UserContext.SelectClaimPicks` | src/PropertyService.Api/Services/UserContextService.cs:32-35 | a claim of priority type k is the one chosen when no claim before it has that type or a higher one and no claim after it has a higher one, whatever lower-priority claims surround it |
| `UserContext.IsBypass` | src/PropertyService.Api/Services/UserContextService.cs:26 | defines the bypass test: the identity's authentication type is exactly the bypass scheme's name (ordinal comparison) |
| `UserContext.GetProdutorId` | src/PropertyService.Api/Services/UserContextService.cs:20-41 | no user: "Usuário não autenticado."; every failure carries one of the two messages; outside the bypass, resolution succeeds exactly when the claim the chain selects parses, and the id is that claim's parse (no fallback) |
| `UserContext.IsAuthenticated` | src/PropertyService.Api/Services/UserContextService.cs:18 | true exactly when there is an HTTP context whose user has an identity with a non-empty authentication type |
| `UserContext.BypassIgnoresClaims` | src/PropertyService.Api/Services/UserContextService.cs:26-30 | under the bypass scheme the fixed development producer is returned, whatever the claims |
| `UserContext.NoPriorityClaimFails` | src/PropertyService.Api/Services/UserContextService.cs:37-38 | with none of the four claim types present, resolution fails with "UserId não encontrado no token." |
| `UserContext.UnparsableClaimHasNoFallback` | src/PropertyService.Api/Services/UserContextService.cs:32-38 | when the selected claim (any of the four types, any position) does not parse, resolution fails with "UserId não encontrado no token." even if lower-priority claims hold valid Guids |
| `UserContext.ClaimOfGuidResolves` | src/PropertyService.Api/Services/UserContextService.cs:32-40 | a claim of any of the four types that holds a Guid's text resolves to that Guid when no claim of a higher-priority type is present and none of its own type comes before it |
| `ClaimsPrincipalExtensions.GetProdutorId` | src/PropertyService.Api/Extensions/ClaimsPrincipalExtensions.cs:7-17 | None when none of the four claim types is present; a result is a valid Guid |
| `ClaimsPrincipalExtensions.AgreesWithUserContext` | src/PropertyService.Api/Extensions/ClaimsPrincipalExtensions.cs:9-16 | outside the bypass scheme: Some(g) exactly when UserContextService resolves g, and None exactly when it throws |
| `ClaimsPrincipalExtensions.UnparsableClaimGivesNone` | src/PropertyService.Api/Extensions/ClaimsPrincipalExtensions.cs:9-16 | when the selected claim does not parse the result is None, with no fallback to lower-priority claims |
| `TalhoesControllers.OkOrNotFound` | src/PropertyService.Api/Controllers/TalhoesController.cs:22 | NotFound exactly for no field, Ok carrying the field otherwise (the same mapping ends PUT, line 59) |
| `TalhoesControllers.ObterPorPropriedadeIdResult` | src/PropertyService.Api/Controllers/TalhoesController.cs:29 | always Ok, carrying exactly the service's (possibly empty) collection |
| `TalhoesControllers.CriarResult` | src/PropertyService.Api/Controllers/TalhoesController.cs:43-45 | BadRequest with "Propriedade não encontrada ou não pertence ao produtor." exactly for no field; otherwise Created pointing at ObterPorId with the new id |
| `TalhoesControllers.ExcluirResult` | src/PropertyService.Api/Controllers/TalhoesController.cs:66 | NoContent exactly on success, NotFound otherwise |
| `TalhoesControllers.NotFoundHidesOtherOwners` | src/PropertyService.Api/Controllers/TalhoesController.cs:19-23 | GET of a missing field and of another producer's field give the same NotFound |
| `TalhoesControllers.TalhoesController.ObterPorId` | src/PropertyService.Api/Controllers/TalhoesController.cs:19-23 | a failed identity resolution escapes; otherwise, with the resolved producer as owner, Ok with the field exactly when the caller owns it, else NotFound |
| `TalhoesControllers.TalhoesController.ObterPorPropriedadeId` | src/PropertyService.Api/Controllers/TalhoesController.cs:26-30 | with the resolved producer as owner: always Ok, with that property's fields only if the caller owns it |
| `TalhoesControllers.TalhoesController.Criar` | src/PropertyService.Api/Controllers/TalhoesController.cs:33-46 | the owner is the resolved producer; BadRequest, no write and no event when the property is not theirs; otherwise the field is stored if it fits, its event `(Id, Nome, PropriedadeId)` is appended exactly when it is stored and the broker is available, and the answer is Created, or the persistence or publish fault escapes |
| `TalhoesControllers.TalhoesController.Atualizar` | src/PropertyService.Api/Controllers/TalhoesController.cs:49-60 | the owner is the resolved producer; NotFound, no write and no event without ownership; otherwise only the four editable columns change, the event is appended exactly when the row fits and the broker is available, and the answer is Ok with the updated field, or the fault escapes |
| `TalhoesControllers.TalhoesController.Excluir` | src/PropertyService.Api/Controllers/TalhoesController.cs:63-67 | the owner is the resolved producer; NoContent and the field removed exactly when owned, else NotFound and nothing removed |
| `TalhaoStatusConsumers.IsValidStatus` | src/PropertyService.Api/Consumers/TalhaoStatusConsumer.cs:14 | defines the accepted status: not below 1 and not above 3 |
| `TalhaoStatusConsumers.ValidStatusesAreOneToThree` | src/PropertyService.Api/Consumers/TalhaoStatusConsumer.cs:14 | the range check accepts exactly 1, 2 and 3 |
| `TalhaoStatusConsumers.StatusUpdater.AtualizarStatus` | src/PropertyService.Api/Consumers/TalhaoStatusConsumer.cs:20 | records one call and reports whether the field is known |
| `TalhaoStatusConsumers.TalhaoStatusConsumer.Consume` | src/PropertyService.Api/Consumers/TalhaoStatusConsumer.cs:11-25 | an out-of-range status makes no repository call; a valid one makes exactly one `AtualizarStatus(TalhaoId, status)` call; "not found" only selects the log entry and consumption completes |

## Left out

- GuidText.ParseGuid: accepts only the 8-4-4-4-12 hyphenated form. Guid.TryParse also accepts the 32-digit, braced, parenthesised and hexadecimal-structure forms and surrounding white space; the model reads these as unparsable.
- UserContext.FindFirst: claim types are compared with ASCII case folding. The ordinal ignore-case comparison on non-ASCII letters is not modelled.
- PropriedadeRepositories.ObterPorProdutorId: returns a set. The order of the list the database returns is not modelled.
- TalhaoRepositories.ObterPorPropriedadeId: returns a set, for the same reason.
- `PropriedadeRepository.ObterPorIdAsync` and `ObterTodasAsync` are not modelled. The current services do not call them.
- `Include(p => p.Talhoes)` navigation loading and the nulling of the `Propriedade` navigation after a field is created are not modelled. Both are ORM mechanics, and rows here are plain values.
- In-place mutation of a tracked entity is modelled by building the updated record. The entity being shared with the change tracker (aliasing) is not modelled.
- `Guid.NewGuid()` and `DateTime.UtcNow` are the `newId` and `now` parameters. The id must be absent from its table.
- DevelopmentBypassConstants is not part of this model. Its scheme name and development producer id are the `BypassConstants` parameter.
- `AtualizarStatusAsync` is not declared in the repository interface, so its effect on a field is unknown. `StatusUpdater` only records the calls and answers whether the field is known.
- The HTTP status that an escaped exception becomes is not modelled. Unauthorized access, persistence faults and publish faults are reported as `Threw`, because no handler for them is visible.
- `PropriedadesController` is not modelled. It calls service methods the current `PropriedadeService` no longer has.
- `IPropriedadeRepository` is stale. The repository is modelled from its class.
- The ManagementService snapshot, Program.cs wiring, JWT validation and Swagger configuration, migrations, and the development bypass handler are not modelled. They are configuration and framework setup.
- Logging is a side effect only and is not modelled. The status consumer's log entry is returned as a value.
- async/await, concurrency (last writer wins), HTTP transport and broker semantics are not modelled. A publish either delivers or fails.
- PostgreSQL's rounding of extra decimal places in the area is not modelled. Areas are given in hundredths.
- Length bounds count characters. The difference between UTF-16 units and code points is not modelled.
