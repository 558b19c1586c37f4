# Category domain slice, modelled in Dafny

This project models the core of a small domain-driven-design slice of a video
catalogue administration back end:

- the **Category entity**, a mutable record of five fields (`categoryId`, `name`,
  `description`, `is_active`, `createdAt`) whose constructor fills in defaults with
  `??`, a static `create`, four mutators that each set one field, and `toJSON`;
- the **in-memory repository** `InMemoryRepository<E, Id>`, an ordered `items` list with
  `insert`, `bulkInsert`, `findById`, `findAll`, `update` and `delete`, where `update`
  and `delete` fail with `NotFoundError(id, EntityClass)` for an identifier that is not
  stored, and `findById` answers null instead;
- **`EntityValidationError`**, an error value over a field-to-messages map whose
  `count()` is the number of fields.

Files and modules:

| file | module | what it holds |
|---|---|---|
| `js_values.dfy` | `JsValues` | `Optional<T>` (`undefined`, `null` or a value) and the `??` operator |
| `category_entity.dfy` | `CategoryEntity` | the `Category` class, the constructor's field values `Initial`, and lemmas about defaults, `create` and `toJSON` |
| `category_entity_tests.dfy` | `CategoryEntityTests` | the entity's unit tests as methods whose postconditions are the expectations |
| `validation_error.dfy` | `ValidationError` | `EntityValidationError`, its constructor defaults and `Count` |
| `in_memory_repository.dfy` | `Repository` | the `InMemoryRepository` class, the pure functions its methods are proved against (`IndexOf`, `Lookup`, `Updated`, `Deleted`) and the lemmas about them |
| `in_memory_repository_tests.dfy` | `InMemoryRepositoryTests` | the stub entity, an opaque `Uuid`, and the repository's unit tests as methods |

The Category class is specified through its `ToJSON()` snapshot: every mutator's
postcondition gives the new snapshot as the old one with exactly one field replaced,
which is the "sets one field, nothing else changes" behaviour. The repository class is
specified through pure functions of its `items`: `Insert` and `BulkInsert` append,
`FindById` equals `Lookup` (first entity with the identifier, or null), and `Update`
and `Delete` leave `items` as `Updated`/`Deleted` give it or fail with the not-found
error and leave `items` untouched. The lemmas about those functions state what the
tests pin down: an inserted entity is found, a failed update or delete names the
identifier and the entity class, an updated entity is what its identifier then finds,
a deleted identifier is found no more, and other identifiers are unaffected.

The entity follows the code of `src/category/domain/category.entity.ts`, which does no
validation and generates no id: `categoryId` is copied as given and stays `undefined`
when it is left out, every operation is total, and nothing constrains `name`. The tests
(`category.entity.spec.ts` lines 11, 27, 41, 54, 67) expect the id to be undefined.

## Model

| member | source | states |
|---|---|---|
| `CategoryEntity.Initial` | src/category/domain/category.entity.ts:22-28 | the constructor's fields: the description it assigns is never undefined: it is a string or null |
| `CategoryEntity.ConstructorDefaults` | src/category/domain/category.entity.ts:25-27 | a left-out or null description becomes null, a left-out or null `is_active` becomes true, a left-out `createdAt` becomes the clock reading |
| `CategoryEntity.ConstructorKeepsGiven` | src/category/domain/category.entity.ts:23-27 | `categoryId` is copied verbatim (absent stays absent), the name is kept, and a given description, `is_active` (also `false`) and timestamp are kept |
| `CategoryEntity.CreateAgreesWithConstructor` | src/category/domain/category.entity.ts:30-32 | `create` gives the constructor's name, description and active flag for the same fields, with no id and the clock's timestamp |
| `CategoryEntity.JsonRebuildsCategory` | src/category/domain/category.entity.ts:50-58 | the `toJSON` snapshot holds all five fields: passing it back to the constructor rebuilds an equal entity |
| `CategoryEntity.Category.constructor` | src/category/domain/category.entity.ts:22-28 | the new entity's snapshot is `Initial(params, now)` and its description is a string or null |
| `CategoryEntity.Category.Create` | src/category/domain/category.entity.ts:30-32 | returns a new entity built from the command with no id and no timestamp given |
| `CategoryEntity.Category.ChangeName` | src/category/domain/category.entity.ts:34-36 | the name becomes the argument, the other four fields are unchanged, and the description stays a string or null |
| `CategoryEntity.Category.ChangeDescription` | src/category/domain/category.entity.ts:38-40 | the description becomes the given string and the other four fields are unchanged |
| `CategoryEntity.Category.Activate` | src/category/domain/category.entity.ts:42-44 | `is_active` becomes true and nothing else changes, so the description stays a string or null; no precondition, so it never fails |
| `CategoryEntity.Category.Deactivate` | src/category/domain/category.entity.ts:46-48 | `is_active` becomes false and nothing else changes, so the description stays a string or null; no precondition, so it never fails |
| `CategoryEntity.Category.ToJSON` | src/category/domain/category.entity.ts:50-58 | the five current fields as a plain record; reads only, changes nothing |
| `CategoryEntityTests.ConstructWithDefaults` | src/category/domain/__tests__/category.entity.spec.ts:5-16 | name only: id undefined, name kept, description null, active, the given timestamp |
| `CategoryEntityTests.ConstructWithDescription` | src/category/domain/__tests__/category.entity.spec.ts:18-32 | all fields given: each kept, `is_active = false` included, the identical timestamp |
| `CategoryEntityTests.CreateCommands` | src/category/domain/__tests__/category.entity.spec.ts:35-73 | the three `create` tests: id undefined, defaults for what is left out, `false` kept |
| `CategoryEntityTests.ChangeKeyValues` | src/category/domain/__tests__/category.entity.spec.ts:75-115 | rename, redescribe, deactivate and activate give the expected field values |
| `CategoryEntityTests.ActivateTwice` | src/category/domain/category.entity.ts:42-44 | activating twice has the effect of activating once |
| `CategoryEntityTests.DeactivateTwice` | src/category/domain/category.entity.ts:46-48 | deactivating twice has the effect of deactivating once |
| `ValidationError.NewEntityValidationError` | src/shared/domain/validators/validation-error.ts:4-7 | the map is stored as given, a left-out message becomes `Validation error`, the name is `EntityValidationError` |
| `ValidationError.Count` | src/shared/domain/validators/validation-error.ts:9-11 | the count is zero exactly when the map is empty, and at least one when any field is present |
| `ValidationError.CountWithField` | src/shared/domain/validators/validation-error.ts:9-11 | the count is the number of distinct fields: a new field adds one, more messages for a present field add nothing |
| `ValidationError.CountWithoutField` | src/shared/domain/validators/validation-error.ts:9-11 | removing a present field lowers the count by one, removing an absent one changes nothing |
| `ValidationError.CountIgnoresMessages` | src/shared/domain/validators/validation-error.ts:9-11 | two errors with the same fields have the same count, whatever their messages |
| `Repository.IndexOf` | src/shared/infra/db/in-memory/__tests__/in-memory.repository.spec.ts:55 | the position found is the first one carrying the identifier, or -1 when none does |
| `Repository.Lookup` | src/shared/infra/db/in-memory/__tests__/in-memory.repository.spec.ts:149-151 | finds an entity exactly when the identifier is stored, one that carries it and is stored; null otherwise, never an error |
| `Repository.Updated` | src/shared/infra/db/in-memory/__tests__/in-memory.repository.spec.ts:104-111 | fails exactly when the identifier is not stored, with `NotFoundError(id, entity class)`; otherwise the list keeps its length |
| `Repository.Deleted` | src/shared/infra/db/in-memory/__tests__/in-memory.repository.spec.ts:132-136 | fails exactly when the identifier is not stored, with `NotFoundError(id, entity class)`; otherwise the list is one shorter |
| `Repository.InsertThenFind` | src/shared/infra/db/in-memory/__tests__/in-memory.repository.spec.ts:46-59 | after inserting an entity whose identifier was not stored, `findById` of that identifier gives it |
| `Repository.InsertKeepsLookup` | src/shared/infra/db/in-memory/__tests__/in-memory.repository.spec.ts:46-59 | inserting never changes what an already stored identifier finds |
| `Repository.UpdateThenFind` | src/shared/infra/db/in-memory/__tests__/in-memory.repository.spec.ts:113-130 | after a successful update the new entity is what its identifier finds, and other identifiers find what they found before |
| `Repository.UpdateKeepsUniqueIds` | src/shared/infra/db/in-memory/__tests__/in-memory.repository.spec.ts:113-130 | an update keeps identifiers unique |
| `Repository.DeleteThenFind` | src/shared/infra/db/in-memory/__tests__/in-memory.repository.spec.ts:138-153 | with unique identifiers, a deleted identifier finds null afterwards and other identifiers find what they found before |
| `Repository.DeleteKeepsUniqueIds` | src/shared/infra/db/in-memory/__tests__/in-memory.repository.spec.ts:138-153 | a delete keeps identifiers unique |
| `Repository.InsertKeepsUniqueIds` | src/shared/infra/db/in-memory/__tests__/in-memory.repository.spec.ts:46-59 | inserting an entity whose identifier is not stored keeps identifiers unique |
| `Repository.DeleteOnly` | src/shared/infra/db/in-memory/__tests__/in-memory.repository.spec.ts:145-152 | deleting the only stored entity succeeds and leaves the list empty |
| `Repository.InMemoryRepository.constructor` | src/shared/infra/db/in-memory/__tests__/in-memory.repository.spec.ts:42-44 | a new repository holds no items and carries the entity class's name for its errors |
| `Repository.InMemoryRepository.Insert` | src/shared/infra/db/in-memory/__tests__/in-memory.repository.spec.ts:53-58 | `items` becomes the old list with the entity appended |
| `Repository.InMemoryRepository.BulkInsert` | src/shared/infra/db/in-memory/__tests__/in-memory.repository.spec.ts:75-80 | `items` becomes the old list followed by the given entities in their order |
| `Repository.InMemoryRepository.FindIndex` | src/shared/infra/db/in-memory/__tests__/in-memory.repository.spec.ts:55 | the linear search gives `IndexOf`: the first position carrying the identifier, or -1 |
| `Repository.InMemoryRepository.FindById` | src/shared/infra/db/in-memory/__tests__/in-memory.repository.spec.ts:55-57 | answers `Lookup`: the first entity with the identifier, or null; changes nothing |
| `Repository.InMemoryRepository.FindAll` | src/shared/infra/db/in-memory/__tests__/in-memory.repository.spec.ts:77-79 | answers the whole `items` list in order; changes nothing |
| `Repository.InMemoryRepository.Update` | src/shared/infra/db/in-memory/__tests__/in-memory.repository.spec.ts:104-130 | fails with the not-found error and leaves `items` alone when the identifier is absent; otherwise `items` is `Updated` |
| `Repository.InMemoryRepository.Delete` | src/shared/infra/db/in-memory/__tests__/in-memory.repository.spec.ts:132-153 | fails with the not-found error and leaves `items` alone when the identifier is absent; otherwise `items` is `Deleted` |
| `InMemoryRepositoryTests.NewStubEntity` | src/shared/infra/db/in-memory/__tests__/in-memory.repository.spec.ts:17-22 | a given `entity_id` is kept, a left-out one is the newly generated Uuid; name and price are kept |
| `InMemoryRepositoryTests.StubToJSON` | src/shared/infra/db/in-memory/__tests__/in-memory.repository.spec.ts:24-30 | the stub's id as its string, with its name and price |
| `InMemoryRepositoryTests.StubJsonDeterminesEntity` | src/shared/infra/db/in-memory/__tests__/in-memory.repository.spec.ts:129 | two stub entities with equal JSON are equal, so the update test's JSON comparison compares the entities |
| `InMemoryRepositoryTests.InsertNew` | src/shared/infra/db/in-memory/__tests__/in-memory.repository.spec.ts:46-59 | insert into an empty repository: `findById` gives the entity and `items` has length 1 |
| `InMemoryRepositoryTests.BulkInsertAll` | src/shared/infra/db/in-memory/__tests__/in-memory.repository.spec.ts:61-102 | bulk insert into an empty repository: `findAll` gives the entities in order, `items` has as many |
| `InMemoryRepositoryTests.UpdateMissing` | src/shared/infra/db/in-memory/__tests__/in-memory.repository.spec.ts:104-111 | updating in an empty repository fails with `NotFoundError(generated id, StubEntity)` |
| `InMemoryRepositoryTests.UpdateStored` | src/shared/infra/db/in-memory/__tests__/in-memory.repository.spec.ts:113-130 | after changing name and price and updating, `findById` gives an entity with the changed JSON |
| `InMemoryRepositoryTests.DeleteMissing` | src/shared/infra/db/in-memory/__tests__/in-memory.repository.spec.ts:132-136 | deleting in an empty repository fails with `NotFoundError(id, StubEntity)` |
| `InMemoryRepositoryTests.DeleteStored` | src/shared/infra/db/in-memory/__tests__/in-memory.repository.spec.ts:138-153 | deleting the only entity succeeds, `findById` then gives null and `items` is empty |

## Left out

- `src/shared/infra/db/in-memory/in-memory.repository.ts` is not part of this model. The repository is modelled from the behaviour its tests assert: insert appends, lookups take the first entity with the identifier, update replaces that entity where it stands, delete removes it. No lemma promises the position of an updated record or the order after deleting one of several; the tests do not pin them down.
- Duplicate identifiers: inserting an identifier that is already stored appends a second entity; what the original does then is not pinned down by its tests, and no lemma states anything about it.
- Entities are values. In the original, `insert` stores the caller's object, and the update test (`in-memory.repository.spec.ts` lines 120-125) mutates that same object before calling `update`, so the stored entity already carries the change; the model has no aliasing, so the change reaches the repository only through `Update`.
- The Promise wrapping of the repository methods: the model's methods are synchronous.
- `getEntity()` and `NotFoundError`'s message text: the error carries the identifier and the entity class's name only; the error class is not part of this model.
- The Uuid value object: its format check and random generation are delegated to the `uuid` package. Ids are an opaque value compared by their string; a generated Uuid is a parameter. The spy call counts of its tests are not modelled.
- The `new Date()` default reads the clock: the constructor takes the reading as a parameter `now`, and a `Date` is its millisecond value.
- The stub entity's `price` is a JavaScript number (floating point); the model uses an integer.
- `src/category/domain/category.repository.ts` only names an interface, which is not part of this model.
- `src/shared/infra/testing/assertion-helpers.ts` registers test matchers and has no domain behaviour.
- Field validation of a Category (name length, types) and id generation: the entity's code has neither, so the model has neither.
- `FieldsErrors` (`validator-fields-interface`) is not part of this model; it is taken to be a map from field name to a list of messages.
