/** The in-memory repository unit tests, restated as methods whose postconditions are the
    tests' expectations, over the tests' stub entity. A Uuid the tests generate with
    `new Uuid()` becomes a parameter. */
module InMemoryRepositoryTests {
  import opened JsValues
  import opened Repository

  /** A Uuid value object: opaque, compared by its string. */
  datatype Uuid = Uuid(id: string)

  datatype StubEntityConstructor = StubEntityConstructor(entity_id: Optional<Uuid>, name: string, price: int)

  datatype StubEntity = StubEntity(entity_id: Uuid, name: string, price: int)

  /** What the stub's `toJSON` returns: the id as its string. */
  datatype StubJson = StubJson(entity_id: string, name: string, price: int)

  const StubEntityName: string := "StubEntity"

  /** The stub's constructor: `props.entity_id || new Uuid()`, where `generated` is the
      new Uuid. A given Uuid object is truthy and is kept. */
  function NewStubEntity(props: StubEntityConstructor, generated: Uuid): (e: StubEntity)
    ensures props.entity_id.Given? ==> e.entity_id == props.entity_id.value
    ensures !props.entity_id.Given? ==> e.entity_id == generated
    ensures e.name == props.name && e.price == props.price
  {
    StubEntity(if props.entity_id.Given? then props.entity_id.value else generated, props.name, props.price)
  }

  function StubToJSON(e: StubEntity): (j: StubJson)
    ensures j.entity_id == e.entity_id.id && j.name == e.name && j.price == e.price
  {
    StubJson(e.entity_id.id, e.name, e.price)
  }

  /** A Uuid is compared by its string, so two stub entities with equal JSON are equal:
      comparing JSON, as the update test does, compares the entities. */
  lemma StubJsonDeterminesEntity(a: StubEntity, b: StubEntity)
    requires StubToJSON(a) == StubToJSON(b)
    ensures a == b
  {
    assert a.entity_id.id == b.entity_id.id;
  }

  function StubId(e: StubEntity): Uuid
  {
    e.entity_id
  }

  /** "should insert a new entity": it is found by its id and the list holds one entity. */
  method InsertNew(id: Uuid) returns (entity: StubEntity, found: Option<StubEntity>, count: nat)
    ensures found == Some(entity) && count == 1
  {
    entity := NewStubEntity(StubEntityConstructor(Given(id), "Product 1", 100), id);
    var repo := new InMemoryRepository(StubId, StubEntityName);
    repo.Insert(entity);
    found := repo.FindById(entity.entity_id);
    count := |repo.items|;
  }

  /** "should bulk insert entities" and "should return all entities": `findAll` gives the
      inserted entities in their order, and the list holds as many. */
  method BulkInsertAll(entities: seq<StubEntity>) returns (all: seq<StubEntity>, count: nat)
    ensures all == entities && count == |entities|
  {
    var repo := new InMemoryRepository(StubId, StubEntityName);
    repo.BulkInsert(entities);
    all := repo.FindAll();
    count := |repo.items|;
  }

  /** "should throw error when entity not found": updating in an empty repository fails
      with the entity's generated id and the stub's class. */
  method UpdateMissing(generated: Uuid) returns (entity: StubEntity, r: Outcome<NotFoundError<Uuid>>)
    ensures r == Fail(NotFoundError(entity.entity_id, StubEntityName))
    ensures entity.entity_id == generated
  {
    entity := NewStubEntity(StubEntityConstructor(Undefined, "Product 1", 100), generated);
    var repo := new InMemoryRepository(StubId, StubEntityName);
    r := repo.Update(entity);
  }

  /** "should update an entity": after changing name and price and updating, `findById`
      gives an entity whose JSON is the changed one's. */
  method UpdateStored(id: Uuid) returns (changed: StubEntity, r: Outcome<NotFoundError<Uuid>>, found: Option<StubEntity>)
    ensures r == Pass
    ensures found.Some? && StubToJSON(found.value) == StubToJSON(changed)
    ensures changed.name == "Product 2" && changed.price == 200
  {
    var entity := NewStubEntity(StubEntityConstructor(Given(id), "Product 1", 100), id);
    var repo := new InMemoryRepository(StubId, StubEntityName);
    repo.Insert(entity);
    changed := entity.(name := "Product 2", price := 200);
    r := repo.Update(changed);
    found := repo.FindById(entity.entity_id);
    UpdateThenFind([entity], StubId, changed, StubEntityName, id);
  }

  /** "should throw error on delete when entity not found". */
  method DeleteMissing(id: Uuid) returns (r: Outcome<NotFoundError<Uuid>>)
    ensures r == Fail(NotFoundError(id, StubEntityName))
  {
    var repo := new InMemoryRepository(StubId, StubEntityName);
    r := repo.Delete(id);
  }

  /** "should delete an entity": the deleted id finds nothing and the list is empty. */
  method DeleteStored(id: Uuid) returns (r: Outcome<NotFoundError<Uuid>>, found: Option<StubEntity>, count: nat)
    ensures r == Pass && found == None && count == 0
  {
    var entity := NewStubEntity(StubEntityConstructor(Given(id), "Product 1", 100), id);
    var repo := new InMemoryRepository(StubId, StubEntityName);
    repo.Insert(entity);
    r := repo.Delete(entity.entity_id);
    DeleteOnly(entity, StubId, StubEntityName);
    found := repo.FindById(entity.entity_id);
    count := |repo.items|;
  }
}
