/** The in-memory repository: an ordered list of entities keyed by an identifier with
    value equality. `update` and `delete` fail with a not-found error when no stored
    entity has the identifier; `findById` answers null instead of failing. */
module Repository {

  /** `E | null`, as `findById` answers. */
  datatype Option<T> = None | Some(value: T)

  /** A call that either completes or fails with an error. */
  datatype Outcome<Err> = Pass | Fail(error: Err)

  /** The new list, or the error the call fails with. */
  datatype Result<T, Err> = Success(value: T) | Failure(error: Err)

  /** `NotFoundError(id, EntityClass)`: the identifier and the name of the entity class. */
  datatype NotFoundError<Id> = NotFoundError(id: Id, entityName: string)

  /** Some stored entity has identifier `id`. */
  predicate Stored<E, Id(==)>(items: seq<E>, idOf: E -> Id, id: Id)
  {
    exists i :: 0 <= i < |items| && idOf(items[i]) == id
  }

  /** No two stored entities share an identifier. */
  predicate UniqueIds<E, Id(==)>(items: seq<E>, idOf: E -> Id)
  {
    forall i, j :: 0 <= i < j < |items| ==> idOf(items[i]) != idOf(items[j])
  }

  /** The position of the first entity with identifier `id`, or -1 when there is none. */
  function IndexOf<E, Id(==)>(items: seq<E>, idOf: E -> Id, id: Id): (i: int)
    ensures -1 <= i < |items|
    ensures i >= 0 ==> idOf(items[i]) == id
    ensures forall j :: 0 <= j < |items| && (i < 0 || j < i) ==> idOf(items[j]) != id
    decreases |items|
  {
    if |items| == 0 then -1
    else if idOf(items[0]) == id then 0
    else
      var k := IndexOf(items[1..], idOf, id);
      if k < 0 then -1 else k + 1
  }

  /** `findById`: the first entity with identifier `id`, or null. */
  function Lookup<E, Id(==)>(items: seq<E>, idOf: E -> Id, id: Id): (r: Option<E>)
    ensures r.Some? <==> Stored(items, idOf, id)
    ensures r.Some? ==> idOf(r.value) == id
    ensures r.Some? ==> exists i :: 0 <= i < |items| && items[i] == r.value
  {
    var i := IndexOf(items, idOf, id);
    if i < 0 then None else Some(items[i])
  }

  /** `update`: the first entity with the new entity's identifier is replaced by it. */
  function Updated<E, Id(==)>(items: seq<E>, idOf: E -> Id, entity: E, entityName: string)
    : (r: Result<seq<E>, NotFoundError<Id>>)
    ensures r.Failure? <==> !Stored(items, idOf, idOf(entity))
    ensures r.Failure? ==> r.error == NotFoundError(idOf(entity), entityName)
    ensures r.Success? ==> |r.value| == |items|
  {
    var i := IndexOf(items, idOf, idOf(entity));
    if i < 0 then Failure(NotFoundError(idOf(entity), entityName))
    else Success(items[i := entity])
  }

  /** `delete`: the first entity with identifier `id` is removed. */
  function Deleted<E, Id(==)>(items: seq<E>, idOf: E -> Id, id: Id, entityName: string)
    : (r: Result<seq<E>, NotFoundError<Id>>)
    ensures r.Failure? <==> !Stored(items, idOf, id)
    ensures r.Failure? ==> r.error == NotFoundError(id, entityName)
    ensures r.Success? ==> |r.value| == |items| - 1
  {
    var i := IndexOf(items, idOf, id);
    if i < 0 then Failure(NotFoundError(id, entityName))
    else Success(items[..i] + items[i + 1..])
  }

  /** Any position that carries `id` with no earlier one carrying it is the one IndexOf finds. */
  lemma FirstIndex<E, Id>(items: seq<E>, idOf: E -> Id, id: Id, k: int)
    requires 0 <= k < |items| && idOf(items[k]) == id
    requires forall j :: 0 <= j < k ==> idOf(items[j]) != id
    ensures IndexOf(items, idOf, id) == k
  {
  }

  /** After appending an entity whose identifier was not stored, it is found by that identifier. */
  lemma InsertThenFind<E, Id>(items: seq<E>, idOf: E -> Id, entity: E)
    requires !Stored(items, idOf, idOf(entity))
    ensures Lookup(items + [entity], idOf, idOf(entity)) == Some(entity)
  {
    var s := items + [entity];
    forall j | 0 <= j < |items| ensures idOf(s[j]) != idOf(entity) {
      assert s[j] == items[j];
    }
    FirstIndex(s, idOf, idOf(entity), |items|);
  }

  /** Appending never changes what an identifier already stored finds. */
  lemma InsertKeepsLookup<E, Id>(items: seq<E>, idOf: E -> Id, entity: E, id: Id)
    requires Stored(items, idOf, id)
    ensures Lookup(items + [entity], idOf, id) == Lookup(items, idOf, id)
  {
    var k := IndexOf(items, idOf, id);
    var s := items + [entity];
    FirstIndex(s, idOf, id, k);
  }

  /** After a successful update the new entity is what its identifier finds, and every
      other identifier finds what it found before. */
  lemma UpdateThenFind<E, Id>(items: seq<E>, idOf: E -> Id, entity: E, entityName: string, other: Id)
    requires Updated(items, idOf, entity, entityName).Success?
    ensures Lookup(Updated(items, idOf, entity, entityName).value, idOf, idOf(entity)) == Some(entity)
    ensures other != idOf(entity) ==>
      Lookup(Updated(items, idOf, entity, entityName).value, idOf, other) == Lookup(items, idOf, other)
  {
    var i := IndexOf(items, idOf, idOf(entity));
    var s := items[i := entity];
    FirstIndex(s, idOf, idOf(entity), i);
    if other != idOf(entity) {
      var k := IndexOf(items, idOf, other);
      if k >= 0 {
        FirstIndex(s, idOf, other, k);
      } else {
        assert !Stored(s, idOf, other) by {
          forall j | 0 <= j < |s| ensures idOf(s[j]) != other {
            if j != i { assert s[j] == items[j]; }
          }
        }
      }
    }
  }

  /** Updating keeps identifiers unique. */
  lemma UpdateKeepsUniqueIds<E, Id>(items: seq<E>, idOf: E -> Id, entity: E, entityName: string)
    requires UniqueIds(items, idOf)
    requires Updated(items, idOf, entity, entityName).Success?
    ensures UniqueIds(Updated(items, idOf, entity, entityName).value, idOf)
  {
    var i := IndexOf(items, idOf, idOf(entity));
    var s := items[i := entity];
    forall a, b | 0 <= a < b < |s| ensures idOf(s[a]) != idOf(s[b]) {
      assert idOf(s[a]) == idOf(items[a]);
      assert idOf(s[b]) == idOf(items[b]);
    }
  }

  /** When identifiers are unique, a deleted identifier is no longer found, and every
      other identifier finds what it found before. */
  lemma DeleteThenFind<E, Id>(items: seq<E>, idOf: E -> Id, id: Id, entityName: string, other: Id)
    requires UniqueIds(items, idOf)
    requires Deleted(items, idOf, id, entityName).Success?
    ensures Lookup(Deleted(items, idOf, id, entityName).value, idOf, id) == None
    ensures other != id ==>
      Lookup(Deleted(items, idOf, id, entityName).value, idOf, other) == Lookup(items, idOf, other)
  {
    var i := IndexOf(items, idOf, id);
    var s := items[..i] + items[i + 1..];
    assert forall j :: 0 <= j < |s| ==> s[j] == items[if j < i then j else j + 1];
    if other != id {
      var k := IndexOf(items, idOf, other);
      if k >= 0 {
        FirstIndex(s, idOf, other, if k < i then k else k - 1);
      }
    }
  }

  /** Deleting keeps identifiers unique. */
  lemma DeleteKeepsUniqueIds<E, Id>(items: seq<E>, idOf: E -> Id, id: Id, entityName: string)
    requires UniqueIds(items, idOf)
    requires Deleted(items, idOf, id, entityName).Success?
    ensures UniqueIds(Deleted(items, idOf, id, entityName).value, idOf)
  {
    var i := IndexOf(items, idOf, id);
    var s := items[..i] + items[i + 1..];
    assert forall j :: 0 <= j < |s| ==> s[j] == items[if j < i then j else j + 1];
  }

  /** Inserting an entity whose identifier is not stored keeps identifiers unique. */
  lemma InsertKeepsUniqueIds<E, Id>(items: seq<E>, idOf: E -> Id, entity: E)
    requires UniqueIds(items, idOf)
    requires !Stored(items, idOf, idOf(entity))
    ensures UniqueIds(items + [entity], idOf)
  {
    var s := items + [entity];
    forall a, b | 0 <= a < b < |s| ensures idOf(s[a]) != idOf(s[b]) {
      assert s[a] == items[a];
      if b < |items| { assert s[b] == items[b]; }
    }
  }

  /** Deleting the only stored entity leaves the list empty. */
  lemma DeleteOnly<E, Id>(entity: E, idOf: E -> Id, entityName: string)
    ensures Deleted([entity], idOf, idOf(entity), entityName) == Success([])
  {
  }

  class InMemoryRepository<E, Id(==)> {
    var items: seq<E>
    /** The identifier of an entity (`entity_id`). */
    const idOf: E -> Id
    /** The name of the class `getEntity()` returns, carried by not-found errors. */
    const entityName: string

    constructor (idOf: E -> Id, entityName: string)
      ensures items == []
      ensures this.idOf == idOf && this.entityName == entityName
    {
      items := [];
      this.idOf := idOf;
      this.entityName := entityName;
    }

    method Insert(entity: E)
      modifies this
      ensures items == old(items) + [entity]
    {
      items := items + [entity];
    }

    method BulkInsert(entities: seq<E>)
      modifies this
      ensures items == old(items) + entities
    {
      items := items + entities;
    }

    /** The linear search the lookups share. */
    method FindIndex(id: Id) returns (i: int)
      ensures i == IndexOf(items, idOf, id)
    {
      i := 0;
      while i < |items| && idOf(items[i]) != id
        invariant 0 <= i <= |items|
        invariant forall j :: 0 <= j < i ==> idOf(items[j]) != id
      {
        i := i + 1;
      }
      if i == |items| {
        i := -1;
      } else {
        FirstIndex(items, idOf, id, i);
      }
    }

    method FindById(id: Id) returns (r: Option<E>)
      ensures r == Lookup(items, idOf, id)
    {
      var i := FindIndex(id);
      r := if i < 0 then None else Some(items[i]);
    }

    method FindAll() returns (r: seq<E>)
      ensures r == items
    {
      r := items;
    }

    method Update(entity: E) returns (r: Outcome<NotFoundError<Id>>)
      modifies this
      ensures match Updated(old(items), idOf, entity, entityName)
              case Success(s) => r == Pass && items == s
              case Failure(err) => r == Fail(err) && items == old(items)
    {
      var i := FindIndex(idOf(entity));
      if i < 0 {
        r := Fail(NotFoundError(idOf(entity), entityName));
      } else {
        items := items[i := entity];
        r := Pass;
      }
    }

    method Delete(id: Id) returns (r: Outcome<NotFoundError<Id>>)
      modifies this
      ensures match Deleted(old(items), idOf, id, entityName)
              case Success(s) => r == Pass && items == s
              case Failure(err) => r == Fail(err) && items == old(items)
    {
      var i := FindIndex(id);
      if i < 0 {
        r := Fail(NotFoundError(id, entityName));
      } else {
        items := items[..i] + items[i + 1..];
        r := Pass;
      }
    }
  }
}
