/** The Category entity: a mutable record of five fields with constructor defaults
    and one mutator per field. The entity does no validation and generates no id. */
module CategoryEntity {
  import opened JsValues

  /** The value of a JavaScript `Date`: milliseconds since the epoch. */
  type Timestamp = int

  /** `CategoryParams`: every property but `name` may be left out. */
  datatype CategoryParams = CategoryParams(
    categoryId: Optional<string>,
    name: string,
    description: Optional<string>,
    is_active: Optional<bool>,
    createdAt: Optional<Timestamp>)

  /** `CategoryCreateCommand`: the input of `create`, which has no id and no timestamp. */
  datatype CategoryCreateCommand = CategoryCreateCommand(
    name: string,
    description: Optional<string>,
    is_active: Optional<bool>)

  /** The plain record `toJSON` returns; it is also the abstract state of a Category. */
  datatype CategoryJson = CategoryJson(
    categoryId: Optional<string>,
    name: string,
    description: Optional<string>,
    is_active: bool,
    createdAt: Timestamp)

  /** `description` is declared `string | null`: it is never `undefined`. */
  predicate WellFormed(s: CategoryJson)
  {
    s.description != Undefined
  }

  /** The fields the constructor assigns; `now` is the reading of the clock that
      `new Date()` would take. */
  function Initial(params: CategoryParams, now: Timestamp): (s: CategoryJson)
    ensures WellFormed(s)
  {
    CategoryJson(
      params.categoryId,
      params.name,
      CoalesceNull(params.description),
      Coalesce(params.is_active, true),
      Coalesce(params.createdAt, now))
  }

  /** The object `create` passes on to the constructor: the command's own three
      properties, with `categoryId` and `createdAt` absent. */
  function CreateParams(cmd: CategoryCreateCommand): CategoryParams
  {
    CategoryParams(Undefined, cmd.name, cmd.description, cmd.is_active, Undefined)
  }

  /** The parameters that carry a snapshot's fields back into the constructor. */
  function JsonParams(s: CategoryJson): CategoryParams
  {
    CategoryParams(s.categoryId, s.name, s.description, Given(s.is_active), Given(s.createdAt))
  }

  /** A left-out or null description becomes null, a left-out or null active flag becomes
      true, and a left-out or null timestamp becomes the clock reading. */
  lemma ConstructorDefaults(params: CategoryParams, now: Timestamp)
    ensures !params.description.Given? ==> Initial(params, now).description == Null
    ensures !params.is_active.Given? ==> Initial(params, now).is_active
    ensures !params.createdAt.Given? ==> Initial(params, now).createdAt == now
  {
  }

  /** What the caller gives is kept as given: the id (also when it is absent), the name,
      a description, an active flag even when it is false, and the very timestamp. */
  lemma ConstructorKeepsGiven(params: CategoryParams, now: Timestamp)
    ensures Initial(params, now).categoryId == params.categoryId
    ensures Initial(params, now).name == params.name
    ensures params.description.Given? ==> Initial(params, now).description == params.description
    ensures params.is_active.Given? ==> Initial(params, now).is_active == params.is_active.value
    ensures params.createdAt.Given? ==> Initial(params, now).createdAt == params.createdAt.value
  {
  }

  /** `create` agrees with the constructor on name, description and active flag, and
      leaves the id absent: no id is generated. */
  lemma CreateAgreesWithConstructor(cmd: CategoryCreateCommand, params: CategoryParams, now: Timestamp)
    requires params.name == cmd.name
    requires params.description == cmd.description
    requires params.is_active == cmd.is_active
    ensures Initial(CreateParams(cmd), now).categoryId == Undefined
    ensures Initial(CreateParams(cmd), now).createdAt == now
    ensures Initial(CreateParams(cmd), now).name == Initial(params, now).name
    ensures Initial(CreateParams(cmd), now).description == Initial(params, now).description
    ensures Initial(CreateParams(cmd), now).is_active == Initial(params, now).is_active
  {
  }

  /** A snapshot holds every field: handing it back to the constructor rebuilds the same
      entity, whatever the clock reads. */
  lemma JsonRebuildsCategory(s: CategoryJson, now: Timestamp)
    requires WellFormed(s)
    ensures Initial(JsonParams(s), now) == s
  {
  }

  class Category {
    var categoryId: Optional<string>
    var name: string
    var description: Optional<string>
    var is_active: bool
    var createdAt: Timestamp

    ghost predicate Valid()
      reads this
    {
      WellFormed(ToJSON())
    }

    constructor (params: CategoryParams, now: Timestamp)
      ensures Valid()
      ensures ToJSON() == Initial(params, now)
    {
      categoryId := params.categoryId;
      name := params.name;
      description := CoalesceNull(params.description);
      is_active := Coalesce(params.is_active, true);
      createdAt := Coalesce(params.createdAt, now);
    }

    static method Create(cmd: CategoryCreateCommand, now: Timestamp) returns (c: Category)
      ensures fresh(c) && c.Valid()
      ensures c.ToJSON() == Initial(CreateParams(cmd), now)
    {
      c := new Category(CreateParams(cmd), now);
    }

    method ChangeName(name: string)
      modifies this
      ensures old(Valid()) ==> Valid()
      ensures this.name == name
      ensures ToJSON() == old(ToJSON()).(name := name)
    {
      this.name := name;
    }

    method ChangeDescription(description: string)
      modifies this
      ensures Valid() && this.description == Given(description)
      ensures ToJSON() == old(ToJSON()).(description := Given(description))
    {
      this.description := Given(description);
    }

    method Activate()
      modifies this
      ensures old(Valid()) ==> Valid()
      ensures is_active
      ensures ToJSON() == old(ToJSON()).(is_active := true)
    {
      is_active := true;
    }

    method Deactivate()
      modifies this
      ensures old(Valid()) ==> Valid()
      ensures !is_active
      ensures ToJSON() == old(ToJSON()).(is_active := false)
    {
      is_active := false;
    }

    /** The current five fields as a plain record; reading it changes nothing. */
    function ToJSON(): (r: CategoryJson)
      reads this
      ensures r.categoryId == categoryId && r.name == name && r.description == description
      ensures r.is_active == is_active && r.createdAt == createdAt
    {
      CategoryJson(categoryId, name, description, is_active, createdAt)
    }
  }
}
