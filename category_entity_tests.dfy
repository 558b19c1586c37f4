/** The Category unit tests, restated as methods whose postconditions are the tests'
    expectations. A `Date` the tests create becomes a `Timestamp` parameter. */
module CategoryEntityTests {
  import opened JsValues
  import opened CategoryEntity

  /** Constructor with a name and a timestamp only: no id, description null, active. */
  method ConstructWithDefaults(createdAt: Timestamp, now: Timestamp) returns (json: CategoryJson)
    ensures json == CategoryJson(Undefined, "Movie", Null, true, createdAt)
  {
    var category := new Category(CategoryParams(Undefined, "Movie", Undefined, Undefined, Given(createdAt)), now);
    json := category.ToJSON();
  }

  /** Constructor with every field but the id: each is kept, `is_active = false` included. */
  method ConstructWithDescription(createdAt: Timestamp, now: Timestamp) returns (json: CategoryJson)
    ensures json == CategoryJson(Undefined, "Series", Given("Series description"), false, createdAt)
  {
    var category := new Category(
      CategoryParams(Undefined, "Series", Given("Series description"), Given(false), Given(createdAt)), now);
    json := category.ToJSON();
  }

  /** `create` with a name only, with a description, and with `is_active = false`. */
  method CreateCommands(now: Timestamp) returns (movie: CategoryJson, series: CategoryJson, inactive: CategoryJson)
    ensures movie == CategoryJson(Undefined, "Movie", Null, true, now)
    ensures series == CategoryJson(Undefined, "Series", Given("Series description"), true, now)
    ensures inactive == CategoryJson(Undefined, "Series", Null, false, now)
  {
    var c := Category.Create(CategoryCreateCommand("Movie", Undefined, Undefined), now);
    movie := c.ToJSON();
    c := Category.Create(CategoryCreateCommand("Series", Given("Series description"), Undefined), now);
    series := c.ToJSON();
    c := Category.Create(CategoryCreateCommand("Series", Undefined, Given(false)), now);
    inactive := c.ToJSON();
  }

  /** Renaming, redescribing, deactivating and activating a fresh category. */
  method ChangeKeyValues(createdAt: Timestamp, now: Timestamp)
    returns (renamed: string, described: Optional<string>, deactivated: bool, activated: bool)
    ensures renamed == "Series" && described == Given("Movie description")
    ensures !deactivated && activated
  {
    var params := CategoryParams(Undefined, "Movie", Undefined, Undefined, Given(createdAt));
    var category := new Category(params, now);
    category.ChangeName("Series");
    renamed := category.name;
    category := new Category(params, now);
    category.ChangeDescription("Movie description");
    described := category.description;
    category := new Category(params, now);
    category.Deactivate();
    deactivated := category.is_active;
    category := new Category(params, now);
    category.Activate();
    activated := category.is_active;
  }

  /** Activating twice has the effect of activating once. */
  method ActivateTwice(category: Category)
    modifies category
    ensures category.ToJSON() == old(category.ToJSON()).(is_active := true)
  {
    category.Activate();
    category.Activate();
  }

  /** Deactivating twice has the effect of deactivating once. */
  method DeactivateTwice(category: Category)
    modifies category
    ensures category.ToJSON() == old(category.ToJSON()).(is_active := false)
  {
    category.Deactivate();
    category.Deactivate();
  }
}
