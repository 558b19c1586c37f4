/** `EntityValidationError`: an error value that carries, for each invalid field, the
    list of its violation messages. */
module ValidationError {
  import opened JsValues

  /** `FieldsErrors`: field name to messages. */
  type FieldsErrors = map<string, seq<string>>

  const DefaultMessage: string := "Validation error"
  const ErrorName: string := "EntityValidationError"

  /** The error's three properties; `message` is what the caller passed, which only
      `undefined` replaces by the default. */
  datatype EntityValidationError = EntityValidationError(
    error: FieldsErrors,
    message: Optional<string>,
    name: string)

  /** The constructor: the map is stored as given, the message defaults when left out,
      and the name is always `EntityValidationError`. */
  function NewEntityValidationError(error: FieldsErrors, message: Optional<string>): (e: EntityValidationError)
    ensures e.error == error
    ensures e.name == ErrorName
    ensures message.Undefined? ==> e.message == Given(DefaultMessage)
    ensures !message.Undefined? ==> e.message == message
  {
    EntityValidationError(error, if message.Undefined? then Given(DefaultMessage) else message, ErrorName)
  }

  /** `count()`: the number of distinct invalid fields. */
  function Count(e: EntityValidationError): (n: nat)
    ensures n == 0 <==> e.error == map[]
    ensures forall field :: field in e.error ==> n >= 1
  {
    |e.error.Keys|
  }

  /** Reporting messages for a field adds one to the count when the field is new and
      nothing when it already had messages. */
  lemma CountWithField(e: EntityValidationError, field: string, messages: seq<string>)
    ensures Count(e.(error := e.error[field := messages])) ==
            if field in e.error then Count(e) else Count(e) + 1
  {
    var keys := e.error[field := messages].Keys;
    if field in e.error {
      assert keys == e.error.Keys;
    } else {
      assert keys == e.error.Keys + {field};
    }
  }

  /** Removing a field's entry lowers the count by one exactly when the field was there. */
  lemma CountWithoutField(e: EntityValidationError, field: string)
    ensures Count(e.(error := e.error - {field})) ==
            if field in e.error then Count(e) - 1 else Count(e)
  {
    var keys := (e.error - {field}).Keys;
    if field in e.error {
      assert keys == e.error.Keys - {field};
    } else {
      assert keys == e.error.Keys;
    }
  }

  /** The count depends on the fields only: neither the messages of a field nor the
      error's message change it. */
  lemma CountIgnoresMessages(e: EntityValidationError, f: EntityValidationError)
    requires e.error.Keys == f.error.Keys
    ensures Count(e) == Count(f)
  {
  }
}
