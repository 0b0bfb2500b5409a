/** The build semantics every generated builder shares. A builder is a
    record of slots, one per field of its struct, each `None` until its
    setter is called (a setter is a record update, so the last write wins).
    `build` first runs the validator, when the struct has one, and refuses
    with its message; otherwise every set slot is copied into the struct and
    every unset slot takes the field's default. */
module Builders {
  import opened Wrappers
  import opened Errors

  /** A value of a type whose definition is not part of this model
      (`XsDateTime`, `XsDuration`, `Ratio`, `XsLanguage`, ...): only its
      identity matters to the builders. */
  datatype Opaque = Opaque(id: nat)

  /** `Default::default()` of such a type. */
  const OPAQUE_DEFAULT: Opaque := Opaque(0)

  /** What `build` stores for a slot: the value set, or the default. */
  function Fill<T>(slot: Option<T>, default: T): T
  {
    slot.GetOr(default)
  }

  /** The slot of an optional field after its setter is called with the
      payload when there is one: a `strip_option` setter takes the payload,
      so a slot never holds `Some(None)`. */
  function Optional<T>(v: Option<T>): (slot: Option<Option<T>>)
    ensures slot != Some(None)
    ensures Fill(slot, None) == v
  {
    if v.None? then None else Some(v)
  }

  /** `slot.as_ref().is_some_and(|l| !l.is_empty())`. */
  predicate NonEmpty<T>(slot: Option<seq<T>>)
  {
    slot.Some? && |slot.value| > 0
  }

  /** A validator that refuses with `message` exactly when `slot` is unset. */
  function Require<T>(slot: Option<T>, message: string): (r: Outcome<string>)
    ensures r.Pass? <==> slot.Some?
    ensures r.Fail? ==> r.error == message
  {
    if slot.None? then Fail(message) else Pass
  }

  /** The generated `build`: the validator's refusal becomes
      `ValidationError(message)`; otherwise the assembled value is returned. */
  function Finish<T>(check: Outcome<string>, value: T): (r: Result<T, BuildError>)
    ensures r.Ok? <==> check.Pass?
    ensures r.Ok? ==> r.value == value
    ensures check.Fail? ==> r == Err(ValidationError(check.error))
  {
    match check
    case Pass => Ok(value)
    case Fail(m) => Err(ValidationError(m))
  }
}
