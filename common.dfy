/** Small shared value types. */
module Common {

  /** An optional value, used where the source has `null`, `undefined` or an absent field. */
  datatype Option<+T> = None | Some(value: T) {
    /** The value, or `default` when there is none (`x ?? default`). */
    function GetOr(default: T): T {
      match this
      case Some(v) => v
      case None => default
    }
  }

  /** The failures the routes answer with: each is a 404 message, except a failed `save()` validation. */
  datatype Failure =
    | NoPlanFound        // 'No plan found'
    | NotFound           // 'Not found'
    | ItemNotFound       // 'Item not found'
    | PlanNotFound       // 'Plan not found'
    | CategoryNotFound   // 'Category not found'
    | ValidationFailed   // Mongoose rejects `save()` because a required field is missing

  datatype Result<+T> = Ok(value: T) | Err(error: Failure)

  /** `Math.min` on two numbers. */
  function Min(a: real, b: real): (r: real)
    ensures r <= a && r <= b
    ensures r == a || r == b
  {
    if a <= b then a else b
  }
}
