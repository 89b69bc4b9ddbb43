/** The absent-or-present value used wherever the TypeScript code reads an optional prop
    (`borderWidth?`, `aspectRatio?`) or a browser property guarded by `?.` / `??`. */
module Optional {

  datatype Option<+T> = None | Some(value: T)

  /** `x ?? fallback`: the value when present, the fallback otherwise. */
  function GetOr<T>(x: Option<T>, fallback: T): T {
    match x
    case Some(v) => v
    case None => fallback
  }
}
