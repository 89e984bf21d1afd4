// The value a field holds, or nothing where the TypeScript source says `undefined` or `null`.
module Options {
  datatype Option<+T> = None | Some(value: T) {
    function GetOr(default: T): T {
      match this
      case Some(v) => v
      case None => default
    }
  }
}
