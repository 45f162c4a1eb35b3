/** Small value types shared by every module. */
module Prelude {

  datatype Option<+T> = None | Some(value: T)

  /** A Stellar address (an account or a contract), compared by its strkey. */
  datatype Address = Address(key: string)

  function Max(a: int, b: int): int {
    if a <= b then b else a
  }

  /** The ASCII white space that trimming removes. */
  predicate IsSpace(c: char) {
    c == ' ' || c == '\t' || c == '\n' || c == '\r'
  }
}
