/**
 * Column values of the rows the front end reads from and writes to the remote tables
 * (JSON values: text, numbers, booleans and null).
 */
module Records {
  datatype Value = Null | Str(s: string) | Number(n: real) | Bool(b: bool)

  /** JavaScript truthiness of a column value ("", 0, false and null are falsy). */
  predicate Truthy(v: Value) {
    match v
    case Null => false
    case Str(s) => s != []
    case Number(n) => n != 0.0
    case Bool(b) => b
  }
}
