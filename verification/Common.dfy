/** Small definitions shared by the models: options, bytes and streams. */
module Common {

  datatype Option<+T> = None | Some(value: T)

  type Byte = x: int | 0 <= x < 256
  type Bytes = seq<Byte>

  function Max(a: int, b: int): int { if a < b then b else a }

  /** The chunks one after another, as the flat stream they make up. */
  function Flatten<T>(chunks: seq<seq<T>>): seq<T> {
    if chunks == [] then [] else chunks[0] + Flatten(chunks[1..])
  }
}
