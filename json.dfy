/** The JavaScript values a summary is built from. */
module Json {
  import Bsv

  /**
   * A string, a number, an object with its keyed fields, an array, or a
   * script chunk stored as the library's own chunk object.
   */
  datatype Value =
    | Str(str: string)
    | Num(num: int)
    | Obj(fields: map<string, Value>)
    | Arr(items: seq<Value>)
    | ChunkObject(chunk: Bsv.Chunk)
}
