/** The dynamically typed values that the Python code keeps in its dictionaries. */
module Json {

  /** A Python value as far as the license code uses one: a string, a boolean,
      a dictionary with string keys or a list. */
  datatype Value =
    | Str(s: string)
    | Bool(b: bool)
    | Dict(m: map<string, Value>)
    | List(items: seq<Value>)

  /** A dictionary, as the license and provenance objects are. */
  type Object = map<string, Value>

  /** The test convention "the key is absent or holds the empty string". */
  predicate AbsentOrEmpty(o: Object, key: string)
  {
    key !in o || o[key] == Str("")
  }
}
