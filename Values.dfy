/** Values shared by the whole model: an Option wrapper and the handful of Python
    values that travel through keyword dictionaries and style dictionaries. */
module Values {

  datatype Option<+T> = None | Some(value: T)

  /** A Python value as it appears in a `**kwargs` or style dictionary.
      `Items` stands for both a list and a tuple: the source only ever asks
      `isinstance(p, (list, tuple))` and never tells them apart. */
  datatype Value =
    | Int(i: int)
    | Str(s: string)
    | Items(elems: seq<Value>)
}
