/** The optional value used where the source starts from "no value yet"
    (a sweep time of +infinity, a previous time of NaN, a null pair). */
module Options {
  datatype Option<T> = None | Some(value: T)
}
