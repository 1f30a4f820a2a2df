/** Small types shared by several modules. */
module Options {
  /** A value that may be missing. */
  datatype Option<T> = None | Some(value: T)

  /** The data of a Secret or a ConfigMap. */
  type Data = map<string, string>
}
