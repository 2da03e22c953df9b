/** An optional value: a C# reference that may be null. */
module Optional {

  datatype Option<T> = None | Some(value: T)
}
