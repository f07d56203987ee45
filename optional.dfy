/** An optional value: `None` stands for a C# null reference. */
module Optional {
  datatype Option<+T> = None | Some(value: T)
}
