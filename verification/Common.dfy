/** Values that every part of the model uses. */
module Common {
  datatype Option<+T> = None | Some(value: T)

  /** A SHA-256 digest; hashing is taken as injective, so a digest stands for the bytes. */
  type Digest = nat
}
