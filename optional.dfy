/** The optional-value wrapper used for Kotlin's nullable fields and `?.` chains. */
module Optional {

  datatype Option<+T> = None | Some(value: T)

}
