/** Optional values: stands for the JavaScript fields and properties that are `undefined`
    until something first assigns them. */
module Optional {

  datatype Option<+T> = None | Some(value: T)

}
