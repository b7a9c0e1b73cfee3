/** Optional values, used for decoders that may reject their input and for
    the outcome of the external OBJ parser. */
module Options {

  datatype Option<+T> = None | Some(value: T)
}
