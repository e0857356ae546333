/** An optional value: used for lookups that can miss and for a payload that
    may be absent from a control event. */
module Maybe {

  datatype Option<+T> = None | Some(value: T)

}
