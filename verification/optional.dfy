/** The optional value used wherever the application has `null` or `undefined`:
    no selected player, a field missing from a totals object, no session. */
module Optional {

  datatype Option<+T> = None | Some(value: T)
}
