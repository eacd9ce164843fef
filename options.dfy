/** The usual optional-value wrapper, used for the parse functions that
    invert the text rendering of numbers. */
module Options {

  datatype Option<+T> = None | Some(value: T)

}
