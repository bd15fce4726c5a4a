/** The optional value used wherever the assistant may or may not have something:
    a configured key, a dictionary entry, an utterance still to be heard. */
module Options {

  datatype Option<+T> = None | Some(value: T)

}
