/** Values shared by the snippets: optional fields and the observable effects of a call. */
module Effects {

  /** An optional TypeScript field (`field?: T`): absent or present. */
  datatype Option<+T> = None | Some(value: T)

  /** One observable effect of a call: a value handed to `console.log`, or an `Error` thrown
      with its message. A call's behaviour is the sequence of its effects in order. */
  datatype Event<+L> = Log(line: L) | Throw(message: string)
}
