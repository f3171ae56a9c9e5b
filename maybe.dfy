/** An optional value: the bot's `undefined` fields and JavaScript's `NaN` result. */
module Maybe {

  datatype Option<+T> = None | Some(value: T)
}
