/** The optional value that stands for JavaScript's `null` in script.js. */
module Maybe {

  datatype Option<+T> = None | Some(value: T)
}
