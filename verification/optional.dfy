/** The value-or-nothing datatype the estimator uses for its undefined result. */
module Optional {

  datatype Option<+T> = None | Some(value: T)
}
