/** An optional value: JavaScript's `null` (or `undefined`, or NaN for a number) on one side, a present value on the other. */
module Options {

  datatype Option<+T> = None | Some(value: T)
}
