/** Optional values: `None` stands for JavaScript's `null`, `undefined` or `NaN`,
    whichever the surrounding function documents. */
module Options {

  datatype Option<+T> = None | Some(value: T)
}
