/** An optional value. In this model `None` stands for a JavaScript value that
    is not a finite number (`NaN`, `Infinity`) or for a lookup that found nothing. */
module Options {
  datatype Option<+T> = None | Some(value: T)
}
