/** Python's `None`-or-value fields (`selected_piece`, `captured`, board squares of the xiangqi board). */
module Maybe {
  datatype Option<T> = None | Some(value: T)
}
