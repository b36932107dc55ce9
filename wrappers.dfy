/** The optional value used wherever the checkout and reset pages read a
    field that may be missing (`priceValue`, `err.response?.status`,
    `data?.message`, the `token` query parameter). */
module Wrappers {

  datatype Option<+T> = None | Some(value: T)
}
