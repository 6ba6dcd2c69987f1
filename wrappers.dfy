/** The optional value used for the non-owning exit reference and for
    `std::string_view::find`'s "npos". */
module Wrappers {

  datatype Option<+T> = None | Some(value: T)
}
