/** The optional-value datatype shared by both components: an absent object
    property or an absent options object is `None`. */
module Wrappers {

  datatype Option<+T> = None | Some(value: T)

}
