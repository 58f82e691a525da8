/** The optional value used for the cache's nullable arguments
    (`value: Any?`, `image: UIImage?`, `data: Data?`, the optional
    completion handler) and for an encoder that may yield nothing. */
module Wrappers {

  datatype Option<+T> = None | Some(value: T)

}
