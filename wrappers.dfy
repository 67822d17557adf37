/*
 * The optional value shared by both halves of the model: a NULL queue
 * definition of osMessageCreate, a NULL bias of a convolution.
 */
module Wrappers {
  datatype Option<T> = None | Some(value: T)
}
