/** How a compute job ended: the vocabulary shared by the pool, the child and the wire. */
module Endings {
  datatype Ending = Ok | Error | LoadError | Timeout | Cancelled | Budget | Refused
}
