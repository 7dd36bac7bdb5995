/** Optional values and refusals, standing for the source's None and its exceptions. */
module Outcomes {
  datatype Option<+T> = None | Some(value: T)
  datatype Result<+T> = Ok(value: T) | Refused(reason: string)
}
