/** Definitions shared by both drivers: the optional value and the Linux
    error numbers they return, negated. */
module KernelCommon {

  datatype Option<T> = None | Some(value: T)

  const ENOMEM: int := 12
  const EFAULT: int := 14
}
