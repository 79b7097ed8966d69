/**
 * The Linux error numbers the modelled code returns (negated), with the
 * values of include/uapi/asm-generic/errno-base.h and errno.h.
 */
module Errno {
  const EPERM: int := 1
  const ENXIO: int := 6
  const E2BIG: int := 7
  const EAGAIN: int := 11
  const ENOMEM: int := 12
  const EFAULT: int := 14
  const ENODEV: int := 19
  const EINVAL: int := 22
  const ENETDOWN: int := 100
  const ETIMEDOUT: int := 110
}
