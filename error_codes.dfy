/** Linux error numbers (include/uapi/asm-generic/errno-base.h and
    include/linux/errno.h), returned negated by the drivers. */
module ErrorCodes {
  const ENOMEM := 12
  const ENODEV := 19
  const EINVAL := 22
  const ETIMEDOUT := 110
  const EPROBE_DEFER := 517
}
