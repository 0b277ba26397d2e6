/** The record that travels through every queue of the program, and its in-band codes
    (include/message_queue/message.h, include/tui/hashmap.h). Character arrays are modelled
    by the characters before their terminating NUL. */
module Messages {
  const BYTE: nat := 0x100
  const HALF_WORD: nat := 0x1_0000_0000
  const WORD: nat := 0x1_0000_0000_0000_0000

  type Byte = x: int | 0 <= x < BYTE

  datatype Message = Message(
    gid: nat,
    uid: nat,
    category: Byte,
    op: Byte,
    timestamp: nat,
    comm: string,
    file: string,
    newFile: string)

  const OP_OPEN: Byte := 0
  const OP_READ: Byte := 1
  const OP_WRITE: Byte := 2
  const OP_CREATE: Byte := 3
  const OP_LINK: Byte := 4
  const OP_UNLINK: Byte := 5
  const OP_SYSLINK: Byte := 6
  const OP_MKDIR: Byte := 7
  const OP_RMDIR: Byte := 8
  const OP_MKNOD: Byte := 9
  const OP_RENAME: Byte := 10
  const OP_UNKNOWN: Byte := 255

  const ACK_MESSAGE: Byte := 253
  const STOP_MESSAGE: Byte := 254

  const FILE_ACTIVITY_MONITORING: Byte := 0

  const COMM_SIZE: nat := 16
  const FILE_SIZE: nat := 128

  function Min(a: int, b: int): int { if a < b then a else b }

  /** `snprintf(dst, size, "%s", s)`: at most `size - 1` characters survive. */
  function Fit(s: string, size: nat): (r: string)
    requires size > 0
    ensures r <= s && |r| < size
    ensures if |s| < size then r == s else |r| == size - 1
  {
    if |s| < size then s else s[..size - 1]
  }
}
