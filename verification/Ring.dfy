/** Byte rings, of the queues and of the stream buffers. */
module Ring {

  type Byte = b: nat | b < 256

  /** Positions run round a ring of the given length. */
  function Wrap(i: nat, length: nat): nat {
    if i < length then i else i - length
  }
}
