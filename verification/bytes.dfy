/** Octets, as produced by `str.encode` and consumed by `base64.b64encode`. */
module Bytes {

  type byte = b: int | 0 <= b < 256
}
