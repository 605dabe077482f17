/** The digest function, abstractly: any function from texts to texts. */
module Hashes {

  type Hash = string -> string

  /** 64 lower-case hexadecimal characters. */
  predicate IsSha256(s: string) {
    |s| == 64 && forall i :: 0 <= i < |s| ==> ('0' <= s[i] <= '9' || 'a' <= s[i] <= 'f')
  }

  ghost predicate DigestShape(h: Hash) {
    forall s :: IsSha256(h(s))
  }
}
