/** Idempotency-key syntax: wire tokens, the advertised byte limit and prefix. */
module Keys {

  predicate TokenChar(c: char) {
    'a' <= c <= 'z' || 'A' <= c <= 'Z' || '0' <= c <= '9' || c == '.' || c == '_' || c == ':' || c == '-'
  }

  predicate ValidWireToken(value: string) {
    1 <= |value| <= 128 && forall i | 0 <= i < |value| :: TokenChar(value[i])
  }

  predicate ValidKey(key: string, maxBytes: int, prefix: string) {
    && ValidWireToken(key)
    && 0 < maxBytes && |key| <= maxBytes
    && (prefix != "" ==> prefix <= key && |key| != |prefix|)
  }
}
