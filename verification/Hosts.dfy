/** The hosts and ports that a connection may have. */
module Hosts {
  import opened Strings

  predicate IsAlphaNum(c: char) {
    'A' <= c <= 'Z' || 'a' <= c <= 'z' || IsDigit(c)
  }

  predicate IsHostChar(c: char) {
    IsAlphaNum(c) || c == '.' || c == '_' || c == ':' || c == '-'
  }

  // safeHost and the port range.
  predicate ValidHost(host: string, port: int) {
    && 1 <= |host| <= 253 && IsAlphaNum(host[0])
    && (forall i :: 0 <= i < |host| ==> IsHostChar(host[i]))
    && 1 <= port <= 65535
  }
}
