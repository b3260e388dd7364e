// What several models share besides strings.
module Basics {

  function Min(a: int, b: int): int {
    if a < b then a else b
  }

  function Max(a: int, b: int): int {
    if a > b then a else b
  }

  predicate NoRepeats<T(==)>(s: seq<T>) {
    forall i, j :: 0 <= i < j < |s| ==> s[i] != s[j]
  }

  // The provider that Codex Desktop is pointed at.
  const PROVIDER_ID := "slimference-codex"

  datatype Provider = Provider(baseUrl: string, supportsWebSockets: bool)
}
