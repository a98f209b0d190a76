/**
 * The eight toast severities the client accepts (the compose window's submit
 * handler and the first overlay renderer share the list); anything else is
 * shown as "blue".
 */
module Severity {
  import opened Wrappers

  const Known: seq<string> := ["blue", "green", "pink", "red", "info", "success", "warn", "critical"]

  function Normalize(s: Option<string>): (r: string)
    ensures r in Known
    ensures s.Some? && s.value in Known ==> r == s.value
    ensures s.None? || s.value !in Known ==> r == "blue"
  {
    if s.Some? && s.value in Known then s.value else "blue"
  }
}
