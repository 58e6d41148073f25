/** String operations of JavaScript that the TypeScript code relies on, shared by the modules that use them. */
module JsStrings {
  /**
   * `s.substr(start, length)` for a start that is not negative: the start is clamped to the
   * string, a length that is not positive gives the empty string, and the piece ends at the end
   * of the string at the latest.
   */
  function Substr(s: string, start: nat, length: int): (r: string)
    ensures |r| <= |s|
    ensures length >= 0 ==> |r| <= length
    ensures length <= 0 || start >= |s| ==> r == []
    ensures 0 <= length && start + length <= |s| ==> r == s[start..start + length]
    ensures start <= |s| && start + length >= |s| ==> r == s[start..]
  {
    var from := if start <= |s| then start else |s|;
    var count := if length < 0 then 0 else if length <= |s| - from then length else |s| - from;
    s[from..from + count]
  }
}
