/** Markup shared by both renderer variants. */
module Markup {
  import opened Decimal
  import opened Text

  const CodeClose := "</code></pre>"
  const SpanClose := "</span>"

  /** The CSS class of a status code's hundreds class, `response-code-<n>xx`
      with n = floor(num / 100). For a positive divisor Dafny's `/` is floor
      division, as `Math.floor(num / 100)` is. */
  function HundredsClass(num: int): string {
    "response-code-" + IntToString(num / 100) + "xx"
  }

  function ResponseCodeOpen(num: int): string {
    "<span class=\"response-code " + HundredsClass(num) + "\">"
  }

  /** For a code of three or more digits the class is the code with its last
      two digits replaced by `xx`: 404 gets `response-code-4xx`. */
  lemma HundredsClassOfCode(num: nat)
    requires num >= 100
    ensures var d := NatToString(num);
      HundredsClass(num) == "response-code-" + d[..|d| - 2] + "xx"
  {
    HundredsDropLastTwoDigits(num);
  }
}
