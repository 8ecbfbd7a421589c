/** How a principal's text form is shortened for display. */
module PrincipalText {
  import opened Identity

  /** The `principal` prop: a string, or a principal rendered through `toString()`. */
  datatype PrincipalArg = Str(s: string) | Of(p: Principal)

  function TextOf(arg: PrincipalArg): string {
    match arg
    case Str(s) => s
    case Of(p) => p.text
  }

  const DefaultLength: nat := 8

  /** The marker put between the kept head and tail. */
  const Ellipsis: char := '…'

  /**
   * The shown form: whole when at most `2 * length + 3` characters long,
   * otherwise the first `length` characters, an ellipsis and the last four.
   */
  function Truncate(s: string, length: nat): (r: string)
    ensures |s| <= 2 * length + 3 ==> r == s
    ensures |s| > 2 * length + 3 ==>
      |r| == length + 5 && r[..length] == s[..length] && r[length] == Ellipsis && r[length + 1..] == s[|s| - 4..]
  {
    if |s| > 2 * length + 3 then s[..length] + [Ellipsis] + s[|s| - 4..] else s
  }

  /** With any positive `length` the shown form is never longer than the text. */
  lemma TruncateNotLonger(s: string, length: nat)
    requires length >= 1
    ensures |Truncate(s, length)| <= |s|
    ensures length >= 2 ==> (|Truncate(s, length)| < |s| <==> |s| > 2 * length + 3)
  {
  }

  /** With the default length, texts of up to 19 characters are shown whole, and longer ones are cut to 13. */
  lemma DefaultCutoff(s: string)
    ensures |s| <= 19 ==> Truncate(s, DefaultLength) == s
    ensures |s| > 19 ==> |Truncate(s, DefaultLength)| == 13 && Truncate(s, DefaultLength) != s
  {
  }

  /** What `<PrincipalText>` renders: the hover title and the shown text. */
  datatype Rendered = Rendered(title: string, shown: string)

  function Render(arg: PrincipalArg, length: nat): (out: Rendered)
    ensures out.title == TextOf(arg)
    ensures out.shown == Truncate(TextOf(arg), length)
  {
    var str := TextOf(arg);
    Rendered(str, Truncate(str, length))
  }

  /** A string and a principal with that text form render identically; the title always holds the full text. */
  lemma RenderSameForStringAndPrincipal(p: Principal, length: nat)
    ensures Render(Str(p.text), length) == Render(Of(p), length)
    ensures Render(Of(p), length).title == p.text
  {
  }
}
