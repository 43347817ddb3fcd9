/**
 * What the code editor holds. The starter templates of the screens are kept
 * opaque: the model records which template was chosen, not its source text.
 */
module Editor {
  import opened Wrappers

  datatype Code =
    | Blank                                    // the empty string ''
    | Stub(language: string)                   // a generic "write your code here" skeleton
    | Template(title: string, language: string) // a problem-specific solution template
    | Typed(text: string)                      // what the user typed

  /** The Monaco editor's `onChange`: `setCode(value || '')`. */
  function EditorValue(value: Option<string>): (c: Code)
    ensures c == Blank <==> value.None? || value.value == ""
    ensures c != Blank ==> c == Typed(value.value)
  {
    if value.Some? && value.value != "" then Typed(value.value) else Blank
  }

  /** The languages that have a generic skeleton, in `switch` order. */
  const StubLanguages: seq<string> := ["javascript", "python", "c", "cpp"]

  /**
   * The generic skeleton for a language, '' for any other language. The same
   * switch appears as `getDefaultCode` of the duel screen and as the fallback
   * of the problem screen's `getDefaultCode`.
   */
  function StubCode(lang: string): (c: Code)
    ensures c != Blank <==> lang == "javascript" || lang == "python" || lang == "c" || lang == "cpp"
    ensures c == Blank || c == Stub(lang)
  {
    if lang in StubLanguages then Stub(lang) else Blank
  }
}
