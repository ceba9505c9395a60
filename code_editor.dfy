/**
 * The `CodeEditor` component
 * (packages/components/src/components/code-editor/CodeEditor.tsx): the Tab key
 * handler, the line-number gutter and the placeholder overlay.
 */
module CodeEditor {
  import opened Wrappers
  import opened Strings

  const TAB_KEY: string := "Tab"
  /** What Tab inserts: two spaces. */
  const INDENT: string := "  "
  const DEFAULT_PLACEHOLDER: string := "Enter your code here..."

  /** What `handleKeyDown` does with a key: nothing, or the value given to `onChange` and the new caret. */
  datatype KeyOutcome = Ignored | Indented(value: string, caret: int)

  /**
   * `handleKeyDown`: on Tab, the text between the selection ends is replaced by
   * two spaces and the caret (both selection ends) moves to `start + 2`.
   */
  function HandleKeyDown(key: string, value: string, selectionStart: int, selectionEnd: int): (r: KeyOutcome)
    ensures r.Ignored? <==> key != TAB_KEY
  {
    if key == TAB_KEY then
      Indented(JsSubstring(value, 0, selectionStart) + INDENT + JsSubstring(value, selectionEnd, |value|),
               selectionStart + 2)
    else
      Ignored
  }

  /**
   * For a selection inside the value, Tab keeps the text before the selection
   * and the text after it, puts two spaces in between, and leaves the caret
   * just after them.
   */
  lemma TabReplacesSelection(value: string, start: int, end: int)
    requires 0 <= start <= end <= |value|
    ensures var r := HandleKeyDown(TAB_KEY, value, start, end);
      && r.Indented?
      && r.value == value[..start] + INDENT + value[end..]
      && |r.value| == |value| - (end - start) + 2
      && r.value[..start] == value[..start]
      && r.value[start..start + 2] == INDENT
      && r.value[start + 2..] == value[end..]
      && r.caret == start + 2
  {
    var r := HandleKeyDown(TAB_KEY, value, start, end);
    assert r.value == value[..start] + INDENT + value[end..];
    assert (value[..start] + INDENT + value[end..])[start + 2..] == value[end..];
  }

  /** The numerals `1`, `2`, ..., `n`. */
  function Numerals(n: nat): (r: seq<string>)
    ensures |r| == n
    ensures forall i :: 0 <= i < n ==> r[i] == NatToString(i + 1)
  {
    seq(n, i requires 0 <= i < n => NatToString(i + 1))
  }

  /** `getLineNumbers`: split the value on `\n`, number the lines from 1 and join the numbers with `\n`. */
  function LineNumbers(value: string): (gutter: string)
    ensures |gutter| > 0 && gutter[0] == '1'
  {
    Join(Numerals(|Split(value, '\n')|), '\n')
  }

  /** The gutter reads `1\n2\n...\nn`, where n is one more than the number of `\n` in the value. */
  lemma LineNumbersCountLines(value: string)
    ensures Split(LineNumbers(value), '\n') == Numerals(Count(value, '\n') + 1)
  {
    SplitCount(value, '\n');
    var numerals := Numerals(|Split(value, '\n')|);
    SplitJoin(numerals, '\n');
  }

  /** An empty value still gets the line number 1. */
  lemma LineNumbersOfEmpty()
    ensures LineNumbers("") == "1"
  {
    assert Split("", '\n') == [""];
    assert Numerals(1) == ["1"];
  }

  /**
   * The overlay `value || placeholder`, where an absent `placeholder` prop
   * takes its default: the value while there is one, the placeholder otherwise.
   */
  function OverlayText(value: string, placeholder: Option<string>): (r: string)
    ensures value != "" ==> r == value
    ensures value == "" && placeholder.Some? ==> r == placeholder.value
    ensures value == "" && placeholder.None? ==> r == DEFAULT_PLACEHOLDER
  {
    if value != "" then value else placeholder.GetOr(DEFAULT_PLACEHOLDER)
  }
}
