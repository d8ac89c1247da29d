/**
 * The line-number gutter of morph-e2b/components/CodeEditor.tsx. The gutter
 * is component state: it starts as `[1]` and is recomputed only when the
 * user edits the text area, never when the parent passes a new `value`.
 */
module CodeEditor {
  import opened Text

  /** `Array.from({ length: n }, (_, i) => i + 1)`: the numbers 1 to n. */
  function Numbered(n: nat): (numbers: seq<int>)
    ensures |numbers| == n
    ensures forall i :: 0 <= i < n ==> numbers[i] == i + 1
  {
    seq(n, i => i + 1)
  }

  /** The gutter for a text: one number per piece of `split('\n')`, i.e. one more than the newlines. */
  function Gutter(text: string): (numbers: seq<int>)
    ensures |numbers| == Count(text, '\n') + 1
    ensures numbers != [] && numbers[0] == 1 && numbers[|numbers| - 1] == |numbers|
    ensures forall i :: 0 <= i < |numbers| - 1 ==> numbers[i + 1] == numbers[i] + 1
  {
    Numbered(|Split(text, '\n')|)
  }

  class Editor {
    /** The `value` prop the parent last rendered the editor with. */
    var value: string
    var lineNumbers: seq<int>

    constructor (value: string)
      ensures this.value == value && lineNumbers == [1]
    {
      this.value := value;
      lineNumbers := [1];
    }

    /**
     * `handleChange`: pass the new text to `onChange` unchanged, then renumber
     * the gutter for it.
     */
    method HandleChange(newValue: string) returns (emitted: string)
      modifies this
      ensures emitted == newValue
      ensures lineNumbers == Gutter(newValue)
      ensures value == old(value)
    {
      emitted := newValue;
      var lines := |Split(newValue, '\n')|;
      lineNumbers := Numbered(lines);
    }

    /** A re-render with a new `value` prop leaves the gutter as it was. */
    method Rerender(newValue: string)
      modifies this
      ensures value == newValue && lineNumbers == old(lineNumbers)
    {
      value := newValue;
    }
  }
}
