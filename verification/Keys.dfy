/** The decoded keys of the overlay (admin/src/keys.mjs) and the one-line input they edit (admin/src/panel.mjs). */
module Keys {
  import opened Wrappers

  /** `Char` is one printable character, `Paste` several at once; `Other` is a control sequence no view names. */
  datatype Key =
    | Escape | Enter | Tab | Backspace
    | Up | Down | Left | Right | PageUp | PageDown | Home | End
    | Char(c: char) | Paste(s: string) | Other

  /** A letter key in either case: `data === "x" || data === "X"`. */
  predicate Is(k: Key, lower: char, upper: char) {
    k == Char(lower) || k == Char(upper)
  }

  datatype LineInput = LineInput(value: string, cursor: nat) {
    function At(): nat {
      if cursor <= |value| then cursor else |value|
    }
  }

  /** Text as the input takes it: `scrubControls`, whatever it substitutes, and no half characters. */
  const Entered: string -> string

  function MakeLineInput(initial: string): LineInput {
    LineInput(Entered(initial), |Entered(initial)|)
  }

  function Insert(i: LineInput, text: string): LineInput {
    var c, clean := i.At(), Entered(text);
    if clean == "" then i else LineInput(i.value[..c] + clean + i.value[c..], c + |clean|)
  }

  /** One editing key; a key that edits nothing leaves the input as it is. */
  function EditLine(i: LineInput, k: Key): LineInput {
    var c := i.At();
    match k
    case Backspace => if c == 0 then i else LineInput(i.value[..c - 1] + i.value[c..], c - 1)
    case Left => if c == 0 then i else LineInput(i.value, c - 1)
    case Right => if c == |i.value| then i else LineInput(i.value, c + 1)
    case Home => LineInput(i.value, 0)
    case End => LineInput(i.value, |i.value|)
    case Char(ch) => Insert(i, [ch])
    case Paste(s) => Insert(i, s)
    case _ => i
  }

  /**
   What the editing keys do to one another: a backspace takes back a character typed, an arrow takes back the other, Home
   and End go to the ends, and the cursor stays in the text.
   */
  lemma EditingLaws(i: LineInput, c: char)
    requires i.cursor <= |i.value|
    ensures |Entered([c])| == 1 ==> EditLine(EditLine(i, Char(c)), Backspace) == i
    ensures i.cursor > 0 ==> EditLine(EditLine(i, Left), Right) == i
    ensures i.cursor < |i.value| ==> EditLine(EditLine(i, Right), Left) == i
    ensures i.cursor > 0 ==> EditLine(EditLine(i, End), Home) == LineInput(i.value, 0) && EditLine(EditLine(i, Home), End) == LineInput(i.value, |i.value|)
    ensures forall k :: EditLine(i, k).cursor <= |EditLine(i, k).value|
    ensures EditLine(i, Escape) == EditLine(i, Enter) == EditLine(i, Other) == i
  {
    var typed := EditLine(i, Char(c));
    if |Entered([c])| == 1 {
      assert typed.value[..i.cursor] == i.value[..i.cursor] && typed.value[i.cursor + 1..] == i.value[i.cursor..];
    }
  }

  /** The white space and line terminators that `String.prototype.trim` removes (sections 12.2 and 12.3 of ECMA-262). */
  predicate JsSpace(c: char) {
    c in {' ', '\t', '\n', '\r', '\U{B}', '\U{C}', '\U{A0}', '\U{1680}', '\U{2028}', '\U{2029}', '\U{202F}', '\U{205F}', '\U{3000}', '\U{FEFF}'}
    || '\U{2000}' <= c <= '\U{200A}'
  }

  predicate Blank(s: string) {
    forall i :: 0 <= i < |s| ==> JsSpace(s[i])
  }
}
