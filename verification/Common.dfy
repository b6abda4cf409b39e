/** Shared by the models. */
module Common {

  /** An SQL or Python value that may be absent. */
  datatype Option<+T> = None | Some(value: T)
  {
    function GetOr(default: T): T {
      match this
      case Some(v) => v
      case None => default
    }
  }

  function TrimLeft(text: string): string {
    if text != [] && text[0] == ' ' then TrimLeft(text[1..]) else text
  }

  function TrimRight(text: string): string {
    if text != [] && text[|text| - 1] == ' ' then TrimRight(text[..|text| - 1]) else text
  }

  /** SQL's `btrim`: without the blanks at both ends. */
  function Trim(text: string): string {
    TrimRight(TrimLeft(text))
  }

  predicate Digit(c: char) {
    '0' <= c <= '9'
  }

  predicate White(c: char) {
    c == ' ' || '\t' <= c <= '\r'
  }

  /** `regexp_replace(text, '\s+', ' ', 'g')`. */
  function Collapse(text: string): string {
    if text == [] then []
    else
      var n := |text| - 1;
      var before := Collapse(text[..n]);
      if !White(text[n]) then before + [text[n]]
      else if before != [] && before[|before| - 1] == ' ' then before
      else before + [' ']
  }

  function Squeezed(text: string): string {
    Trim(Collapse(text))
  }
}
