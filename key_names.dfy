/** `getKeyName(code)`, shared by both sidebar editors: the label shown for a stored key
    binding, which is a `keyCode` written as a decimal string. */
module KeyNames {
  import opened Wrappers
  import opened Text

  /** The named keys of the label table. */
  function KeyTable(n: int): (r: Option<string>)
    ensures r.Some? ==> r.value != ""
  {
    match n
    case 8 => Some("Backspace")
    case 9 => Some("Tab")
    case 13 => Some("Enter")
    case 16 => Some("Shift")
    case 17 => Some("Ctrl")
    case 18 => Some("Alt")
    case 27 => Some("Esc")
    case 32 => Some("Space")
    case 37 => Some("Left")
    case 38 => Some("Up")
    case 39 => Some("Right")
    case 40 => Some("Down")
    case 46 => Some("Del")
    case 112 => Some("F1")
    case 113 => Some("F2")
    case 114 => Some("F3")
    case 115 => Some("F4")
    case 116 => Some("F5")
    case 117 => Some("F6")
    case 118 => Some("F7")
    case 119 => Some("F8")
    case 120 => Some("F9")
    case 121 => Some("F10")
    case 122 => Some("F11")
    case 123 => Some("F12")
    case _ => None
  }

  /** Letter keys (`65`–`90`) and digit keys (`48`–`57`) are shown as their character. */
  predicate IsCharKey(n: int) {
    65 <= n <= 90 || 48 <= n <= 57
  }

  /** The label of a parsed key code. */
  function NameOf(n: int): (r: string)
    ensures r != ""
  {
    if KeyTable(n).Some? then KeyTable(n).value
    else if IsCharKey(n) then [n as char]
    else "Key" + IntToString(n)
  }

  /** `getKeyName(code)`: no label for a missing or empty binding; otherwise the code is read
      with `parseInt` and labelled, and a code that is not a number at all reads `KeyNaN`. */
  function GetKeyName(code: Option<string>): (r: string)
    ensures r == "" <==> code.None? || code.value == ""
  {
    if code.None? || code.value == "" then ""
    else match ParseInt(code.value, false)
      case None => "KeyNaN"
      case Some(n) => NameOf(n)
  }

  /** The label of a binding captured from key code `c` (stored as `String(keyCode)`): letters
      and digits show themselves, named keys their name, the rest `Key` and the code. */
  lemma CapturedKeyName(c: int)
    ensures KeyTable(c).Some? ==> GetKeyName(Some(IntToString(c))) == KeyTable(c).value
    ensures IsCharKey(c) ==> GetKeyName(Some(IntToString(c))) == [c as char]
    ensures KeyTable(c).None? && !IsCharKey(c) ==> GetKeyName(Some(IntToString(c))) == "Key" + IntToString(c)
  {
    ParseIntOfIntToString(c);
  }
}
