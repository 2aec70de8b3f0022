/**
 * The code table of the Morse generator: a fixed dictionary from a (lower-case)
 * character to its code, written with '.' for a dot and '_' for a dash, and the
 * case folding applied before every lookup.
 */
module MorseTable {

  datatype Option<T> = None | Some(value: T)

  predicate IsUpper(c: char) { 'A' <= c <= 'Z' }

  /** The Kelvin sign, whose lower-case form is the Latin letter k. */
  const KelvinSign: char := '\U{212A}'

  /**
   * Lower-casing as it affects table lookups: upper-case ASCII letters move down by 32
   * code points, the Kelvin sign becomes 'k', and everything else stays.
   */
  function ToLower(c: char): (r: char)
    ensures IsUpper(c) ==> 'a' <= r <= 'z' && r as int == c as int + 32
    ensures c == KelvinSign ==> r == 'k'
    ensures !IsUpper(c) && c != KelvinSign ==> r == c
    ensures !IsUpper(r) && r != KelvinSign
  {
    if IsUpper(c) then (c as int + 32) as char
    else if c == KelvinSign then 'k'
    else c
  }

  /** A code made of dots and dashes only, at least one of them. */
  predicate IsSignal(code: string) {
    |code| > 0 && forall k :: 0 <= k < |code| ==> code[k] == '.' || code[k] == '_'
  }

  /**
   * The dictionary itself, with an explicit "not in the dictionary" outcome instead of
   * an undefined entry. Keys are lower-case; the space maps to " ", an element that
   * plays nothing.
   */
  function Lookup(c: char): (r: Option<string>)
    ensures ('a' <= c <= 'z' || '0' <= c <= '9') ==> r.Some?
    ensures IsUpper(c) ==> r == None
    ensures c == ' ' ==> r == Some(" ")
    ensures r.Some? && c != ' ' ==> IsSignal(r.value)
  {
    match c
    case 'a' => Some("._")  case 'b' => Some("_...")  case 'c' => Some("_._.")  case 'd' => Some("_..")
    case 'e' => Some(".")  case 'f' => Some(".._.")  case 'g' => Some("__.")  case 'h' => Some("....")
    case 'i' => Some("..")  case 'j' => Some(".___")  case 'k' => Some("_._")  case 'l' => Some("._..")
    case 'm' => Some("__")  case 'n' => Some("_.")  case 'o' => Some("___")  case 'p' => Some(".__.")
    case 'q' => Some("__._")  case 'r' => Some("._.")  case 's' => Some("...")  case 't' => Some("_")
    case 'u' => Some(".._")  case 'v' => Some("..._")  case 'w' => Some(".__")  case 'x' => Some("_.._")
    case 'y' => Some("_.__")  case 'z' => Some("__..")  case ' ' => Some(" ")
    case '1' => Some(".____")  case '2' => Some("..___")  case '3' => Some("...__")  case '4' => Some("...._")  case '5' => Some(".....")
    case '6' => Some("_....")  case '7' => Some("__...")  case '8' => Some("___..")  case '9' => Some("____.")  case '0' => Some("_____")
    case '.' => Some("._._._")  case ',' => Some("__..__")  case '?' => Some("..__..")  case '\'' => Some(".____.")
    case '/' => Some("_.._.")  case '(' => Some("_.__.")  case ')' => Some("_.__._")  case '&' => Some("._...")
    case ':' => Some("___...")  case ';' => Some("_._._.")  case '=' => Some("_..._")  case '+' => Some("._._.")
    case '-' => Some("_...._")  case '_' => Some("..__._")  case '\"' => Some("._.._.")  case '$' => Some("..._.._")
    case '!' => Some("_._.__")  case '@' => Some(".__._.")
    case _ => None
  }
}
