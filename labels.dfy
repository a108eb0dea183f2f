/**
 * The label formatter used for each request line of the email:
 * `key.replace('_', ' ').capitalize()`, restricted to ASCII letters
 * (every other character is left as it is).
 */
module Labels {

  predicate IsAsciiUpper(c: char) { 'A' <= c <= 'Z' }

  predicate IsAsciiLower(c: char) { 'a' <= c <= 'z' }

  function ToUpper(c: char): (u: char)
    ensures !IsAsciiLower(u)
    ensures IsAsciiLower(c) ==> u as int == c as int - 32
    ensures !IsAsciiLower(c) ==> u == c
  {
    if IsAsciiLower(c) then (c as int - 32) as char else c
  }

  function ToLower(c: char): (l: char)
    ensures !IsAsciiUpper(l)
    ensures IsAsciiUpper(c) ==> l as int == c as int + 32
    ensures !IsAsciiUpper(c) ==> l == c
  {
    if IsAsciiUpper(c) then (c as int + 32) as char else c
  }

  /** `s.replace('_', ' ')`: every underscore becomes a space, nothing else moves. */
  function ReplaceUnderscores(s: string): (r: string)
  {
    seq(|s|, i requires 0 <= i < |s| => if s[i] == '_' then ' ' else s[i])
  }

  /** `s.capitalize()`: the first character in upper case, the rest in lower case. */
  function Capitalize(s: string): (r: string)
  {
    seq(|s|, i requires 0 <= i < |s| => if i == 0 then ToUpper(s[i]) else ToLower(s[i]))
  }

  /**
   * The label shown for a request key in the email. Stated against the key
   * itself: underscores become spaces, the first other character is raised,
   * every later one lowered, and the length is kept.
   */
  function FormatLabel(key: string): (r: string)
    ensures |r| == |key|
    ensures forall i :: 0 <= i < |key| && key[i] == '_' ==> r[i] == ' '
    ensures |key| > 0 && key[0] != '_' ==> r[0] == ToUpper(key[0])
    ensures forall i :: 0 < i < |key| && key[i] != '_' ==> r[i] == ToLower(key[i])
  {
    Capitalize(ReplaceUnderscores(key))
  }

  /** A formatted label holds no underscore, and no upper-case letter after its first character. */
  lemma FormatLabelShape(key: string)
    ensures forall i :: 0 <= i < |key| ==> FormatLabel(key)[i] != '_'
    ensures forall i :: 0 < i < |key| ==> !IsAsciiUpper(FormatLabel(key)[i])
    ensures |key| > 0 ==> !IsAsciiLower(FormatLabel(key)[0])
  {
  }

  /** Formatting an already formatted label changes nothing. */
  lemma FormatLabelIdempotent(key: string)
    ensures FormatLabel(FormatLabel(key)) == FormatLabel(key)
  {
  }

  /** `cargo_type` is shown as "Cargo type": the underscore becomes a space. */
  lemma FormatLabelCargoType()
    ensures FormatLabel("cargo_type") == "Cargo type"
  {
  }

  /** `weightUnit` is shown as "Weightunit": the inner capital is lowered. */
  lemma FormatLabelWeightUnit()
    ensures FormatLabel("weightUnit") == "Weightunit"
  {
  }
}
