/** An independent statement of the parts of the Code 39 symbology that the
    encoder must reproduce, written from ISO/IEC 16388:2007: the character
    encodation table of clause 4.3 (Table 1) and the character values that
    the optional modulo-43 check character of its check-character annex sums. */
module Iso16388 {
  import opened Wrappers

  /** The value of a data character for the modulo-43 check character.
      The start/stop character `*` is not a data character and has none. */
  function CheckValue(ch: char): (r: Option<nat>)
    ensures r.Some? ==> r.value < 43
  {
    if '0' <= ch <= '9' then Some((ch - '0') as nat)
    else if 'A' <= ch <= 'Z' then Some((ch - 'A') as nat + 10)
    else match ch
      case '-' => Some(36)
      case '.' => Some(37)
      case ' ' => Some(38)
      case '$' => Some(39)
      case '/' => Some(40)
      case '+' => Some(41)
      case '%' => Some(42)
      case _ => None
  }

  /** The nine elements of a symbol character, bar first and alternating bar
      and space, written '1' for a wide element and '0' for a narrow one. */
  function Encodation(ch: char): Option<string>
  {
    match ch
    case '0' => Some("000110100")
    case '1' => Some("100100001")
    case '2' => Some("001100001")
    case '3' => Some("101100000")
    case '4' => Some("000110001")
    case '5' => Some("100110000")
    case '6' => Some("001110000")
    case '7' => Some("000100101")
    case '8' => Some("100100100")
    case '9' => Some("001100100")
    case 'A' => Some("100001001")
    case 'B' => Some("001001001")
    case 'C' => Some("101001000")
    case 'D' => Some("000011001")
    case 'E' => Some("100011000")
    case 'F' => Some("001011000")
    case 'G' => Some("000001101")
    case 'H' => Some("100001100")
    case 'I' => Some("001001100")
    case 'J' => Some("000011100")
    case 'K' => Some("100000011")
    case 'L' => Some("001000011")
    case 'M' => Some("101000010")
    case 'N' => Some("000010011")
    case 'O' => Some("100010010")
    case 'P' => Some("001010010")
    case 'Q' => Some("000000111")
    case 'R' => Some("100000110")
    case 'S' => Some("001000110")
    case 'T' => Some("000010110")
    case 'U' => Some("110000001")
    case 'V' => Some("011000001")
    case 'W' => Some("111000000")
    case 'X' => Some("010010001")
    case 'Y' => Some("110010000")
    case 'Z' => Some("011010000")
    case '-' => Some("010000101")
    case '.' => Some("110000100")
    case ' ' => Some("011000100")
    case '$' => Some("010101000")
    case '/' => Some("010100010")
    case '+' => Some("010001010")
    case '%' => Some("000101010")
    case '*' => Some("010010100")
    case _ => None
  }

  /** Distinct data characters have distinct values. */
  lemma CheckValueInjective(a: char, b: char)
    requires CheckValue(a).Some? && CheckValue(a) == CheckValue(b)
    ensures a == b
  {
  }

  /** The encodable characters are the 43 data characters and `*`. */
  lemma Encodable(ch: char)
    ensures Encodation(ch).Some? <==> CheckValue(ch).Some? || ch == '*'
  {
  }

  /** The data character of value `v`: the digits, then the letters, then
      the seven punctuation characters in the order of Table 1. */
  function DataCharacter(v: nat): char
    requires v < 43
  {
    if v < 10 then ('0' as int + v) as char
    else if v < 36 then ('A' as int + (v - 10)) as char
    else "-. $/+%"[v - 36]
  }

  /** The sum of the values of the characters of `s`, or None when one of
      them has no value. */
  function ValueSum(s: string): Option<nat>
  {
    if s == [] then Some(0)
    else
      match (ValueSum(s[..|s| - 1]), CheckValue(s[|s| - 1]))
      case (Some(total), Some(v)) => Some(total + v)
      case _ => None
  }

  /** One more character with a value adds that value to the sum. */
  lemma ValueSumSnoc(t: string, s: string, ch: char, total: nat, v: nat, sum: nat)
    requires t == s + [ch] && ValueSum(s) == Some(total) && CheckValue(ch) == Some(v)
    requires sum == total + v
    ensures ValueSum(t) == Some(sum)
  {
    assert t[..|s|] == s;
  }

  /** The modulo-43 check character of the data characters `s`: the data
      character whose value is the sum of their values modulo 43. */
  function CheckCharacter(s: string): (r: Option<char>)
    ensures r.Some? ==> CheckValue(r.value).Some?
  {
    match ValueSum(s)
    case Some(total) => ValueOrder(total % 43); Some(DataCharacter(total % 43))
    case None => None
  }

  /** The data character of value `v` has value `v`. */
  lemma ValueOrder(v: nat)
    requires v < 43
    ensures CheckValue(DataCharacter(v)) == Some(v)
  {
  }
}
