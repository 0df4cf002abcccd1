/** Hexadecimal digits as ctype.h of pjlib writes and reads them. */
module Hex {
  function HexDigit(n: nat): (c: char)
    requires n < 16
    ensures HexVal(c) == n && c != '"' && c != '\\' && c != '\n'
  {
    if n < 10 then '0' + n as char else 'a' + (n - 10) as char
  }

  /** pj_hex_digit_to_val: it does not check that c is a hexadecimal digit. */
  function HexVal(c: char): (n: nat)
    ensures n < 16
  {
    (if c <= '9' then c as int - '0' as int
     else if c <= 'F' then c as int - 'A' as int + 10
     else c as int - 'a' as int + 10) % 16
  }

  /** pj_isxdigit */
  predicate IsHex(c: char) {
    '0' <= c <= '9' || 'a' <= c <= 'f' || 'A' <= c <= 'F'
  }

  /** c is a hexadecimal digit of value n, in either case. */
  predicate Denotes(c: char, n: int) {
    || (0 <= n < 10 && c as int == 48 + n)
    || (10 <= n < 16 && (c as int == 97 + (n - 10) || c as int == 65 + (n - 10)))
  }

  /** Every hexadecimal digit has its value, and there are no others. */
  lemma DigitValues(c: char)
    ensures IsHex(c) <==> Denotes(c, HexVal(c))
    ensures forall n :: Denotes(c, n) ==> HexVal(c) == n
  {
  }

  lemma DigitValue(c: char, n: int)
    requires Denotes(c, n)
    ensures HexVal(c) == n && 0 <= n < 16 && c != '"' && c != '\\' && c != '\n'
  {
  }

  /** pj_val_to_hex_digit: the low byte of a character in two digits. */
  function Hex2(c: char): (s: string)
    ensures |s| == 2
  {
    [HexDigit(c as int / 16 % 16), HexDigit(c as int % 16)]
  }

  function FromHex(x: char, y: char): (c: char)
    ensures c as int < 256
  {
    (HexVal(x) * 16 + HexVal(y)) as char
  }

  lemma HexRoundTrip(c: char)
    requires c as int < 256
    ensures FromHex(Hex2(c)[0], Hex2(c)[1]) == c && IsHex(Hex2(c)[0]) && IsHex(Hex2(c)[1])
  {
  }
}
