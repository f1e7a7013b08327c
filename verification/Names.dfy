/** DNS labels: the rule shared by the parser, the router and the registry. */
module Names {
  predicate LowerAlnum(c: char) { 'a' <= c <= 'z' || '0' <= c <= '9' }

  /** One to 63 of a-z, 0-9 and hyphen, with no hyphen at either end. */
  predicate ValidLabel(s: string) {
    && 1 <= |s| <= 63
    && LowerAlnum(s[0]) && LowerAlnum(s[|s| - 1])
    && forall i | 0 <= i < |s| :: LowerAlnum(s[i]) || s[i] == '-'
  }

  function LowerChar(c: char): char { if 'A' <= c <= 'Z' then c + 32 as char else c }

  /** ASCII case folding, which is that of bytes. */
  function Lower(s: string): (r: string)
    ensures |r| == |s| && forall i | 0 <= i < |s| :: r[i] == LowerChar(s[i])
  {
    seq(|s|, i requires 0 <= i < |s| => LowerChar(s[i]))
  }

  const KELVIN_SIGN := '\U{212A}'

  function FoldChar(c: char): char { if c == KELVIN_SIGN then 'k' else LowerChar(c) }

  /** Unicode case folding, as far as labels go: the Kelvin sign is the one character outside
      ASCII that folds to a character of a label. */
  function Fold(s: string): (r: string)
    ensures |r| == |s| && forall i | 0 <= i < |s| :: r[i] == FoldChar(s[i])
  {
    seq(|s|, i requires 0 <= i < |s| => FoldChar(s[i]))
  }
}
