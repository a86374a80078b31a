/** The parts of Python's strings that both the settings and the configuration rewriting rest on: what ends a line,
    what counts as white space, str.strip, and the decimal text of a number. */
module PyText {
  predicate IsEnd(c: char) {
    '\n' <= c <= '\r' || '\U{1c}' <= c <= '\U{1e}' || c == '\U{85}' || c == '\U{2028}' || c == '\U{2029}'
  }

  predicate IsSpace(c: char) {
    IsEnd(c) || c == ' ' || c == '\t' || c == '\U{1f}' || c == '\U{a0}' || c == '\U{1680}'
      || '\U{2000}' <= c <= '\U{200a}'
    || c == '\U{202f}' || c == '\U{205f}' || c == '\U{3000}'
  }

  /** The ten characters that end a line, and the twenty-nine that are white space. */
  lemma {:induction false} EndsExactly(c: char)
    ensures IsEnd(c) <==>
      c in "\n\r\U{b}\U{c}\U{1c}\U{1d}\U{1e}\U{85}\U{2028}\U{2029}"
    ensures IsSpace(c) <==>
      || c in "\n\r\U{b}\U{c}\U{1c}\U{1d}\U{1e}\U{85}\U{2028}\U{2029}"
      || c in " \t\U{1f}\U{a0}\U{1680}\U{202f}\U{205f}\U{3000}"
      || c in "\U{2000}\U{2001}\U{2002}\U{2003}\U{2004}\U{2005}\U{2006}\U{2007}\U{2008}\U{2009}\U{200a}"
  {
    EndIsNamed(c);
    if '\U{2000}' <= c <= '\U{200a}' {
      var wide := "\U{2000}\U{2001}\U{2002}\U{2003}\U{2004}\U{2005}\U{2006}\U{2007}\U{2008}\U{2009}\U{200a}";
      assert wide[c as int - 0x2000] == c;
    }
    var others := " \t\U{1f}\U{a0}\U{1680}\U{202f}\U{205f}\U{3000}";
    assert others[0] == ' ' && others[1] == '\t' && others[2] == '\U{1f}' && others[3] == '\U{a0}'
      && others[4] == '\U{1680}' && others[5] == '\U{202f}' && others[6] == '\U{205f}' && others[7] == '\U{3000}';
  }

  lemma {:induction false} EndIsNamed(c: char)
    ensures IsEnd(c) <==> c in "\n\r\U{b}\U{c}\U{1c}\U{1d}\U{1e}\U{85}\U{2028}\U{2029}"
  {
    var ends := "\n\r\U{b}\U{c}\U{1c}\U{1d}\U{1e}\U{85}\U{2028}\U{2029}";
    assert ends[0] == '\n' && ends[1] == '\r' && ends[2] == '\U{b}' && ends[3] == '\U{c}' && ends[4] == '\U{1c}'
      && ends[5] == '\U{1d}' && ends[6] == '\U{1e}' && ends[7] == '\U{85}' && ends[8] == '\U{2028}'
      && ends[9] == '\U{2029}';
  }

  function LeftStripped(s: string): string {
    if s != "" && IsSpace(s[0]) then LeftStripped(s[1..]) else s
  }

  function Stripped(s: string): string {
    RightStripped(LeftStripped(s))
  }

  function RightStripped(s: string): string {
    if s != "" && IsSpace(s[|s| - 1]) then RightStripped(s[..|s| - 1]) else s
  }

  predicate Digit(c: char) {
    '0' <= c <= '9'
  }

  predicate AllDigits(s: string) {
    s != "" && forall i | 0 <= i < |s| :: Digit(s[i])
  }

  function Decimal(n: nat): (s: string)
    ensures AllDigits(s)
  {
    (if n < 10 then "" else Decimal(n / 10)) + ['0' + (n % 10) as char]
  }
}
