/** The panel's settings, desktop/orbit_settings.py: any stored JSON is turned into settings that meet the schema.
    Numbers are mathematical; case folding, number parsing and the text of unusual values are parameters. */
module Settings {
  import opened Common
  import opened PyText

  /** What Python's float can give. */
  datatype Number = Finite(at: real) | NaN | Infinite(negative: bool)

  datatype Json =
    | Null
    | Bool(on: bool)
    | Int(n: int)
    | Real(number: Number)
    | Str(text: string)
    | List(items: seq<Json>)
    | Obj(fields: map<string, Json>)

  /** Python's str.casefold, float of a text, and str of a value that is no text, whole number, switch or null. */
  datatype Python = Python(fold: string -> string, parse: string -> Option<Number>, show: Json -> string)

  predicate Small(s: string) {
    forall i | 0 <= i < |s| :: 'a' <= s[i] <= 'z'
  }

  predicate Ascii(s: string) {
    forall i | 0 <= i < |s| :: s[i] < '\U{80}'
  }

  function Lower(s: string): (t: string)
    ensures |t| == |s|
  {
    seq(|s|, i requires 0 <= i < |s| => if 'A' <= s[i] <= 'Z' then s[i] - 'A' + 'a' else s[i])
  }

  /** On ASCII text, folding makes letters small. */
  ghost predicate Lawful(py: Python) {
    forall s | Ascii(s) :: py.fold(s) == Lower(s)
  }

  // --- The schema ----------------------------------------------------------------------------------

  datatype Kind =
    | Switch
    | Choice(choices: seq<string>)
    | Whole(low: int, high: int)
    | Fraction
    | Monitor
    | AccentColor
    | Colors

  const EDGES: seq<string> := ["left", "right", "top", "bottom"]
  const STYLES: seq<string> := ["mark", "bar", "dot", "count"]

  const DEFAULT_COLORS: map<string, Json> :=
    map["idle" := Str("#8a8a8a"), "working" := Str("#255fce"), "paused" := Str("#ff9800"), "offline" := Str("#585858")]

  datatype Entry = Entry(key: string, kind: Kind, fallback: Json)

  /** Every setting that is stored, with its kind and its default. */
  const SCHEMA: seq<Entry> := [
    Entry("edge", Choice(EDGES), Str("right")),
    Entry("monitor", Monitor, Null),
    Entry("margin", Whole(0, 64), Int(0)),
    Entry("position", Fraction, Real(Finite(0.5))),
    Entry("style", Choice(STYLES), Str("mark")),
    Entry("size", Whole(6, 40), Int(8)),
    Entry("hideWhenIdle", Switch, Bool(false)),
    Entry("colors", Colors, Obj(DEFAULT_COLORS)),
    Entry("frame", Switch, Bool(true)),
    Entry("framePulse", Switch, Bool(true)),
    Entry("frameColor", AccentColor, Str("#255fce")),
    Entry("motion", Switch, Bool(true)),
    Entry("blend", Whole(30, 100), Int(80)),
    Entry("notifications", Switch, Bool(true)),
    Entry("blink", Switch, Bool(true))]

  // --- Coercing one value --------------------------------------------------------------------------

  function ParseInt(s: string): nat
    requires forall i | 0 <= i < |s| :: Digit(s[i])
  {
    if s == "" then 0
    else
      assert Digit(s[|s| - 1]);
      10 * ParseInt(s[..|s| - 1]) + (s[|s| - 1] as int - '0' as int)
  }

  predicate HexDigit(c: char) {
    '0' <= c <= '9' || 'a' <= c <= 'f' || 'A' <= c <= 'F'
  }

  predicate IsHex(s: string) {
    |s| == 7 && s[0] == '#' && forall i | 1 <= i < 7 :: HexDigit(s[i])
  }

  function Show(py: Python, v: Json): string {
    match v
    case Str(s) => s
    case Null => "None"
    case Bool(b) => if b then "True" else "False"
    case Int(n) => if n < 0 then "-" + Decimal(-n) else Decimal(n)
    case _ => py.show(v)
  }

  function Float(py: Python, v: Json): Option<Number> {
    match v
    case Str(s) => py.parse(s)
    case Bool(b) => Some(Finite(if b then 1.0 else 0.0))
    case Int(n) => Some(Finite(n as real))
    case Real(x) => Some(x)
    case _ => None
  }

  /** min(high, max(low, number)), where no comparison with a NaN holds. */
  function Clamped(low: real, high: real, x: Number): real {
    match x
    case Finite(r) => if r > low then (if r < high then r else high) else (if low < high then low else high)
    case NaN => low
    case Infinite(negative) => if negative then low else high
  }

  /** Python's round: to the nearest whole number, and halfway to the even one. */
  function Rounded(r: real): int {
    var down := r.Floor;
    var rest := r - down as real;
    if rest < 0.5 then down else if rest > 0.5 then down + 1 else if down % 2 == 0 then down else down + 1
  }

  /** A value, and whether a note reports that it is not the one stored. */
  datatype Coerced = Coerced(value: Json, note: bool)

  const UNUSABLE := Coerced(Null, true)

  function GoodColors(fields: map<string, Json>): map<string, Json> {
    map state | state in DEFAULT_COLORS ::
      if state in fields && fields[state].Str? && IsHex(fields[state].text) then fields[state]
        else DEFAULT_COLORS[state]
  }

  function Coerce(py: Python, kind: Kind, v: Json): Coerced {
    match kind
    case Switch =>
      if v.Bool? then Coerced(v, false)
      else
        var text := py.fold(Stripped(Show(py, v)));
        if text in ["true", "on", "yes", "1"] then Coerced(Bool(true), false)
        else if text in ["false", "off", "no", "0"] then Coerced(Bool(false), false)
        else UNUSABLE
    case Choice(choices) =>
      var text := py.fold(Stripped(Show(py, v)));
      if text in choices then Coerced(Str(text), false) else UNUSABLE
    case Whole(low, high) =>
      var x := Float(py, v);
      if x.None? then UNUSABLE
      else
        var clamped := Clamped(low as real, high as real, x.value);
        Coerced(Int(Rounded(clamped)), x.value != Finite(clamped))
    case Fraction =>
      var x := Float(py, v);
      if x.None? then UNUSABLE
      else
        var clamped := Clamped(0.0, 1.0, x.value);
        Coerced(Real(Finite(clamped)), x.value != Finite(clamped))
    case Monitor =>
      var text := Stripped(Show(py, v));
      if py.fold(text) in ["", "none", "auto", "null"] then Coerced(Null, false)
      else if AllDigits(text) then Coerced(Int(ParseInt(text)), false)
      else Coerced(Str(text), false)
    case AccentColor =>
      var text := Stripped(Show(py, v));
      if py.fold(text) == "accent" then Coerced(Str("accent"), false)
      else if IsHex(text) then Coerced(Str(text), false)
      else UNUSABLE
    case Colors =>
      if v.Obj? then Coerced(Obj(GoodColors(v.fields)), false) else UNUSABLE
  }

  // --- What a setting may be -------------------------------------------------------------------------

  /** The rule of each kind, which says nothing of how a value came about. */
  predicate Meets(py: Python, kind: Kind, v: Json) {
    match kind
    case Switch => v.Bool?
    case Choice(choices) => v.Str? && v.text in choices
    case Whole(low, high) => v.Int? && low <= v.n <= high
    case Fraction => v.Real? && v.number.Finite? && 0.0 <= v.number.at <= 1.0
    case Monitor =>
      v.Null? || (v.Int? && v.n >= 0)
      || (v.Str? && Stripped(v.text) == v.text && py.fold(v.text) !in ["", "none", "auto", "null"]
          && !AllDigits(v.text))
    case AccentColor => v.Str? && (v.text == "accent" || (IsHex(v.text) && py.fold(v.text) != "accent"))
    case Colors => v.Obj? && v.fields.Keys == DEFAULT_COLORS.Keys && forall state <- v.fields ::
      v.fields[state].Str? && IsHex(v.fields[state].text)
  }

  predicate Sensible(kind: Kind) {
    match kind
    case Choice(choices) => forall i | 0 <= i < |choices| :: choices[i] != "" && Small(choices[i])
    case Whole(low, high) => low <= high
    case _ => true
  }

  lemma {:induction false} RoundedStaysBetween(r: real, low: int, high: int)
    requires low as real <= r <= high as real
    ensures low <= Rounded(r) <= high
  {
  }

  lemma {:induction false} SmallIsStripped(s: string)
    requires s != "" && !IsSpace(s[0]) && !IsSpace(s[|s| - 1])
    ensures Stripped(s) == s
  {
  }

  lemma {:induction false} StrippedEnds(s: string)
    ensures var t := Stripped(s);
      t == "" || (!IsSpace(t[0]) && !IsSpace(t[|t| - 1]))
  {
    LeftStrippedBegins(s);
    RightStrippedEnds(LeftStripped(s));
  }

  lemma {:induction false} LeftStrippedBegins(s: string)
    ensures LeftStripped(s) == "" || !IsSpace(LeftStripped(s)[0])
  {
    if s != "" && IsSpace(s[0]) {
      LeftStrippedBegins(s[1..]);
    }
  }

  lemma {:induction false} RightStrippedEnds(s: string)
    ensures var t := RightStripped(s);
      t <= s && (t == "" || !IsSpace(t[|t| - 1]))
  {
    if s != "" && IsSpace(s[|s| - 1]) {
      RightStrippedEnds(s[..|s| - 1]);
    }
  }

  lemma {:induction false} StrippedTwice(s: string)
    ensures Stripped(Stripped(s)) == Stripped(s)
  {
    StrippedEnds(s);
    if Stripped(s) != "" {
      SmallIsStripped(Stripped(s));
    }
  }

  lemma {:induction false} ParseOfDecimal(n: nat)
    ensures ParseInt(Decimal(n)) == n
  {
    var s := Decimal(n);
    if n >= 10 {
      ParseOfDecimal(n / 10);
      assert s[..|s| - 1] == Decimal(n / 10);
    } else {
      assert s[..|s| - 1] == "";
    }
  }

  // --- Every usable value is kept, and every other becomes one ----------------------------------------

  lemma {:induction false} SmallFolds(py: Python, s: string)
    requires Lawful(py) && Small(s)
    ensures py.fold(s) == s
  {
    assert Ascii(s);
    assert Lower(s) == s;
  }

  lemma {:induction false} DigitsAreText(py: Python, s: string)
    requires Lawful(py) && AllDigits(s)
    ensures Stripped(s) == s && py.fold(s) == s && s !in ["", "none", "auto", "null"]
  {
    SmallIsStripped(s);
    assert Ascii(s) && Lower(s) == s;
    assert Digit(s[0]);
  }

  lemma {:induction false} NoneFolds(py: Python)
    requires Lawful(py)
    ensures Stripped("None") == "None" && py.fold("None") == "none"
  {
    assert Ascii("None") && Lower("None") == "none";
    SmallIsStripped("None");
  }

  lemma {:induction false} HexIsStripped(s: string)
    requires IsHex(s)
    ensures Stripped(s) == s
  {
    assert HexDigit(s[6]);
    SmallIsStripped(s);
  }

  lemma {:induction false} ColorsAreKept(fields: map<string, Json>)
    requires fields.Keys == DEFAULT_COLORS.Keys && forall state <- fields ::
      fields[state].Str? && IsHex(fields[state].text)
    ensures GoodColors(fields) == fields
  {
  }

  lemma {:induction false} DefaultColorsAreHex()
    ensures forall state <- DEFAULT_COLORS :: DEFAULT_COLORS[state].Str? && IsHex(DEFAULT_COLORS[state].text)
  {
  }

  lemma {:induction false} ChoiceIsKept(py: Python, choices: seq<string>, v: Json)
    requires Lawful(py) && Sensible(Choice(choices)) && Meets(py, Choice(choices), v)
    ensures Coerce(py, Choice(choices), v) == Coerced(v, false)
  {
    var k :| 0 <= k < |choices| && choices[k] == v.text;
    SmallFolds(py, v.text);
    SmallIsStripped(v.text);
  }

  lemma {:induction false} MonitorIsKept(py: Python, v: Json)
    requires Lawful(py) && Meets(py, Monitor, v)
    ensures Coerce(py, Monitor, v) == Coerced(v, false)
  {
    NoneFolds(py);
    if v.Int? {
      DigitsAreText(py, Decimal(v.n));
      ParseOfDecimal(v.n);
    }
  }

  lemma {:induction false} AccentIsKept(py: Python, v: Json)
    requires Lawful(py) && Meets(py, AccentColor, v)
    ensures Coerce(py, AccentColor, v) == Coerced(v, false)
  {
    SmallFolds(py, "accent");
    SmallIsStripped("accent");
    if v.text != "accent" {
      HexIsStripped(v.text);
    }
  }

  /** A value that meets its rule is kept as it is, without a note. */
  lemma {:induction false} UsableIsKept(py: Python, kind: Kind, v: Json)
    requires Lawful(py) && Sensible(kind) && Meets(py, kind, v)
    ensures Coerce(py, kind, v) == Coerced(v, false)
  {
    match kind
    case Choice(choices) => ChoiceIsKept(py, choices, v);
    case Monitor => MonitorIsKept(py, v);
    case AccentColor => AccentIsKept(py, v);
    case Colors => ColorsAreKept(v.fields);
    case Whole(_, _) => assert Rounded(v.n as real) == v.n;
    case Switch =>
    case Fraction =>
  }

  lemma {:induction false} MonitorMeets(py: Python, v: Json)
    requires Lawful(py)
    ensures Meets(py, Monitor, Coerce(py, Monitor, v).value)
  {
    StrippedTwice(Show(py, v));
  }

  lemma {:induction false} AccentMeets(py: Python, v: Json)
    requires Lawful(py) && !Coerce(py, AccentColor, v).note
    ensures Meets(py, AccentColor, Coerce(py, AccentColor, v).value)
  {
  }

  /** Whatever is given: what comes back meets the rule, unless there is nothing usable and a note says so. */
  lemma {:induction false} CoercedMeets(py: Python, kind: Kind, v: Json)
    requires Lawful(py) && Sensible(kind)
    ensures var c := Coerce(py, kind, v);
      c != UNUSABLE ==> Meets(py, kind, c.value)
  {
    match kind
    case Whole(low, high) =>
      var x := Float(py, v);
      if x.Some? {
        RoundedStaysBetween(Clamped(low as real, high as real, x.value), low, high);
      }
    case Monitor => MonitorMeets(py, v);
    case AccentColor => if !Coerce(py, AccentColor, v).note { AccentMeets(py, v); }
    case Colors => DefaultColorsAreHex();
    case Choice(choices) =>
    case Switch =>
    case Fraction =>
  }

  /** A value passes through unchanged and unremarked exactly when it meets the rule of its setting. */
  lemma {:induction false} KeptExactlyWhenUsable(py: Python, kind: Kind, v: Json)
    requires Lawful(py) && Sensible(kind)
    ensures Coerce(py, kind, v) == Coerced(v, false) <==> Meets(py, kind, v)
  {
    if Meets(py, kind, v) {
      UsableIsKept(py, kind, v);
    }
    CoercedMeets(py, kind, v);
  }

  // --- What a usable value becomes -------------------------------------------------------------------

  predicate Blank(s: string) {
    forall i | 0 <= i < |s| :: IsSpace(s[i])
  }

  /** A text within white space, its letters capital or small. */
  predicate Wraps(s: string, word: string, before: string, core: string, after: string) {
    s == before + core + after && Blank(before) && Blank(after) && Ascii(core) && Lower(core) == word
  }

  lemma {:induction false} LeftStrippedOf(before: string, rest: string)
    requires Blank(before) && (rest == "" || !IsSpace(rest[0]))
    ensures LeftStripped(before + rest) == rest
  {
    if before == "" {
      assert before + rest == rest;
    } else {
      assert (before + rest)[1..] == before[1..] + rest && (before + rest)[0] == before[0];
      LeftStrippedOf(before[1..], rest);
    }
  }

  lemma {:induction false} RightStrippedOf(rest: string, after: string)
    requires Blank(after) && (rest == "" || !IsSpace(rest[|rest| - 1]))
    ensures RightStripped(rest + after) == rest
  {
    if after == "" {
      assert rest + after == rest;
    } else {
      var n := |rest + after| - 1;
      assert (rest + after)[..n] == rest + after[..|after| - 1] && (rest + after)[n] == after[|after| - 1];
      RightStrippedOf(rest, after[..|after| - 1]);
    }
  }

  /** Stripping takes the white space at both ends, all of it and nothing else. */
  lemma {:induction false} StrippedOf(before: string, core: string, after: string)
    requires Blank(before) && Blank(after) && core != "" && !IsSpace(core[0]) && !IsSpace(core[|core| - 1])
    ensures Stripped(before + core + after) == core
  {
    assert before + core + after == before + (core + after);
    LeftStrippedOf(before, core + after);
    RightStrippedOf(core, after);
  }

  lemma {:induction false} WrappedFolds(py: Python, s: string, word: string, before: string, core: string,
                                        after: string)
    requires Lawful(py) && word != "" && (Small(word) || AllDigits(word)) && Wraps(s, word, before, core, after)
    ensures py.fold(Stripped(s)) == word
  {
    forall i | 0 <= i < |core|
      ensures !IsSpace(core[i])
    {
      assert Lower(core)[i] == word[i];
      assert Digit(word[i]) || 'a' <= word[i] <= 'z';
    }
    StrippedOf(before, core, after);
  }

  /** A switch is on for "true", "on", "yes" and "1", and off for "false", "off", "no" and "0", in any letters and
      within any white space. */
  lemma {:induction false} SwitchWords(py: Python, s: string, word: string, before: string, core: string, after: string)
    requires Lawful(py) && Wraps(s, word, before, core, after)
    ensures word == "true" || word == "on" || word == "yes" || word == "1" ==>
      Coerce(py, Switch, Str(s)) == Coerced(Bool(true), false)
    ensures word == "false" || word == "off" || word == "no" || word == "0" ==>
      Coerce(py, Switch, Str(s)) == Coerced(Bool(false), false)
  {
    if word in ["true", "on", "yes", "1", "false", "off", "no", "0"] {
      WrappedFolds(py, s, word, before, core, after);
      hide Wraps, Stripped;
    }
  }

  /** A choice is taken in any letters and within any white space. */
  lemma {:induction false} ChoiceWords(py: Python, choices: seq<string>, k: nat, s: string, before: string,
                                       core: string, after: string)
    requires Lawful(py) && Sensible(Choice(choices)) && k < |choices| && Wraps(s, choices[k], before, core, after)
    ensures Coerce(py, Choice(choices), Str(s)) == Coerced(Str(choices[k]), false)
  {
    WrappedFolds(py, s, choices[k], before, core, after);
    hide Wraps, Stripped;
  }

  /** The nearest whole number, and of two as near the even one. */
  lemma {:induction false} RoundedIsNearest(r: real)
    ensures -0.5 <= Rounded(r) as real - r <= 0.5
    ensures Rounded(r) as real - r == 0.5 || r - Rounded(r) as real == 0.5 ==> Rounded(r) % 2 == 0
  {
  }

  /** A colour is a number sign and six hexadecimal digits, and nothing else is. */
  lemma {:induction false} ColorsExactly(s: string)
    ensures IsHex(s) <==>
      exists digits: string :: s == "#" + digits && |digits| == 6 && forall c <- digits :: c in HEX
  {
    forall c: char
      ensures HexDigit(c) <==> c in HEX
    {
      HexDigitExactly(c);
    }
    if IsHex(s) {
      assert s == "#" + s[1..];
    }
  }

  const HEX := "0123456789abcdefABCDEF"

  lemma {:induction false} HexDigitExactly(c: char)
    ensures HexDigit(c) <==> c in HEX
  {
    if '0' <= c <= '9' {
      assert HEX[(c - '0') as int] == c;
    } else if 'a' <= c <= 'f' {
      assert HEX[(c - 'a') as int + 10] == c;
    } else if 'A' <= c <= 'F' {
      assert HEX[(c - 'A') as int + 16] == c;
    }
  }

  /** A switch given for a number counts as one or nought. */
  lemma {:induction false} SwitchIsNumber(py: Python, b: bool)
    ensures Coerce(py, Fraction, Bool(b)) == Coerced(Real(Finite(if b then 1.0 else 0.0)), false)
    ensures forall low, high | low <= 0 && high >= 1 ::
      Coerce(py, Whole(low, high), Bool(b)) == Coerced(Int(if b then 1 else 0), false)
  {
  }

  /** A number within its bounds is kept, rounded or not, and one outside becomes the bound it passed, which a note
      tells; infinity passes a bound, and no number is as low as can be. */
  lemma {:induction false} NumbersExactly(py: Python, low: int, high: int, v: Json)
    requires low <= high && Float(py, v).Some?
    ensures var x, c := Float(py, v).value, Coerce(py, Whole(low, high), v);
      && c.value.Int?
      && (c.note <==> !(x.Finite? && low as real <= x.at <= high as real))
      && (x.Finite? && low as real <= x.at <= high as real ==> c.value.n == Rounded(x.at))
      && ((x.Finite? && x.at < low as real) || x == Infinite(true) || x == NaN ==> c.value.n == low)
      && ((x.Finite? && x.at > high as real) || x == Infinite(false) ==> c.value.n == high)
    ensures var x, c := Float(py, v).value, Coerce(py, Fraction, v);
      && c.value.Real? && c.value.number.Finite?
      && (c.note <==> !(x.Finite? && 0.0 <= x.at <= 1.0))
      && (x.Finite? && 0.0 <= x.at <= 1.0 ==> c.value.number.at == x.at)
      && ((x.Finite? && x.at < 0.0) || x == Infinite(true) || x == NaN ==> c.value.number.at == 0.0)
      && ((x.Finite? && x.at > 1.0) || x == Infinite(false) ==> c.value.number.at == 1.0)
  {
    assert Rounded(low as real) == low && Rounded(high as real) == high;
    hide Rounded;
  }

  /** Of the colours that are stored each is taken by itself: a colour of a known state, or that state's default. */
  lemma {:induction false} ColorsOneByOne(py: Python, fields: map<string, Json>)
    ensures var c := Coerce(py, Colors, Obj(fields));
      && c.value.Obj? && !c.note
      && c.value.fields.Keys == {"idle", "working", "paused", "offline"}
      && forall state <- c.value.fields ::
        c.value.fields[state] ==
          if state in fields && fields[state].Str? && IsHex(fields[state].text) then fields[state]
          else DEFAULT_COLORS[state]
  {
    assert DEFAULT_COLORS.Keys == {"idle", "working", "paused", "offline"};
  }

  /** A monitor is named by a number or a text; leading zeros do not count, and a negative number is a text. */
  lemma {:induction false} LeadingZeros(s: string)
    requires s != "" && AllDigits(s)
    ensures ParseInt("0" + s) == ParseInt(s)
  {
    var n := |s| - 1;
    assert ("0" + s)[..n + 1] == "0" + s[..n];
    if n == 0 {
      assert ("0" + s)[..1] == "0" && "0"[..0] == "" && s[..0] == "";
      assert ParseInt("0") == 0;
    } else {
      LeadingZeros(s[..n]);
    }
  }

  lemma {:induction false} NegativeMonitor(py: Python, n: int)
    requires Lawful(py) && n > 0
    ensures Coerce(py, Monitor, Int(-n)) == Coerced(Str("-" + Decimal(n)), false)
  {
    hide Stripped, AllDigits, Decimal, Float, Clamped, Rounded, GoodColors, ParseInt;
    var s := "-" + Decimal(n);
    MinusIsText(py, Decimal(n));
    assert s[0] == '-';
    MinusIsNoWord(s);
  }

  lemma {:induction false} MinusIsText(py: Python, digits: string)
    requires Lawful(py) && AllDigits(digits)
    ensures Stripped("-" + digits) == "-" + digits && py.fold("-" + digits) == "-" + digits
    ensures !AllDigits("-" + digits)
  {
    var s := "-" + digits;
    assert s[0] == '-' && Digit(s[|s| - 1]);
    SmallIsStripped(s);
    assert Ascii(s) && Lower(s) == s;
  }

  lemma {:induction false} MinusIsNoWord(s: string)
    requires s != "" && s[0] == '-'
    ensures s !in ["", "none", "auto", "null"]
  {
  }

  // --- A whole settings file -------------------------------------------------------------------------

  type Settings = map<string, Json>

  predicate Distinct(schema: seq<Entry>) {
    forall i, j | 0 <= i < j < |schema| :: schema[i].key != schema[j].key
  }

  /** A schema whose defaults meet their own rules. */
  predicate Proper(py: Python, schema: seq<Entry>) {
    Distinct(schema) && forall i | 0 <= i < |schema| :: Fits(py, schema[i])
  }

  predicate Fits(py: Python, entry: Entry) {
    Sensible(entry.kind) && Meets(py, entry.kind, entry.fallback)
  }

  /** The value a setting gets from what is stored under its key. */
  function Chosen(py: Python, entry: Entry, stored: map<string, Json>): Json {
    if entry.key !in stored then entry.fallback
    else
      var c := Coerce(py, entry.kind, stored[entry.key]);
      if c == UNUSABLE then entry.fallback else c.value
  }

  function Fields(v: Json): map<string, Json> {
    if v.Obj? then v.fields else map[]
  }

  function Validated(py: Python, schema: seq<Entry>, stored: map<string, Json>): Settings {
    if schema == [] then map[]
    else
      var n := |schema| - 1;
      Validated(py, schema[..n], stored)[schema[n].key := Chosen(py, schema[n], stored)]
  }

  predicate HasKey(schema: seq<Entry>, key: string) {
    exists i :: 0 <= i < |schema| && schema[i].key == key
  }

  lemma {:induction false} ValidatedAt(py: Python, schema: seq<Entry>, stored: map<string, Json>)
    requires Distinct(schema)
    ensures forall i | 0 <= i < |schema| ::
      schema[i].key in Validated(py, schema, stored)
        && Validated(py, schema, stored)[schema[i].key] == Chosen(py, schema[i], stored)
    ensures forall key <- Validated(py, schema, stored) :: HasKey(schema, key)
    decreases |schema|
  {
    hide Chosen, HasKey;
    if schema != [] {
      var n := |schema| - 1;
      ValidatedAt(py, schema[..n], stored);
      forall key <- Validated(py, schema, stored)
        ensures HasKey(schema, key)
      {
        KeyOfLonger(schema, key);
      }
    }
  }

  lemma {:induction false} KeyOfLonger(schema: seq<Entry>, key: string)
    requires schema != []
    ensures HasKey(schema[..|schema| - 1], key) || key == schema[|schema| - 1].key ==> HasKey(schema, key)
  {
    if HasKey(schema[..|schema| - 1], key) {
      var i :| 0 <= i < |schema| - 1 && schema[..|schema| - 1][i].key == key;
      assert schema[i].key == key;
    }
  }

  /** Two settings that say the same under every key of a schema, and nothing else, are the same. */
  lemma {:induction false} SameSettings(py: Python, schema: seq<Entry>, a: map<string, Json>, b: map<string, Json>)
    requires Distinct(schema) && forall i | 0 <= i < |schema| :: Chosen(py, schema[i], a) == Chosen(py, schema[i], b)
    ensures Validated(py, schema, a) == Validated(py, schema, b)
    decreases |schema|
  {
    hide Chosen;
    if schema != [] {
      SameSettings(py, schema[..|schema| - 1], a, b);
    }
  }

  /** Settings with a value for every key of the schema, chosen for the first n and the default for the others. */
  predicate ChosenTo(py: Python, schema: seq<Entry>, stored: map<string, Json>, settings: Settings, n: nat) {
    && (forall i | 0 <= i < |schema| ::
          schema[i].key in settings && settings[schema[i].key] == if i < n then Chosen(py, schema[i], stored)
            else schema[i].fallback)
    && (forall key <- settings :: HasKey(schema, key))
  }

  lemma {:induction false} AllChosen(py: Python, schema: seq<Entry>, stored: map<string, Json>, settings: Settings)
    requires Distinct(schema) && ChosenTo(py, schema, stored, settings, |schema|)
    ensures settings == Validated(py, schema, stored)
  {
    hide Chosen;
    ValidatedAt(py, schema, stored);
    var wanted := Validated(py, schema, stored);
    forall key
      ensures key in settings <==> key in wanted
      ensures key in settings ==> settings[key] == wanted[key]
    {
      if key in settings || key in wanted {
        assert HasKey(schema, key);
        var i :| 0 <= i < |schema| && schema[i].key == key;
      }
    }
  }

  method Defaults(schema: seq<Entry>) returns (settings: Settings)
    requires Distinct(schema)
    ensures forall i | 0 <= i < |schema| :: schema[i].key in settings && settings[schema[i].key] == schema[i].fallback
    ensures forall key <- settings :: HasKey(schema, key)
  {
    settings := map[];
    for i := 0 to |schema|
      invariant forall j | 0 <= j < i :: schema[j].key in settings && settings[schema[j].key] == schema[j].fallback
      invariant forall key <- settings :: HasKey(schema, key)
    {
      assert HasKey(schema, schema[i].key);
      settings := settings[schema[i].key := schema[i].fallback];
    }
  }

  /** The loop of `validate` over the settings that are stored, after the defaults. */
  method Validate(py: Python, schema: seq<Entry>, stored: Json) returns (settings: Settings)
    requires Distinct(schema)
    ensures settings == Validated(py, schema, Fields(stored))
  {
    hide Coerce, Validated;
    settings := Defaults(schema);
    if !stored.Obj? {
      AllChosen(py, schema, map[], settings);
      return;
    }
    for i := 0 to |schema|
      invariant ChosenTo(py, schema, stored.fields, settings, i)
    {
      var entry := schema[i];
      if entry.key in stored.fields {
        var c := Coerce(py, entry.kind, stored.fields[entry.key]);
        settings := settings[entry.key := if c.note && c.value.Null? then entry.fallback else c.value];
      }
    }
    AllChosen(py, schema, stored.fields, settings);
  }

  /** Every stored value, whatever it is, leads to settings in which every value meets its rule; and a usable one is
      kept, whatever else is stored. */
  lemma {:induction false} ValidatedIsClosed(py: Python, schema: seq<Entry>, stored: map<string, Json>, i: nat)
    requires Lawful(py) && Proper(py, schema) && i < |schema|
    ensures var key, settings := schema[i].key, Validated(py, schema, stored);
      && key in settings && Meets(py, schema[i].kind, settings[key])
      && (key in stored && Meets(py, schema[i].kind, stored[key]) ==> settings[key] == stored[key])
      && (key in stored ==>
            var c := Coerce(py, schema[i].kind, stored[key]);
            settings[key] == if c == UNUSABLE then schema[i].fallback else c.value)
      && (key !in stored ==> settings[key] == schema[i].fallback)
  {
    hide Coerce, Meets;
    ValidatedAt(py, schema, stored);
    if schema[i].key in stored {
      CoercedMeets(py, schema[i].kind, stored[schema[i].key]);
      KeptExactlyWhenUsable(py, schema[i].kind, stored[schema[i].key]);
    }
  }

  lemma {:induction false} ValidatingAgain(py: Python, schema: seq<Entry>, stored: map<string, Json>)
    requires Lawful(py) && Proper(py, schema)
    ensures Validated(py, schema, Validated(py, schema, stored)) == Validated(py, schema, stored)
  {
    hide Coerce, Meets;
    var settings := Validated(py, schema, stored);
    ValidatedAt(py, schema, stored);
    forall i | 0 <= i < |schema|
      ensures Chosen(py, schema[i], settings) == Chosen(py, schema[i], stored)
    {
      ValidatedIsClosed(py, schema, stored, i);
      KeptExactlyWhenUsable(py, schema[i].kind, settings[schema[i].key]);
    }
    SameSettings(py, schema, settings, stored);
  }

  // --- Saving and loading --------------------------------------------------------------------------

  /** The settings file: absent, or not readable as JSON, or holding a value. */
  datatype File = Absent | Unreadable | Holds(json: Json)

  /** Settings, and whether a note reports a file that is no JSON. */
  function Loaded(py: Python, schema: seq<Entry>, file: File): (Settings, bool) {
    match file
    case Absent => (Validated(py, schema, map[]), false)
    case Unreadable => (Validated(py, schema, map[]), true)
    case Holds(json) => (Validated(py, schema, Fields(json)), false)
  }

  /** A save takes effect at the renaming and not before, so a reader finds the old value or the new one, whole. */
  function Saved(file: File, schema: seq<Entry>, settings: Settings, renamed: bool): File {
    if renamed then Holds(Obj(map key | key in settings && HasKey(schema, key) :: settings[key])) else file
  }

  /** Settings that validation gave are loaded again as they were saved; and a save that fails loses nothing. */
  lemma {:induction false} SavedIsLoaded(py: Python, schema: seq<Entry>, stored: Json, file: File)
    requires Lawful(py) && Proper(py, schema)
    ensures var settings := Validated(py, schema, Fields(stored));
      && Loaded(py, schema, Saved(file, schema, settings, true)) == (settings, false)
      && Loaded(py, schema, Saved(file, schema, settings, false)) == Loaded(py, schema, file)
  {
    hide Chosen;
    var settings := Validated(py, schema, Fields(stored));
    ValidatedAt(py, schema, Fields(stored));
    assert (map key | key in settings && HasKey(schema, key) :: settings[key]) == settings;
    ValidatingAgain(py, schema, Fields(stored));
  }

  /** Without a file the settings are the defaults; so they are with a file that is no JSON or no object, and of these a
      note is left of the first. */
  lemma {:induction false} NothingUsable(py: Python, schema: seq<Entry>, file: File, i: nat)
    requires Distinct(schema) && i < |schema| && (file.Holds? ==> !file.json.Obj?)
    ensures var (settings, note) := Loaded(py, schema, file);
      note == file.Unreadable? && schema[i].key in settings && settings[schema[i].key] == schema[i].fallback
  {
    hide Coerce;
    ValidatedAt(py, schema, map[]);
  }

  lemma {:induction false} KeysDiffer()
    ensures Distinct(SCHEMA)
  {
  }

  lemma {:induction false} ChoicesFit(py: Python)
    ensures Fits(py, Entry("edge", Choice(EDGES), Str("right")))
      && Fits(py, Entry("style", Choice(STYLES), Str("mark")))
  {
  }

  lemma {:induction false} ColorsFit(py: Python)
    requires Lawful(py)
    ensures Fits(py, Entry("colors", Colors, Obj(DEFAULT_COLORS)))
    ensures Fits(py, Entry("frameColor", AccentColor, Str("#255fce")))
  {
    DefaultColorsAreHex();
    assert IsHex("#255fce");
    NotAccent(py, "#255fce");
  }

  lemma {:induction false} RestFits(py: Python, entry: Entry)
    requires
      match entry.kind
      case Switch => entry.fallback.Bool?
      case Monitor => entry.fallback.Null?
      case Whole(low, high) => entry.fallback.Int? && low <= entry.fallback.n <= high
      case Fraction => entry.fallback == Real(Finite(0.5))
      case _ => false
    ensures Fits(py, entry)
  {
  }

  /** The schema there is meets what the theorems above ask of one. */
  lemma {:induction false} SchemaIsProper(py: Python)
    requires Lawful(py)
    ensures Proper(py, SCHEMA)
  {
    hide Fits, Distinct;
    KeysDiffer();
    ChoicesFit(py);
    ColorsFit(py);
    forall i | 0 <= i < |SCHEMA|
      ensures Fits(py, SCHEMA[i])
    {
      if SCHEMA[i].kind.Switch? || SCHEMA[i].kind.Monitor? || SCHEMA[i].kind.Whole? || SCHEMA[i].kind.Fraction? {
        RestFits(py, SCHEMA[i]);
      }
    }
  }

  lemma {:induction false} NotAccent(py: Python, s: string)
    requires Lawful(py) && IsHex(s)
    ensures py.fold(s) != "accent"
  {
    assert Ascii(s);
    assert Lower(s)[0] == '#';
  }
}
