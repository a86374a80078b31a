/** configure_proxy in experiments/nextcloud-account-tunnel.py: the five proxy fields of one account are rewritten,
    line by line, in an otherwise opaque configuration text. */
module ProxyConfig {
  import opened Common
  import opened PyText

  // --- Lines, as Python's str.splitlines(keepends=True) splits them ----------------------------------

  /** How long the first line is, with its end. */
  function LineLength(s: string): (n: nat)
    ensures n <= |s| && (n == 0 <==> s == "")
  {
    if s == "" then 0
    else if s[0] == '\r' && |s| > 1 && s[1] == '\n' then 2
    else if IsEnd(s[0]) then 1
    else 1 + LineLength(s[1..])
  }

  function Lines(s: string): seq<string>
    decreases |s|
  {
    if s == "" then [] else [s[..LineLength(s)]] + Lines(s[LineLength(s)..])
  }

  function Joined(lines: seq<string>): string {
    if lines == [] then "" else lines[0] + Joined(lines[1..])
  }

  /** Lines that splitting their text gives back. */
  predicate Split(lines: seq<string>) {
    lines == [] || (lines[0] != "" && LineLength(Joined(lines)) == |lines[0]| && Split(lines[1..]))
  }

  predicate NoEnd(s: string, n: nat)
    requires n <= |s|
  {
    forall i | 0 <= i < n :: !IsEnd(s[i])
  }

  /** A first line runs to the first end and takes it along, a carriage return with the line feed behind it; without an
      end it is all there is. */
  lemma {:induction false} FirstLineExactly(s: string)
    requires s != ""
    ensures var n := LineLength(s);
      || (n == |s| && NoEnd(s, n))
      || (n >= 2 && NoEnd(s, n - 2) && s[n - 2] == '\r' && s[n - 1] == '\n')
      || (NoEnd(s, n - 1) && IsEnd(s[n - 1]) && !(s[n - 1] == '\r' && n < |s| && s[n] == '\n'))
  {
    if !IsEnd(s[0]) && |s| > 1 {
      FirstLineExactly(s[1..]);
      var n := LineLength(s[1..]);
      assert forall i | 1 <= i < |s| :: s[i] == s[1..][i - 1];
    }
  }

  lemma {:induction false} LinesAreSplit(s: string)
    ensures Split(Lines(s)) && Joined(Lines(s)) == s
    decreases |s|
  {
    if s != "" {
      var n := LineLength(s);
      LinesAreSplit(s[n..]);
      assert Lines(s)[1..] == Lines(s[n..]) && s[..n] + s[n..] == s;
    }
  }

  lemma {:induction false} SplitLinesAreBack(lines: seq<string>)
    requires Split(lines)
    ensures Lines(Joined(lines)) == lines
    decreases |lines|
  {
    if lines != [] {
      var s := Joined(lines);
      SplitLinesAreBack(lines[1..]);
      assert s[..|lines[0]|] == lines[0] && s[|lines[0]|..] == Joined(lines[1..]);
    }
  }

  // --- What a line is ------------------------------------------------------------------------------

  predicate OpensSection(line: string) {
    Stripped(line) != "" && Stripped(line)[0] == '['
  }

  function SectionAfter(section: string, line: string): string {
    if OpensSection(line) then Stripped(line) else section
  }

  /** What stands before the first equals sign, where there is one. */
  function KeyOf(line: string): (key: Option<string>)
    ensures key.Some? ==> key.value + "=" <= line && '=' !in key.value
  {
    if line == "" then None
    else if line[0] == '=' then Some("")
    else
      var later := KeyOf(line[1..]);
      if later.None? then None
      else
        assert line == [line[0]] + line[1..];
        Some([line[0]] + later.value)
  }

  const FIELDS: seq<string> :=
    ["networkProxyType", "networkProxyHostName", "networkProxyPort", "networkProxyNeedsAuth", "networkProxyUser"]

  function NewValue(field: string, port: nat): string {
    if field == "networkProxyType" then "3"
    else if field == "networkProxyHostName" then "127.0.0.1"
    else if field == "networkProxyPort" then Decimal(port)
    else if field == "networkProxyNeedsAuth" then "false"
    else ""
  }

  /** The field of the account that a line sets. */
  function FieldOf(line: string, account: string): (field: Option<string>)
    ensures field.Some? ==> field.value in FIELDS && KeyOf(line) == Some(account + "\\" + field.value)
  {
    var key := KeyOf(line);
    if key == Some(account + "\\" + FIELDS[0]) then Some(FIELDS[0])
    else if key == Some(account + "\\" + FIELDS[1]) then Some(FIELDS[1])
    else if key == Some(account + "\\" + FIELDS[2]) then Some(FIELDS[2])
    else if key == Some(account + "\\" + FIELDS[3]) then Some(FIELDS[3])
    else if key == Some(account + "\\" + FIELDS[4]) then Some(FIELDS[4])
    else None
  }

  const ACCOUNTS := "[Accounts]"

  /** The field a line sets, where the section is the accounts'. */
  function Target(section: string, line: string, account: string): (field: Option<string>)
    ensures field.Some? ==> field.value in FIELDS && KeyOf(line) == Some(account + "\\" + field.value)
  {
    if section == ACCOUNTS then FieldOf(line, account) else None
  }

  function NewLine(account: string, field: string, port: nat): string {
    account + "\\" + field + "=" + NewValue(field, port) + "\n"
  }

  function Rewritten(section: string, line: string, account: string, port: nat): string {
    var field := Target(section, line, account);
    if field.Some? then NewLine(account, field.value, port) else line
  }

  /** The section in force at line i, its own heading included. */
  function SectionAt(lines: seq<string>, i: nat): string
    requires i < |lines|
  {
    SectionAfter(if i == 0 then "" else SectionAt(lines, i - 1), lines[i])
  }

  function AllRewritten(lines: seq<string>, account: string, port: nat): (r: seq<string>)
    ensures |r| == |lines| && forall i | 0 <= i < |lines| ::
      r[i] == Rewritten(SectionAt(lines, i), lines[i], account, port)
  {
    seq(|lines|, i requires 0 <= i < |lines| => Rewritten(SectionAt(lines, i), lines[i], account, port))
  }

  predicate Sets(lines: seq<string>, account: string, field: string, i: nat)
    requires i < |lines|
  {
    Target(SectionAt(lines, i), lines[i], account) == Some(field)
  }

  /** Whether one of the first n lines sets a field. */
  predicate Found(lines: seq<string>, account: string, field: string, n: nat)
    requires n <= |lines|
  {
    exists i :: 0 <= i < n && Sets(lines, account, field, i)
  }

  predicate Present(lines: seq<string>, account: string, field: string) {
    Found(lines, account, field, |lines|)
  }

  predicate AllPresent(lines: seq<string>, account: string) {
    forall k | 0 <= k < |FIELDS| :: Present(lines, account, FIELDS[k])
  }

  /** What the function gives: nothing when a field is missing. */
  function Configured(text: string, account: string, port: nat): Option<string> {
    var lines := Lines(text);
    if AllPresent(lines, account) then Some(Joined(AllRewritten(lines, account, port))) else None
  }

  lemma {:induction false} FoundOneMore(lines: seq<string>, account: string, field: string, n: nat)
    requires n < |lines|
    ensures Found(lines, account, field, n + 1) <==> Found(lines, account, field, n) || Sets(lines, account, field, n)
  {
  }

  method RewriteOne(section: string, line: string, account: string, port: nat)
    returns (next: string, field: Option<string>, out: string)
    ensures next == SectionAfter(section, line) && field == Target(next, line, account)
      && out == Rewritten(next, line, account, port)
  {
    next := section;
    if OpensSection(line) {
      next := Stripped(line);
    }
    field, out := None, line;
    if next == ACCOUNTS {
      field := FieldOf(line, account);
      if field.Some? {
        out := NewLine(account, field.value, port);
      }
    }
  }

  /** The loop as it is written: a section, a set of fields found, and a list of lines. */
  method RewriteLines(lines: seq<string>, account: string, port: nat) returns (out: seq<string>, changed: set<string>)
    ensures out == AllRewritten(lines, account, port)
    ensures forall field :: field in changed <==> Present(lines, account, field)
  {
    hide SectionAfter, Target, Rewritten, Found, AllRewritten;
    var section := "";
    changed, out := {}, [];
    NothingFound(lines, account);
    for i := 0 to |lines|
      invariant section == (if i == 0 then "" else SectionAt(lines, i - 1))
      invariant out == AllRewritten(lines, account, port)[..i]
      invariant forall field {:trigger field in changed} :: field in changed <==> Found(lines, account, field, i)
    {
      var field, line;
      section, field, line := RewriteOne(section, lines[i], account, port);
      assert section == SectionAt(lines, i);
      forall name
        ensures Found(lines, account, name, i + 1) <==> Found(lines, account, name, i) || field == Some(name)
      {
        FoundOneMore(lines, account, name, i);
      }
      out := out + [line];
      if field.Some? {
        changed := changed + {field.value};
      }
    }
  }

  method ConfigureProxy(text: string, account: string, port: nat) returns (result: Option<string>)
    ensures result == Configured(text, account, port)
  {
    hide Present;
    var lines := Lines(text);
    var out, changed := RewriteLines(lines, account, port);
    if forall k | 0 <= k < |FIELDS| :: FIELDS[k] in changed {
      return Some(Joined(out));
    }
    return None;
  }

  lemma {:induction false} NothingFound(lines: seq<string>, account: string)
    ensures forall field :: !Found(lines, account, field, 0)
  {
  }

  // --- A rewritten line is where the old one was -----------------------------------------------------

  lemma {:induction false} KeyEnds(line: string, key: string, rest: string)
    requires '=' !in key && line == key + "=" + rest
    ensures KeyOf(line) == Some(key)
    decreases |key|
  {
    if key == "" {
      assert line[0] == '=';
    } else {
      assert line[0] == key[0] && line[1..] == key[1..] + "=" + rest;
      KeyEnds(line[1..], key[1..], rest);
      assert [key[0]] + key[1..] == key;
    }
  }

  lemma {:induction false} StrippedPrefix(p: string, rest: string)
    requires p != "" && !IsSpace(p[|p| - 1])
    ensures LeftStripped(p) != "" && LeftStripped(p + rest) == LeftStripped(p) + rest && !IsSpace(LeftStripped(p)[0])
    decreases |p|
  {
    if IsSpace(p[0]) {
      assert (p + rest)[1..] == p[1..] + rest;
      StrippedPrefix(p[1..], rest);
    }
  }

  lemma {:induction false} RightStrippedKeeps(s: string, k: nat)
    requires k < |s| && !IsSpace(s[k])
    ensures k < |RightStripped(s)| && RightStripped(s)[k] == s[k] && RightStripped(s)[0] == s[0]
    decreases |s|
  {
    if IsSpace(s[|s| - 1]) {
      RightStrippedKeeps(s[..|s| - 1], k);
    }
  }

  /** Whether a line that sets a key opens a section depends on the key alone, and if it does, the heading holds the
      equals sign. */
  lemma {:induction false} KeyDecidesSection(line: string, key: string)
    requires KeyOf(line) == Some(key)
    ensures LeftStripped(key + "=") != "" && OpensSection(line) == (LeftStripped(key + "=")[0] == '[')
    ensures '=' in Stripped(line)
  {
    var p, rest := key + "=", line[|key| + 1..];
    assert line == p + rest;
    StrippedPrefix(p, rest);
    var left := LeftStripped(p);
    LastKept(p);
    RightStrippedKeeps(left + rest, |left| - 1);
    RightStrippedKeeps(left + rest, 0);
  }

  lemma {:induction false} LastKept(p: string)
    requires p != "" && !IsSpace(p[|p| - 1])
    ensures LeftStripped(p) != "" && LeftStripped(p)[|LeftStripped(p)| - 1] == p[|p| - 1]
    decreases |p|
  {
    if IsSpace(p[0]) {
      LastKept(p[1..]);
    }
  }

  lemma {:induction false} ValueHasNoEnd(field: string, port: nat)
    ensures forall i | 0 <= i < |NewValue(field, port)| :: !IsEnd(NewValue(field, port)[i])
  {
  }

  /** The rewritten line sets the same field, in the same section, as the line it replaces. */
  lemma {:induction false} RewrittenIsTarget(before: string, line: string, account: string, port: nat)
    ensures var after := SectionAfter(before, line);
      var now := Rewritten(after, line, account, port);
      && SectionAfter(before, now) == after
      && Target(after, now, account) == Target(after, line, account)
  {
    var after := SectionAfter(before, line);
    var field := Target(after, line, account);
    if field.Some? {
      var key := account + "\\" + field.value;
      var now := NewLine(account, field.value, port);
      assert now == key + "=" + (NewValue(field.value, port) + "\n");
      KeyEnds(now, key, NewValue(field.value, port) + "\n");
      KeyDecidesSection(line, key);
      KeyDecidesSection(now, key);
      NoEqualsInHeading();
    }
  }

  lemma {:induction false} NoEqualsInHeading()
    ensures '=' !in ACCOUNTS
  {
  }

  lemma {:induction false} SameSections(lines: seq<string>, account: string, port: nat, i: nat)
    requires i < |lines|
    ensures var now := AllRewritten(lines, account, port);
      SectionAt(now, i) == SectionAt(lines, i)
      && Target(SectionAt(now, i), now[i], account) == Target(SectionAt(lines, i), lines[i], account)
  {
    hide SectionAfter, Target, Rewritten, AllRewritten;
    if i > 0 { SameSections(lines, account, port, i - 1); }
    RewrittenIsTarget(if i == 0 then "" else SectionAt(lines, i - 1), lines[i], account, port);
  }

  // --- The rewritten lines are lines still -----------------------------------------------------------

  /** Nothing within a line ends it: only its last character can, with the one before it where both make one end. */
  lemma {:induction false} EndsAreLast(s: string, k: nat)
    requires k + 1 < LineLength(s) && IsEnd(s[k])
    ensures k + 2 == LineLength(s) && s[k] == '\r' && s[k + 1] == '\n'
  {
    if k > 0 {
      EndsAreLast(s[1..], k - 1);
    }
  }

  lemma {:induction false} EndedLine(line: string, rest: string)
    requires line != "" && line[|line| - 1] == '\n' && forall k | 0 <= k < |line| - 1 :: !IsEnd(line[k])
    ensures LineLength(line + rest) == |line|
    decreases |line|
  {
    if |line| > 1 {
      assert (line + rest)[0] == line[0] && (line + rest)[1..] == line[1..] + rest;
      EndedLine(line[1..], rest);
    } else {
      assert (line + rest)[0] == '\n';
    }
  }

  /** Where a line ends does not depend on what follows it, but for whether anything does, and how that begins. */
  lemma {:induction false} SameLine(line: string, a: string, b: string)
    requires line != "" && LineLength(line + a) == |line|
    requires (a == "" <==> b == "") && (a != "" ==> a[0] == b[0])
    ensures LineLength(line + b) == |line|
    decreases |line|
  {
    var s, t := line + a, line + b;
    assert s[0] == line[0] && t[0] == line[0];
    if |line| > 1 {
      assert s[1] == line[1] && t[1] == line[1];
      assert s[1..] == line[1..] + a && t[1..] == line[1..] + b;
      if !IsEnd(line[0]) { SameLine(line[1..], a, b); }
    } else if a != "" {
      assert s[1] == a[0] && t[1] == b[0];
      assert s[1..] == a && t[1..] == b;
    } else {
      assert s == t;
    }
  }

  lemma {:induction false} NewLineEnds(lines: seq<string>, k: nat, account: string, field: string, port: nat,
                                       rest: string)
    requires k < |lines| && LineLength(Joined(lines[k..])) == |lines[k]|
      && KeyOf(lines[k]) == Some(account + "\\" + field)
    ensures LineLength(NewLine(account, field, port) + rest) == |NewLine(account, field, port)|
    ensures NewLine(account, field, port) != "" && NewLine(account, field, port)[0] == lines[k][0]
  {
    var key, line := account + "\\" + field, lines[k];
    var s := Joined(lines[k..]);
    assert s == line + Joined(lines[k..][1..]);
    assert s[|key|] == '=' by { assert line[|key|] == (key + "=")[|key|]; }
    forall j | 0 <= j < |key|
      ensures !IsEnd(key[j])
    {
      assert s[j] == line[j] == (key + "=")[j];
      if IsEnd(s[j]) {
        EndsAreLast(s, j);
      }
    }
    ValueHasNoEnd(field, port);
    var new1 := NewLine(account, field, port);
    assert new1 == key + "=" + NewValue(field, port) + "\n";
    assert new1[0] == (key + "=")[0] && line[0] == (key + "=")[0];
    EndedLine(new1, rest);
  }

  lemma {:induction false} TailIsSplit(lines: seq<string>, k: nat)
    requires Split(lines) && k <= |lines|
    ensures Split(lines[k..])
    decreases k
  {
    if k > 0 {
      TailIsSplit(lines, k - 1);
      assert lines[k - 1..][1..] == lines[k..];
    } else {
      assert lines[0..] == lines;
    }
  }

  /** Rewriting keeps the lines lines, and how the text from each begins. */
  lemma {:induction false} RewrittenAreSplit(lines: seq<string>, account: string, port: nat, k: nat)
    requires Split(lines) && k <= |lines|
    ensures var now := AllRewritten(lines, account, port)[k..];
      && Split(now)
      && (Joined(now) == "" <==> Joined(lines[k..]) == "")
      && (Joined(now) != "" ==> Joined(now)[0] == Joined(lines[k..])[0])
    decreases |lines| - k
  {
    hide LineLength, Target, NewLine, KeyOf, SectionAt;
    if k < |lines| {
      var all := AllRewritten(lines, account, port);
      RewrittenAreSplit(lines, account, port, k + 1);
      TailIsSplit(lines, k);
      assert lines[k..][1..] == lines[k + 1..] && all[k..][1..] == all[k + 1..] && lines[k..][0] == lines[k]
        && all[k..][0] == all[k];
      var rest, was := Joined(all[k + 1..]), Joined(lines[k + 1..]);
      var field := Target(SectionAt(lines, k), lines[k], account);
      if field.Some? {
        NewLineEnds(lines, k, account, field.value, port, rest);
        assert LineLength("") == 0;
      } else {
        SameLine(lines[k], was, rest);
      }
    }
  }

  lemma {:induction false} LinesOfRewritten(text: string, account: string, port: nat)
    ensures Lines(Joined(AllRewritten(Lines(text), account, port))) == AllRewritten(Lines(text), account, port)
  {
    LinesAreSplit(text);
    RewrittenAreSplit(Lines(text), account, port, 0);
    var now := AllRewritten(Lines(text), account, port);
    assert now[0..] == now;
    SplitLinesAreBack(now);
  }

  // --- What a rewriting changes ----------------------------------------------------------------------

  /** When it succeeds, the new text has the old one's lines, in their order; a line that sets one of the five fields of
      the account within the accounts' section says the new value, and every other line is as it was. */
  lemma {:induction false} OnlyTheFieldsChange(text: string, account: string, port: nat, i: nat)
    requires Configured(text, account, port).Some? && i < |Lines(text)|
    ensures var was, now := Lines(text), Lines(Configured(text, account, port).value);
      var field := Target(SectionAt(was, i), was[i], account);
      && |now| == |was|
      && now[i] == (if field.Some? then account + "\\" + field.value + "=" + NewValue(field.value, port) + "\n"
                    else was[i])
  {
    LinesOfRewritten(text, account, port);
  }

  lemma {:induction false} PresenceStays(lines: seq<string>, account: string, port: nat)
    ensures AllPresent(AllRewritten(lines, account, port), account) == AllPresent(lines, account)
  {
    hide SectionAt, Target, AllRewritten;
    var now := AllRewritten(lines, account, port);
    forall field
      ensures Present(now, account, field) == Present(lines, account, field)
    {
      forall i | 0 <= i < |lines|
        ensures Sets(now, account, field, i) == Sets(lines, account, field, i)
      {
        SameSections(lines, account, port, i);
      }
    }
  }

  lemma {:induction false} RewrittenTwice(lines: seq<string>, account: string, p: nat, q: nat)
    ensures AllRewritten(AllRewritten(lines, account, p), account, q) == AllRewritten(lines, account, q)
  {
    hide SectionAt, Target, NewLine;
    var now := AllRewritten(lines, account, p);
    forall i | 0 <= i < |lines|
      ensures AllRewritten(now, account, q)[i] == AllRewritten(lines, account, q)[i]
    {
      SameSections(lines, account, p, i);
    }
  }

  /** Rewriting with one port and then another is rewriting with the other alone; with p == q, rewriting is
      idempotent. */
  lemma {:induction false} LastPortWins(text: string, account: string, p: nat, q: nat)
    ensures Configured(text, account, p).Some? <==> Configured(text, account, q).Some?
    ensures Configured(text, account, p).Some? ==>
      Configured(Configured(text, account, p).value, account, q) == Configured(text, account, q)
  {
    hide AllPresent, AllRewritten, Lines, Joined;
    LinesOfRewritten(text, account, p);
    PresenceStays(Lines(text), account, p);
    RewrittenTwice(Lines(text), account, p, q);
  }

  // --- What is rewritten, said of the lines themselves -----------------------------------------------

  predicate Heading(line: string) {
    var text := Stripped(line);
    text != "" && text[0] == '['
  }

  /** The last heading at or before a line. */
  predicate HeadedBy(lines: seq<string>, i: nat, j: nat) {
    j <= i < |lines| && Heading(lines[j]) && forall k | j < k <= i :: !Heading(lines[k])
  }

  ghost predicate InAccounts(lines: seq<string>, i: nat) {
    exists j: nat :: HeadedBy(lines, i, j) && Stripped(lines[j]) == "[Accounts]"
  }

  /** What stands before the first equals sign of a line is this field of the account. */
  ghost predicate Assigns(line: string, account: string, field: string) {
    '=' !in account && '=' !in field && exists rest: string :: line == account + "\\" + field + "=" + rest
  }

  lemma {:induction false} SectionExactly(lines: seq<string>, i: nat)
    requires i < |lines|
    ensures SectionAt(lines, i) == "[Accounts]" <==> InAccounts(lines, i)
  {
    if Heading(lines[i]) {
      assert HeadedBy(lines, i, i);
      assert forall j: nat :: HeadedBy(lines, i, j) ==> j == i;
    } else if i > 0 {
      SectionExactly(lines, i - 1);
      assert forall j: nat | j < i :: HeadedBy(lines, i, j) <==> HeadedBy(lines, i - 1, j);
      assert !HeadedBy(lines, i, i);
    } else {
      assert forall j: nat :: !HeadedBy(lines, i, j);
    }
  }

  lemma {:induction false} KeyExactly(line: string, account: string, field: string)
    requires '=' !in field
    ensures KeyOf(line) == Some(account + "\\" + field) <==> Assigns(line, account, field)
  {
    var key := account + "\\" + field;
    if KeyOf(line) == Some(key) {
      assert line == key + "=" + line[|key| + 1..];
      assert '=' !in account by {
        assert forall k | 0 <= k < |account| :: key[k] == account[k];
      }
    }
    if Assigns(line, account, field) {
      var rest: string :| line == account + "\\" + field + "=" + rest;
      assert line == key + "=" + rest && '=' !in key;
      KeyEnds(line, key, rest);
    }
  }

  lemma {:induction false} FieldExactly(line: string, account: string, field: string)
    requires field in FIELDS
    ensures FieldOf(line, account) == Some(field) <==> Assigns(line, account, field)
  {
    hide KeyOf, Assigns;
    assert '=' !in field;
    KeyExactly(line, account, field);
    var k :| 0 <= k < |FIELDS| && FIELDS[k] == field;
    forall j | 0 <= j < |FIELDS| && account + "\\" + FIELDS[j] == account + "\\" + field
      ensures FIELDS[j] == field
    {
      var a := account + "\\";
      assert (a + FIELDS[j])[|a|..] == FIELDS[j] && (a + field)[|a|..] == field;
    }
  }

  /** The value each of the five fields is given. */
  predicate Given(field: string, port: nat, value: string) {
    || (field == "networkProxyType" && value == "3")
    || (field == "networkProxyHostName" && value == "127.0.0.1")
    || (field == "networkProxyPort" && value == Decimal(port))
    || (field == "networkProxyNeedsAuth" && value == "false")
    || (field == "networkProxyUser" && value == "")
  }

  /** Of the new text: a line of the accounts' section that assigns one of the five fields of this account now assigns
      the value it is given, and every other line is as it was. */
  lemma {:induction false} ConfiguredExactly(text: string, account: string, port: nat, i: nat)
    requires Configured(text, account, port).Some? && i < |Lines(text)|
    ensures var was, now := Lines(text), Lines(Configured(text, account, port).value);
      && |now| == |was|
      && (forall field | field in FIELDS && InAccounts(was, i) && Assigns(was[i], account, field) ::
            exists value :: Given(field, port, value) && now[i] == account + "\\" + field + "=" + value + "\n")
      && (!(InAccounts(was, i) && exists field :: field in FIELDS && Assigns(was[i], account, field)) ==>
            now[i] == was[i])
  {
    hide KeyOf, Assigns, Lines, Configured, InAccounts, FieldOf;
    OnlyTheFieldsChange(text, account, port, i);
    var was := Lines(text);
    SectionExactly(was, i);
    forall field | field in FIELDS
      ensures FieldOf(was[i], account) == Some(field) <==> Assigns(was[i], account, field)
      ensures Given(field, port, NewValue(field, port))
    {
      FieldExactly(was[i], account, field);
      FieldsAreGiven(field, port);
    }
  }

  lemma {:induction false} FieldsAreGiven(field: string, port: nat)
    requires field in FIELDS
    ensures Given(field, port, NewValue(field, port))
  {
  }

  ghost predicate Assigned(lines: seq<string>, account: string, field: string) {
    exists i: nat :: i < |lines| && InAccounts(lines, i) && Assigns(lines[i], account, field)
  }

  lemma {:induction false} PresentExactly(lines: seq<string>, account: string, field: string)
    requires field in FIELDS
    ensures Present(lines, account, field) <==> Assigned(lines, account, field)
  {
    hide KeyOf, Assigns, InAccounts, FieldOf;
    forall i: nat | i < |lines|
      ensures Sets(lines, account, field, i) <==> InAccounts(lines, i) && Assigns(lines[i], account, field)
    {
      SectionExactly(lines, i);
      FieldExactly(lines[i], account, field);
    }
    if Found(lines, account, field, |lines|) {
      var i :| 0 <= i < |lines| && Sets(lines, account, field, i);
    }
  }

  /** A text is given back exactly when the accounts' section assigns each of the five fields of this account. */
  lemma {:induction false} ConfiguredWhen(text: string, account: string, port: nat)
    ensures var lines := Lines(text);
      Configured(text, account, port).Some? <==>
        && Assigned(lines, account, "networkProxyType") && Assigned(lines, account, "networkProxyHostName")
        && Assigned(lines, account, "networkProxyPort") && Assigned(lines, account, "networkProxyNeedsAuth")
        && Assigned(lines, account, "networkProxyUser")
  {
    hide Assigned, Present, Lines;
    var lines := Lines(text);
    forall k | 0 <= k < |FIELDS|
      ensures Present(lines, account, FIELDS[k]) <==> Assigned(lines, account, FIELDS[k])
    {
      PresentExactly(lines, account, FIELDS[k]);
    }
    assert |FIELDS| == 5 && FIELDS[0] == "networkProxyType" && FIELDS[1] == "networkProxyHostName";
    assert FIELDS[2] == "networkProxyPort" && FIELDS[3] == "networkProxyNeedsAuth" && FIELDS[4] == "networkProxyUser";
  }
}
