/** The config reader and the in-place config editor (`parse_toml` and `set_config_key` of `src/utill.rs`), over the text of the file. */
module ConfigFile {
  import opened Common

  // ---------------------------------------------------------------- Rust's string functions

  /** The Unicode White_Space characters. */
  predicate IsSpace(c: char) {
    var n := c as int;
    9 <= n <= 13 || n == 0x20 || n == 0x85 || n == 0xA0 || n == 0x1680 || 0x2000 <= n <= 0x200A || n == 0x2028 || n == 0x2029
    || n == 0x202F || n == 0x205F || n == 0x3000
  }

  predicate IsEol(c: char) {
    c == '\r' || c == '\n'
  }

  /** Without the trailing characters that satisfy `drop`. */
  function TrimBack(s: string, drop: char -> bool): string
    decreases |s|
  {
    if s != "" && drop(s[|s| - 1]) then TrimBack(s[..|s| - 1], drop) else s
  }

  function TrimFront(s: string): string
    decreases |s|
  {
    if s != "" && IsSpace(s[0]) then TrimFront(s[1..]) else s
  }

  function Trim(s: string): string {
    TrimFront(TrimBack(s, IsSpace))
  }

  /** Splits at the first `=`. */
  function SplitOnce(s: string): Option<(string, string)> {
    if s == "" then None
    else if s[0] == '=' then Some(("", s[1..]))
    else
      match SplitOnce(s[1..])
      case None => None
      case Some((left, right)) => Some(([s[0]] + left, right))
  }

  /** The length of the first line, its newline included. */
  function LineLength(s: string): (n: nat)
    ensures n <= |s| && (s != "" ==> n > 0)
  {
    if s == "" then 0 else if s[0] == '\n' then 1 else 1 + LineLength(s[1..])
  }

  /** `split_inclusive('\n')`. */
  function SplitInclusive(s: string): seq<string>
    decreases |s|
  {
    if s == "" then [] else [s[..LineLength(s)]] + SplitInclusive(s[LineLength(s)..])
  }

  /** A line as `lines()` gives it: without its newline, and without one carriage return before that. */
  function Stripped(line: string): string {
    if line == "" || line[|line| - 1] != '\n' then line
    else
      var s := line[..|line| - 1];
      if s != "" && s[|s| - 1] == '\r' then s[..|s| - 1] else s
  }

  /** The value between double quotes, or the value itself. */
  function Unquote(value: string): string {
    if |value| >= 2 && value[0] == '"' && value[|value| - 1] == '"' then value[1..|value| - 1] else value
  }

  function Concat(lines: seq<string>): string
    decreases |lines|
  {
    if lines == [] then "" else lines[0] + Concat(lines[1..])
  }

  // ---------------------------------------------------------------- the reader

  /** What one line of text sets: its trimmed key and trimmed value. */
  function Setting(text: string): Option<(string, string)> {
    match SplitOnce(text)
    case None => None
    case Some((left, right)) => Some((Trim(left), Trim(right)))
  }

  function ReadLine(config: map<string, string>, line: string): map<string, string> {
    match Setting(Stripped(line))
    case None => config
    case Some((key, value)) => config[key := Unquote(value)]
  }

  function ReadLines(lines: seq<string>): map<string, string>
    decreases |lines|
  {
    if lines == [] then map[] else ReadLine(ReadLines(lines[..|lines| - 1]), lines[|lines| - 1])
  }

  function ReadConfig(content: string): map<string, string> {
    ReadLines(SplitInclusive(content))
  }

  /** `parse_toml` on the file's text. */
  method ParseToml(content: string) returns (config: map<string, string>)
    ensures config == ReadConfig(content)
  {
    config := map[];
    var lines := SplitInclusive(content);
    for i := 0 to |lines|
      invariant config == ReadLines(lines[..i])
    {
      assert lines[..i + 1][..i] == lines[..i];
      var line := Stripped(lines[i]);
      var setting := SplitOnce(line);
      if setting.Some? {
        var value := Trim(setting.value.1);
        if |value| >= 2 && value[0] == '"' && value[|value| - 1] == '"' {
          value := value[1..|value| - 1];
        }
        config := config[Trim(setting.value.0) := value];
      }
    }
    assert lines[..|lines|] == lines;
  }

  // ---------------------------------------------------------------- the editor

  function NewLine(key: string, value: string): string {
    key + " = " + value
  }

  /** The line without its end-of-line characters, as the editor reads it. */
  function Text(line: string): (text: string)
    ensures text <= line
  {
    TrimBackPrefix(line, IsEol);
    TrimBack(line, IsEol)
  }

  predicate SetsKey(line: string, key: string) {
    Setting(Text(line)).Some? && Setting(Text(line)).value.0 == key
  }

  /** A line that sets the key is replaced and keeps its line end; any other line stays. */
  function EditLine(line: string, key: string, value: string): string {
    if SetsKey(line, key) then NewLine(key, value) + line[|Text(line)|..] else line
  }

  function EditLines(lines: seq<string>, key: string, value: string): seq<string> {
    seq(|lines|, i requires 0 <= i < |lines| => EditLine(lines[i], key, value))
  }

  predicate IsSet(lines: seq<string>, key: string) {
    exists i :: 0 <= i < |lines| && SetsKey(lines[i], key)
  }

  predicate Differs(lines: seq<string>, key: string, value: string) {
    exists i :: 0 <= i < |lines| && SetsKey(lines[i], key) && Setting(Text(lines[i])).value.1 != value
  }

  /** The text with its last line ended. */
  function Closed(content: string): string {
    if content != "" && content[|content| - 1] != '\n' then content + "\n" else content
  }

  /** The file's text after `set_config_key`. */
  function Edited(content: string, key: string, value: string): string {
    var lines := SplitInclusive(content);
    if IsSet(lines, key) then
      if Differs(lines, key, value) then Concat(EditLines(lines, key, value)) else content
    else
      Closed(content) + (NewLine(key, value) + "\n")
  }

  lemma {:induction false} TrimBackPrefix(s: string, drop: char -> bool)
    ensures TrimBack(s, drop) <= s
    ensures forall i :: |TrimBack(s, drop)| <= i < |s| ==> drop(s[i])
    ensures TrimBack(s, drop) != "" ==> !drop(TrimBack(s, drop)[|TrimBack(s, drop)| - 1])
    decreases |s|
  {
    if s != "" && drop(s[|s| - 1]) {
      TrimBackPrefix(s[..|s| - 1], drop);
    }
  }

  /** `set_config_key`: none when nothing has to be written. */
  method SetConfigKey(content: string, key: string, value: string) returns (written: Option<string>)
    ensures (if written.Some? then written.value else content) == Edited(content, key, value)
    ensures written.None? <==> IsSet(SplitInclusive(content), key) && !Differs(SplitInclusive(content), key, value)
  {
    hide SplitInclusive, Setting, SetsKey, Text, Trim, SplitOnce, Concat, IsSet, Differs, EditLines, EditLine, NewLine;
    var lines := SplitInclusive(content);
    var found, changed, updated := false, false, "";
    NothingEdited(key, value);
    for i := 0 to |lines|
      invariant found <==> IsSet(lines[..i], key)
      invariant changed <==> Differs(lines[..i], key, value)
      invariant updated == Concat(EditLines(lines[..i], key, value))
    {
      var line := lines[i];
      EditOneMore(lines, i, key, value);
      EditsOne(line, key, value);
      var text := Text(line);
      var setting := SplitOnce(text);
      if setting.Some? && Trim(setting.value.0) == key {
        found := true;
        changed := changed || Trim(setting.value.1) != value;
        updated := updated + NewLine(key, value) + line[|text|..];
      } else {
        updated := updated + line;
      }
    }
    assert lines[..|lines|] == lines;
    if !found {
      UnsetUnedited(lines, key, value);
      SplitJoins(content);
      if updated != "" && updated[|updated| - 1] != '\n' {
        updated := updated + "\n";
      }
      assert updated == Closed(content);
      updated := updated + (NewLine(key, value) + "\n");
      return Some(updated);
    } else if !changed {
      return None;
    }
    return Some(updated);
  }

  lemma NothingEdited(key: string, value: string)
    ensures !IsSet([], key) && !Differs([], key, value) && Concat(EditLines([], key, value)) == ""
  {
  }

  /** What the editor's branch does with one line. */
  lemma EditsOne(line: string, key: string, value: string)
    ensures var (text, setting) := (Text(line), SplitOnce(Text(line)));
            && (SetsKey(line, key) <==> setting.Some? && Trim(setting.value.0) == key)
            && (SetsKey(line, key) ==> Setting(text).value.1 == Trim(setting.value.1))
            && EditLine(line, key, value) == if SetsKey(line, key) then NewLine(key, value) + line[|text|..] else line
  {
  }

  lemma {:induction false} ConcatAppend(a: seq<string>, b: seq<string>)
    ensures Concat(a + b) == Concat(a) + Concat(b)
    decreases |a|
  {
    if a == [] {
      assert a + b == b;
    } else {
      ConcatAppend(a[1..], b);
      assert (a + b)[1..] == a[1..] + b;
    }
  }

  lemma EditOneMore(lines: seq<string>, i: nat, key: string, value: string)
    requires i < |lines|
    ensures Concat(EditLines(lines[..i + 1], key, value)) == Concat(EditLines(lines[..i], key, value)) + EditLine(lines[i], key, value)
    ensures IsSet(lines[..i + 1], key) <==> IsSet(lines[..i], key) || SetsKey(lines[i], key)
    ensures Differs(lines[..i + 1], key, value) <==>
              Differs(lines[..i], key, value) || (SetsKey(lines[i], key) && Setting(Text(lines[i])).value.1 != value)
  {
    hide SetsKey, EditLine, Setting, Text;
    var shorter, line := lines[..i], lines[i];
    assert lines[..i + 1] == shorter + [line];
    ConcatOne(shorter, line, key, value);
    SetOneMore(shorter, line, key);
    DiffersOneMore(shorter, line, key, value);
  }

  lemma ConcatOne(lines: seq<string>, line: string, key: string, value: string)
    ensures Concat(EditLines(lines + [line], key, value)) == Concat(EditLines(lines, key, value)) + EditLine(line, key, value)
  {
    hide EditLine;
    assert EditLines(lines + [line], key, value) == EditLines(lines, key, value) + [EditLine(line, key, value)];
    ConcatAppend(EditLines(lines, key, value), [EditLine(line, key, value)]);
    assert Concat([EditLine(line, key, value)]) == EditLine(line, key, value) + Concat([]);
  }

  lemma SetOneMore(lines: seq<string>, line: string, key: string)
    ensures IsSet(lines + [line], key) <==> IsSet(lines, key) || SetsKey(line, key)
  {
    hide SetsKey;
    var longer := lines + [line];
    assert longer[|lines|] == line;
    assert forall j :: 0 <= j < |lines| ==> longer[j] == lines[j];
  }

  lemma DiffersOneMore(lines: seq<string>, line: string, key: string, value: string)
    ensures Differs(lines + [line], key, value) <==>
              Differs(lines, key, value) || (SetsKey(line, key) && Setting(Text(line)).value.1 != value)
  {
    hide Setting, Text;
    var longer := lines + [line];
    assert longer[|lines|] == line;
    assert forall j :: 0 <= j < |lines| ==> longer[j] == lines[j];
  }

  lemma UnsetUnedited(lines: seq<string>, key: string, value: string)
    requires !IsSet(lines, key)
    ensures EditLines(lines, key, value) == lines
  {
  }

  lemma {:induction false} SplitJoins(s: string)
    ensures Concat(SplitInclusive(s)) == s
    decreases |s|
  {
    if s != "" {
      SplitJoins(s[LineLength(s)..]);
      assert SplitInclusive(s)[1..] == SplitInclusive(s[LineLength(s)..]);
    }
  }

  // ---------------------------------------------------------------- lines

  /** A line ends in a newline and has no other; only the last may lack it. */
  predicate IsLine(line: string, last: bool) {
    line != "" && (forall i :: 0 <= i < |line| - 1 ==> line[i] != '\n') && (!last ==> line[|line| - 1] == '\n')
  }

  predicate AreLines(lines: seq<string>) {
    forall i :: 0 <= i < |lines| ==> IsLine(lines[i], i == |lines| - 1)
  }

  lemma {:induction false} LineLengthEnds(s: string)
    requires s != ""
    ensures forall i :: 0 <= i < LineLength(s) - 1 ==> s[i] != '\n'
    ensures LineLength(s) < |s| ==> s[LineLength(s) - 1] == '\n'
  {
    if s[0] != '\n' && |s| > 1 {
      LineLengthEnds(s[1..]);
    }
  }

  lemma {:induction false} SplitGivesLines(s: string)
    ensures AreLines(SplitInclusive(s)) && (s != "" ==> SplitInclusive(s) != [])
    decreases |s|
  {
    if s != "" {
      LineLengthEnds(s);
      SplitGivesLines(s[LineLength(s)..]);
    }
  }

  lemma {:induction false} FirstLine(line: string, rest: string)
    requires IsLine(line, rest == "")
    ensures LineLength(line + rest) == |line|
    decreases |line|
  {
    var s := line + rest;
    assert s[0] == line[0];
    if |line| > 1 {
      assert s[1..] == line[1..] + rest;
      FirstLine(line[1..], rest);
    } else if line[0] != '\n' {
      assert rest == "" && s == line && line[1..] == "";
    }
  }

  /** Joining lines and splitting again gives the same lines. */
  lemma {:induction false} JoinSplits(lines: seq<string>)
    requires AreLines(lines)
    ensures SplitInclusive(Concat(lines)) == lines
    decreases |lines|
  {
    if lines != [] {
      var rest := Concat(lines[1..]);
      JoinSplits(lines[1..]);
      if |lines| > 1 {
        assert lines[1] != "" && lines[1..][0] == lines[1];
      }
      assert (rest == "") == (|lines| == 1);
      FirstLine(lines[0], rest);
      assert Concat(lines)[|lines[0]|..] == rest && Concat(lines)[..|lines[0]|] == lines[0];
    }
  }

  // ---------------------------------------------------------------- trimming

  predicate Blank(s: string) {
    forall i :: 0 <= i < |s| ==> IsSpace(s[i])
  }

  lemma {:induction false} TrimBackBlank(s: string, blank: string)
    requires Blank(blank)
    ensures TrimBack(s + blank, IsSpace) == TrimBack(s, IsSpace)
    decreases |blank|
  {
    if blank == "" {
      assert s + blank == s;
    } else {
      var shorter := blank[..|blank| - 1];
      assert (s + blank)[..|s + blank| - 1] == s + shorter;
      TrimBackBlank(s, shorter);
    }
  }

  lemma TrimBlankEnd(s: string, blank: string)
    requires Blank(blank)
    ensures Trim(s + blank) == Trim(s)
  {
    TrimBackBlank(s, blank);
  }

  lemma {:induction false} TrimFrontShortens(s: string)
    ensures |TrimFront(s)| <= |s| && (|TrimFront(s)| == |s| ==> TrimFront(s) == s)
    decreases |s|
  {
    if s != "" && IsSpace(s[0]) {
      TrimFrontShortens(s[1..]);
    }
  }

  /** A trimmed text has no blank at either end. */
  lemma TrimmedEnds(s: string)
    requires Trim(s) == s
    ensures TrimBack(s, IsSpace) == s && TrimFront(s) == s
  {
    TrimBackPrefix(s, IsSpace);
    TrimFrontShortens(TrimBack(s, IsSpace));
  }

  lemma TrimBlankFront(s: string)
    requires Trim(s) == s
    ensures Trim(" " + s) == s
  {
    TrimmedEnds(s);
    var padded := " " + s;
    if s == "" {
      assert padded[..0] == "";
      assert TrimBack(padded, IsSpace) == "";
    } else {
      TrimBackPrefix(s, IsSpace);
      assert padded[|padded| - 1] == s[|s| - 1];
      assert TrimBack(padded, IsSpace) == padded;
      assert padded[1..] == s;
    }
  }

  // ---------------------------------------------------------------- reader and editor agree on every line

  lemma {:induction false} SplitOnceBlank(s: string, blank: string)
    requires Blank(blank)
    ensures SplitOnce(s).None? ==> SplitOnce(s + blank).None?
    ensures SplitOnce(s).Some? ==> SplitOnce(s + blank) == Some((SplitOnce(s).value.0, SplitOnce(s).value.1 + blank))
    decreases |s| + |blank|
  {
    if s == "" {
      assert s + blank == blank;
      if blank != "" {
        assert blank[0] != '=';
        assert "" + blank[1..] == blank[1..];
        SplitOnceBlank("", blank[1..]);
      }
    } else {
      assert (s + blank)[1..] == s[1..] + blank;
      if s[0] != '=' {
        SplitOnceBlank(s[1..], blank);
      }
    }
  }

  /** Blanks at the end of a line do not change what it sets. */
  lemma SettingBlank(s: string, blank: string)
    requires Blank(blank)
    ensures Setting(s + blank) == Setting(s)
  {
    SplitOnceBlank(s, blank);
    if SplitOnce(s).Some? {
      TrimBlankEnd(SplitOnce(s).value.1, blank);
    }
  }

  /** What the reader sees in a line is what the editor sees in it. */
  lemma SameSetting(line: string)
    ensures Setting(Stripped(line)) == Setting(Text(line))
  {
    var text := Text(line);
    TrimBackPrefix(line, IsEol);
    assert line == text + line[|text|..];
    var stripped := Stripped(line);
    if |stripped| >= |text| {
      assert stripped == text + stripped[|text|..];
      SettingBlank(text, stripped[|text|..]);
    }
  }

  // ---------------------------------------------------------------- edit and read agree

  predicate GoodKey(key: string) {
    Trim(key) == key && '=' !in key && '\n' !in key
  }

  predicate GoodValue(value: string) {
    Trim(value) == value && '\n' !in value
  }

  lemma {:induction false} SplitOnceAt(left: string, right: string)
    requires '=' !in left
    ensures SplitOnce(left + "=" + right) == Some((left, right))
    decreases |left|
  {
    var s := left + "=" + right;
    if left == "" {
      assert s[0] == '=' && s[1..] == right;
    } else {
      assert s[0] == left[0] && s[1..] == left[1..] + "=" + right;
      SplitOnceAt(left[1..], right);
      assert [left[0]] + left[1..] == left;
    }
  }

  /** The written line sets the key to the value. */
  lemma NewLineSets(key: string, value: string)
    requires GoodKey(key) && GoodValue(value)
    ensures Setting(NewLine(key, value)) == Some((key, value))
  {
    assert NewLine(key, value) == (key + " ") + "=" + (" " + value);
    SplitOnceAt(key + " ", " " + value);
    TrimBlankEnd(key, " ");
    TrimBlankFront(value);
  }

  lemma {:induction false} TrimBackEols(s: string, eols: string)
    requires s != "" && !IsEol(s[|s| - 1]) && forall i :: 0 <= i < |eols| ==> IsEol(eols[i])
    ensures TrimBack(s + eols, IsEol) == s
    decreases |eols|
  {
    if eols == "" {
      assert s + eols == s;
    } else {
      assert (s + eols)[..|s + eols| - 1] == s + eols[..|eols| - 1];
      TrimBackEols(s, eols[..|eols| - 1]);
    }
  }

  lemma NewLineText(key: string, value: string, eols: string)
    requires GoodKey(key) && GoodValue(value) && forall i :: 0 <= i < |eols| ==> IsEol(eols[i])
    ensures Text(NewLine(key, value) + eols) == NewLine(key, value)
  {
    var line := NewLine(key, value);
    if value == "" {
      assert line[|line| - 1] == ' ';
    } else {
      TrimmedEnds(value);
      TrimBackPrefix(value, IsSpace);
      assert line[|line| - 1] == value[|value| - 1];
    }
    TrimBackEols(line, eols);
  }

  lemma EditedLine(line: string, last: bool, key: string, value: string)
    requires GoodKey(key) && GoodValue(value) && IsLine(line, last)
    ensures IsLine(EditLine(line, key, value), last)
    ensures Setting(Text(EditLine(line, key, value))) == if SetsKey(line, key) then Some((key, value)) else Setting(Text(line))
  {
    if SetsKey(line, key) {
      var eols := line[|Text(line)|..];
      TrimBackPrefix(line, IsEol);
      NewLineSets(key, value);
      NewLineText(key, value, eols);
      var fresh', edited := NewLine(key, value), EditLine(line, key, value);
      assert '\n' !in fresh';
      forall i | 0 <= i < |edited| - 1
        ensures edited[i] != '\n'
      {
        if i >= |fresh'| {
          assert edited[i] == line[|Text(line)| + i - |fresh'|];
        }
      }
      if !last {
        assert line[|line| - 1] == '\n' && IsEol('\n');
        assert eols != "" && edited[|edited| - 1] == eols[|eols| - 1];
      }
    }
  }

  /** Reading the edited lines gives the old map updated at the key. */
  lemma {:induction false} ReadEdited(lines: seq<string>, key: string, value: string)
    requires GoodKey(key) && GoodValue(value) && forall i :: 0 <= i < |lines| ==> IsLine(lines[i], true)
    ensures ReadLines(EditLines(lines, key, value)) ==
            if IsSet(lines, key) then ReadLines(lines)[key := Unquote(value)] else ReadLines(lines)
    decreases |lines|
  {
    hide EditLine, Setting, Text, IsLine, Stripped, Unquote, IsSet;
    if lines == [] {
      NothingSet(key);
    } else {
      var shorter, line := lines[..|lines| - 1], lines[|lines| - 1];
      assert lines == shorter + [line];
      ReadEdited(shorter, key, value);
      SetOneMore(shorter, line, key);
      var edited := EditLines(lines, key, value);
      assert edited[..|lines| - 1] == EditLines(shorter, key, value);
      EditedLine(line, true, key, value);
      SameSetting(line);
      SameSetting(EditLine(line, key, value));
      ReadEditedLine(ReadLines(shorter), ReadLines(EditLines(shorter, key, value)), line, EditLine(line, key, value), key, value);
    }
  }

  lemma NothingSet(key: string)
    ensures !IsSet([], key)
  {
  }

  /** One line read on top of two maps that agree but for the key. */
  lemma ReadEditedLine(config: map<string, string>, other: map<string, string>, line: string, edited: string, key: string, value: string)
    requires Setting(Stripped(line)) == Setting(Text(line))
    requires Setting(Stripped(edited)) == if SetsKey(line, key) then Some((key, value)) else Setting(Text(line))
    ensures SetsKey(line, key) && (other == config || other == config[key := Unquote(value)]) ==>
              ReadLine(other, edited) == ReadLine(config, line)[key := Unquote(value)]
    ensures !SetsKey(line, key) && other == config[key := Unquote(value)] ==>
              ReadLine(other, edited) == ReadLine(config, line)[key := Unquote(value)]
    ensures !SetsKey(line, key) && other == config ==> ReadLine(other, edited) == ReadLine(config, line)
  {
    hide Setting, Text, Stripped, Unquote;
  }

  /** When every line that sets the key already sets the value, the reader has it. */
  lemma {:induction false} ReadUnchanged(lines: seq<string>, key: string, value: string)
    requires IsSet(lines, key) && !Differs(lines, key, value)
    ensures key in ReadLines(lines) && ReadLines(lines)[key] == Unquote(value)
    decreases |lines|
  {
    hide Setting, Text, Stripped, Unquote;
    var shorter, line := lines[..|lines| - 1], lines[|lines| - 1];
    assert lines == shorter + [line];
    SetOneMore(shorter, line, key);
    DiffersOneMore(shorter, line, key, value);
    SameSetting(line);
    if !SetsKey(line, key) {
      ReadUnchanged(shorter, key, value);
    }
  }

  /** The lines of a text whose last line was ended. */
  lemma ClosedLines(content: string)
    ensures var before := SplitInclusive(content);
            SplitInclusive(Closed(content)) ==
              if content == "" || content[|content| - 1] == '\n' then before else before[..|before| - 1] + [before[|before| - 1] + "\n"]
    ensures forall i :: 0 <= i < |SplitInclusive(Closed(content))| ==> IsLine(SplitInclusive(Closed(content))[i], false)
  {
    var before := SplitInclusive(content);
    SplitGivesLines(content);
    SplitJoins(content);
    hide SplitInclusive;
    if content == "" || content[|content| - 1] == '\n' {
      EndsWithNewline(before, content);
    } else {
      var n := |before| - 1;
      var closed := before[..n] + [before[n] + "\n"];
      assert before == before[..n] + [before[n]];
      JoinOneMore(before[..n], before[n]);
      JoinOneMore(before[..n], before[n] + "\n");
      assert Concat(closed) == Closed(content);
      LacksNewline(before, content);
      assert AreLines(closed);
      JoinSplits(closed);
    }
  }

  /** The lines of the text after an append: the old ones, ended, and the new one. */
  lemma AppendedLines(content: string, key: string, value: string)
    requires GoodKey(key) && GoodValue(value) && !IsSet(SplitInclusive(content), key)
    ensures SplitInclusive(Edited(content, key, value)) == SplitInclusive(Closed(content)) + [NewLine(key, value) + "\n"]
  {
    var added := NewLine(key, value) + "\n";
    hide SplitInclusive, IsSet, NewLine, Closed;
    var closed := SplitInclusive(Closed(content));
    ClosedLines(content);
    SplitJoins(Closed(content));
    NoNewline(key, value);
    assert IsLine(added, true);
    JoinOneMore(closed, added);
    assert AreLines(closed + [added]);
    JoinSplits(closed + [added]);
  }

  lemma NoNewline(key: string, value: string)
    requires GoodKey(key) && GoodValue(value)
    ensures '\n' !in NewLine(key, value)
  {
  }

  lemma JoinOneMore(lines: seq<string>, line: string)
    ensures Concat(lines + [line]) == Concat(lines) + line
  {
    ConcatAppend(lines, [line]);
    assert Concat([line]) == line + Concat([]);
  }

  lemma EndsWithNewline(lines: seq<string>, content: string)
    requires AreLines(lines) && Concat(lines) == content && (content == "" || content[|content| - 1] == '\n')
    ensures forall i :: 0 <= i < |lines| ==> IsLine(lines[i], false)
  {
    if lines != [] {
      LastLine(lines);
    }
  }

  lemma LacksNewline(lines: seq<string>, content: string)
    requires AreLines(lines) && lines != [] && Concat(lines) == content && content != "" && content[|content| - 1] != '\n'
    ensures IsLine(lines[|lines| - 1] + "\n", false)
  {
    LastLine(lines);
  }

  /** The text ends as its last line ends. */
  lemma {:induction false} LastLine(lines: seq<string>)
    requires lines != [] && lines[|lines| - 1] != ""
    ensures Concat(lines) != "" && Concat(lines)[|Concat(lines)| - 1] == lines[|lines| - 1][|lines[|lines| - 1]| - 1]
    decreases |lines|
  {
    if |lines| > 1 {
      assert lines[1..][|lines| - 2] == lines[|lines| - 1];
      LastLine(lines[1..]);
    } else {
      assert Concat(lines[1..]) == "";
    }
  }

  lemma {:induction false} ReadSameSettings(a: seq<string>, b: seq<string>)
    requires |a| == |b| && forall i :: 0 <= i < |a| ==> Setting(Text(a[i])) == Setting(Text(b[i]))
    ensures ReadLines(a) == ReadLines(b)
    ensures forall key :: IsSet(a, key) == IsSet(b, key)
    decreases |a|
  {
    if a != [] {
      ReadSameSettings(a[..|a| - 1], b[..|b| - 1]);
      SameSetting(a[|a| - 1]);
      SameSetting(b[|b| - 1]);
    }
  }

  /** Ending the last line changes no setting. */
  lemma ClosedReads(content: string)
    ensures ReadLines(SplitInclusive(Closed(content))) == ReadLines(SplitInclusive(content))
    ensures forall key :: IsSet(SplitInclusive(Closed(content)), key) == IsSet(SplitInclusive(content), key)
  {
    var before, after := SplitInclusive(content), SplitInclusive(Closed(content));
    ClosedLines(content);
    SplitGivesLines(content);
    hide SplitInclusive, Closed, IsSet, ReadLines;
    forall i | 0 <= i < |before|
      ensures Setting(Text(before[i])) == Setting(Text(after[i]))
    {
      if after[i] != before[i] {
        assert after[i] == before[i] + "\n" && (before[i] + "\n")[..|before[i]|] == before[i];
      }
    }
    ReadSameSettings(before, after);
  }

  /** Reading after an edit gives the old map updated at that key only, for every text. */
  lemma ReadAfterEdit(content: string, key: string, value: string)
    requires GoodKey(key) && GoodValue(value)
    ensures ReadConfig(Edited(content, key, value)) == ReadConfig(content)[key := Unquote(value)]
  {
    var lines := SplitInclusive(content);
    SplitGivesLines(content);
    hide SplitInclusive, ReadLines, NewLine;
    if !IsSet(lines, key) {
      AppendedLines(content, key, value);
      ClosedReads(content);
      ReadAppended(SplitInclusive(Closed(content)), key, value);
    } else if Differs(lines, key, value) {
      ReadEdited(lines, key, value);
      EditedAreLines(lines, key, value);
      JoinSplits(EditLines(lines, key, value));
    } else {
      ReadUnchanged(lines, key, value);
    }
  }

  lemma ReadAppended(lines: seq<string>, key: string, value: string)
    requires GoodKey(key) && GoodValue(value)
    ensures ReadLines(lines + [NewLine(key, value) + "\n"]) == ReadLines(lines)[key := Unquote(value)]
  {
    var added := NewLine(key, value) + "\n";
    hide NewLine, Setting, Text, Stripped;
    AppendedSets(key, value);
    SameSetting(added);
    assert (lines + [added])[..|lines|] == lines;
  }

  lemma AppendedSets(key: string, value: string)
    requires GoodKey(key) && GoodValue(value)
    ensures Setting(Text(NewLine(key, value) + "\n")) == Some((key, value))
  {
    NewLineSets(key, value);
    NewLineText(key, value, "\n");
  }

  lemma EditedAreLines(lines: seq<string>, key: string, value: string)
    requires GoodKey(key) && GoodValue(value) && AreLines(lines)
    ensures AreLines(EditLines(lines, key, value))
    ensures forall i :: 0 <= i < |lines| ==>
              Setting(Text(EditLines(lines, key, value)[i])) == if SetsKey(lines[i], key) then Some((key, value)) else Setting(Text(lines[i]))
  {
    forall i | 0 <= i < |lines|
      ensures IsLine(EditLine(lines[i], key, value), i == |lines| - 1)
      ensures Setting(Text(EditLine(lines[i], key, value))) == if SetsKey(lines[i], key) then Some((key, value)) else Setting(Text(lines[i]))
    {
      EditedLine(lines[i], i == |lines| - 1, key, value);
    }
  }

  /** After an edit that changes something, line by line: each is the edited line of before. */
  lemma EditedLineByLine(content: string, key: string, value: string)
    requires GoodKey(key) && GoodValue(value)
    ensures var (before, after) := (SplitInclusive(content), SplitInclusive(Edited(content, key, value)));
            if !IsSet(before, key) then after == SplitInclusive(Closed(content)) + [key + " = " + value + "\n"]
            else if Differs(before, key, value) then after == EditLines(before, key, value)
            else after == before
  {
    var lines := SplitInclusive(content);
    SplitGivesLines(content);
    hide SplitInclusive, Setting, Text, Closed;
    if !IsSet(lines, key) {
      AppendedLines(content, key, value);
    } else if Differs(lines, key, value) {
      EditedAreLines(lines, key, value);
      JoinSplits(EditLines(lines, key, value));
    }
  }

  /** An edit keeps every other line's text, in place; at most it ends an unended last line and adds one line. */
  lemma OtherLinesKept(content: string, key: string, value: string)
    requires GoodKey(key) && GoodValue(value)
    ensures var (before, after) := (SplitInclusive(content), SplitInclusive(Edited(content, key, value)));
            && |after| == |before| + (if IsSet(before, key) then 0 else 1)
            && forall i :: 0 <= i < |before| && !SetsKey(before[i], key) ==>
                 after[i] == before[i] || (!IsSet(before, key) && i == |before| - 1 && after[i] == before[i] + "\n")
  {
    var lines := SplitInclusive(content);
    SplitGivesLines(content);
    hide SplitInclusive, NewLine, Setting, Text, Closed;
    if !IsSet(lines, key) {
      AppendedLines(content, key, value);
      ClosedLines(content);
    } else if Differs(lines, key, value) {
      EditedAreLines(lines, key, value);
      JoinSplits(EditLines(lines, key, value));
    }
  }

  /** After an edit the key is set, by lines that all set the value. */
  lemma EditedSets(content: string, key: string, value: string)
    requires GoodKey(key) && GoodValue(value)
    ensures var after := SplitInclusive(Edited(content, key, value)); IsSet(after, key) && !Differs(after, key, value)
  {
    var lines := SplitInclusive(content);
    SplitGivesLines(content);
    hide SplitInclusive, NewLine, Setting, Text, Closed;
    if !IsSet(lines, key) {
      var closed, added := SplitInclusive(Closed(content)), NewLine(key, value) + "\n";
      AppendedLines(content, key, value);
      ClosedReads(content);
      AppendedSets(key, value);
      SetOneMore(closed, added, key);
      DiffersOneMore(closed, added, key, value);
    } else if Differs(lines, key, value) {
      EditedAreLines(lines, key, value);
      JoinSplits(EditLines(lines, key, value));
      var i :| 0 <= i < |lines| && SetsKey(lines[i], key);
      assert SetsKey(EditLines(lines, key, value)[i], key);
    }
  }

  /** A second identical edit changes nothing. */
  lemma EditIdempotent(content: string, key: string, value: string)
    requires GoodKey(key) && GoodValue(value)
    ensures Edited(Edited(content, key, value), key, value) == Edited(content, key, value)
  {
    EditedSets(content, key, value);
  }

  // ---------------------------------------------------------------- what a line means, without the parser

  /** `t` is `s` without the blanks around it. */
  ghost predicate Trims(s: string, t: string) {
    && (t != "" ==> !IsSpace(t[0]) && !IsSpace(t[|t| - 1]))
    && exists before, after :: s == before + t + after && Blank(before) && Blank(after)
  }

  /** The text has an equals sign, the first one between blanks, the key and blanks, and blanks, the value and blanks. */
  ghost predicate SetsTo(text: string, key: string, value: string) {
    exists left, right :: '=' !in left && text == left + "=" + right && Trims(left, key) && Trims(right, value)
  }

  /** What a written value stands for: what is between its double quotes, or itself when it is not in quotes. */
  ghost predicate Means(value: string, meaning: string) {
    if exists inner :: value == "\"" + inner + "\"" then value == "\"" + meaning + "\"" else meaning == value
  }

  lemma {:induction false} TrimFrontSuffix(s: string)
    ensures |TrimFront(s)| <= |s| && s == s[..|s| - |TrimFront(s)|] + TrimFront(s) && Blank(s[..|s| - |TrimFront(s)|])
    ensures TrimFront(s) != "" ==> !IsSpace(TrimFront(s)[0])
    decreases |s|
  {
    if s != "" && IsSpace(s[0]) {
      TrimFrontSuffix(s[1..]);
      var n := |s| - |TrimFront(s)|;
      assert s[..n] == [s[0]] + s[1..][..n - 1];
    }
  }

  lemma {:induction false} TrimFrontBlank(blank: string, t: string)
    requires Blank(blank) && (t != "" ==> !IsSpace(t[0]))
    ensures TrimFront(blank + t) == t
    decreases |blank|
  {
    if blank == "" {
      assert blank + t == t;
    } else {
      assert (blank + t)[1..] == blank[1..] + t;
      TrimFrontBlank(blank[1..], t);
    }
  }

  lemma TrimBackParts(s: string)
    ensures |TrimBack(s, IsSpace)| <= |s| && s == TrimBack(s, IsSpace) + s[|TrimBack(s, IsSpace)|..] && Blank(s[|TrimBack(s, IsSpace)|..])
    ensures TrimBack(s, IsSpace) != "" ==> !IsSpace(TrimBack(s, IsSpace)[|TrimBack(s, IsSpace)| - 1])
  {
    hide IsSpace, TrimBack;
    TrimBackPrefix(s, IsSpace);
  }

  lemma TrimsBetween(before: string, t: string, after: string)
    requires (t != "" ==> !IsSpace(t[0]) && !IsSpace(t[|t| - 1])) && Blank(before) && Blank(after)
    ensures Trims(before + t + after, t)
  {
  }

  lemma TrimTrims(s: string)
    ensures Trims(s, Trim(s))
  {
    hide IsSpace, TrimBack, TrimFront, Blank, Trims;
    var back, t := TrimBack(s, IsSpace), Trim(s);
    TrimBackParts(s);
    TrimFrontSuffix(back);
    TrimsBetween(back[..|back| - |t|], t, s[|back|..]);
  }

  lemma OnlyOneTrims(s: string, t: string)
    requires Trims(s, t)
    ensures Trim(s) == t
  {
    var before, after :| s == before + t + after && Blank(before) && Blank(after);
    TrimBackBlank(before + t, after);
    if t == "" {
      assert before + t == "" + before;
      TrimBackBlank("", before);
    } else {
      assert TrimBack(before + t, IsSpace) == before + t;
      TrimFrontBlank(before, t);
    }
  }

  lemma {:induction false} SplitOnceParts(s: string)
    ensures SplitOnce(s).None? <==> '=' !in s
    ensures SplitOnce(s).Some? ==> '=' !in SplitOnce(s).value.0 && s == SplitOnce(s).value.0 + "=" + SplitOnce(s).value.1
  {
    if s != "" && s[0] != '=' {
      SplitOnceParts(s[1..]);
      assert s == [s[0]] + s[1..];
    }
  }

  /** What the parser finds in a text is what the text says, and it finds nothing exactly when there is no equals sign. */
  lemma SettingExactly(text: string, key: string, value: string)
    ensures Setting(text) == Some((key, value)) <==> SetsTo(text, key, value)
    ensures Setting(text).None? <==> '=' !in text
  {
    SplitOnceParts(text);
    if Setting(text) == Some((key, value)) {
      var (left, right) := SplitOnce(text).value;
      TrimTrims(left);
      TrimTrims(right);
    }
    if SetsTo(text, key, value) {
      var left, right :| '=' !in left && text == left + "=" + right && Trims(left, key) && Trims(right, value);
      SplitOnceAt(left, right);
      OnlyOneTrims(left, key);
      OnlyOneTrims(right, value);
    }
  }

  lemma UnquoteMeans(value: string)
    ensures Means(value, Unquote(value))
  {
    if inner :| value == "\"" + inner + "\"" {
      assert value[1..|value| - 1] == inner;
    } else if |value| >= 2 && value[0] == '"' && value[|value| - 1] == '"' {
      assert value == "\"" + value[1..|value| - 1] + "\"";
    }
  }

  /** Line `i` is the last one that sets the key, and sets it to `value`. */
  ghost predicate LastSets(lines: seq<string>, key: string, value: string, i: nat) {
    && i < |lines| && SetsTo(Stripped(lines[i]), key, value)
    && forall j, other :: i < j < |lines| ==> !SetsTo(Stripped(lines[j]), key, other)
  }

  /** Reading gives every key what the last line that sets it says, and no key that no line sets. */
  lemma {:induction false} ReadIsLastLine(lines: seq<string>, key: string)
    ensures key in ReadLines(lines) <==> exists i, value :: 0 <= i < |lines| && SetsTo(Stripped(lines[i]), key, value)
    ensures forall i: nat, value :: LastSets(lines, key, value, i) ==> key in ReadLines(lines) && Means(value, ReadLines(lines)[key])
    decreases |lines|
  {
    hide SetsTo, Setting, Stripped, Unquote, Means;
    if lines != [] {
      var shorter, line := lines[..|lines| - 1], lines[|lines| - 1];
      var setting := Setting(Stripped(line));
      ReadIsLastLine(shorter, key);
      forall value
        ensures SetsTo(Stripped(line), key, value) <==> setting == Some((key, value))
      {
        SettingExactly(Stripped(line), key, value);
      }
      if setting.Some? && setting.value.0 == key {
        UnquoteMeans(setting.value.1);
        assert SetsTo(Stripped(lines[|lines| - 1]), key, setting.value.1);
        forall i: nat, value | LastSets(lines, key, value, i)
          ensures key in ReadLines(lines) && Means(value, ReadLines(lines)[key])
        {
          assert i == |lines| - 1;
        }
      } else {
        forall i: nat, value | LastSets(lines, key, value, i)
          ensures LastSets(shorter, key, value, i)
        {
          assert lines[i] == shorter[i];
        }
        if i, value :| 0 <= i < |lines| && SetsTo(Stripped(lines[i]), key, value) {
          assert shorter[i] == lines[i];
        }
      }
    }
  }

  /** A line that sets the key is rewritten with its own line end; no other line is touched. */
  lemma LineEditedExactly(text: string, eols: string, key: string, value: string)
    requires (forall i :: 0 <= i < |eols| ==> eols[i] in "\r\n") && (text != "" ==> text[|text| - 1] !in "\r\n")
    ensures EditLine(text + eols, key, value) ==
            if exists other :: SetsTo(text, key, other) then key + " = " + value + eols else text + eols
  {
    hide SetsTo, Setting;
    var line := text + eols;
    TrimBackPrefix(line, IsEol);
    assert forall i :: |text| <= i < |line| ==> line[i] == eols[i - |text|] && IsEol(line[i]);
    assert Text(line) != "" ==> line[|Text(line)| - 1] == Text(line)[|Text(line)| - 1];
    assert text != "" ==> line[|text| - 1] == text[|text| - 1] && !IsEol(text[|text| - 1]);
    assert Text(line) == text;
    forall other
      ensures Setting(text) == Some((key, other)) <==> SetsTo(text, key, other)
    {
      SettingExactly(text, key, other);
    }
    if SetsKey(line, key) {
      assert SetsTo(text, key, Setting(text).value.1);
    }
  }
}
