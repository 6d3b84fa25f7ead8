/**
 The kernel's mount table: the octal-escape decoder, the line parser, and the table it reads
 back from what the kernel prints.
 */
module MountInfo {
  import opened Common
  import opened Text

  // ------------------------------------------------------------ octal escapes

  predicate IsOctal(c: char) {
    '0' <= c <= '7'
  }

  /** How many of the first three characters form a run of octal digits. */
  function OctalRun(s: string): (n: nat)
    ensures n <= 3 && n <= |s|
    ensures forall i :: 0 <= i < n ==> IsOctal(s[i])
    ensures n < 3 && n < |s| ==> !IsOctal(s[n])
  {
    if s == "" || !IsOctal(s[0]) then 0
    else if |s| == 1 || !IsOctal(s[1]) then 1
    else if |s| == 2 || !IsOctal(s[2]) then 2
    else 3
  }

  function DigitValue(c: char): nat
    requires IsOctal(c)
  {
    c as int - '0' as int
  }

  function OctalValue(digits: string): nat
    requires |digits| == 3 && forall i :: 0 <= i < 3 ==> IsOctal(digits[i])
  {
    DigitValue(digits[0]) * 64 + DigitValue(digits[1]) * 8 + DigitValue(digits[2])
  }

  /** A whole escape of one byte starts the text. */
  predicate StartsEscape(s: string) {
    s != "" && s[0] == '\\' && OctalRun(s[1..]) == 3 && OctalValue(s[1..4]) <= 255
  }

  /** How many characters the first unit of encoded text takes, and what it stands for. */
  function FirstUnit(s: string): (r: (nat, string))
    requires s != ""
    ensures 0 < r.0 <= |s|
  {
    if StartsEscape(s) then (4, [OctalValue(s[1..4]) as char])
    else if s[0] != '\\' then (1, [s[0]])
    else (OctalRun(s[1..]) + 1, "\\" + s[1..OctalRun(s[1..]) + 1])
  }

  /** A backslash with three octal digits below 400 is one character; any other backslash is literal. */
  function Decode(s: string): string
    decreases |s|
  {
    if s == "" then "" else FirstUnit(s).1 + Decode(s[FirstUnit(s).0..])
  }

  lemma LiteralUnit(s: string)
    requires s != ""
    ensures var (width, unit) := FirstUnit(s);
            && |unit| <= width
            && (StartsEscape(s) ==> |unit| < width)
            && (!StartsEscape(s) ==> unit == s[..width])
            && forall i :: 0 < i < width ==> s[i] != '\\'
  {
    var t := s[1..];
    assert forall i :: 0 < i < |s| ==> s[i] == t[i - 1];
  }

  predicate HoldsEscape(s: string) {
    s != "" && (StartsEscape(s) || HoldsEscape(s[1..]))
  }

  lemma {:induction false} NoEscapeBefore(s: string, k: nat)
    requires k <= |s| && forall i :: 0 <= i < k ==> s[i] != '\\'
    ensures HoldsEscape(s) == HoldsEscape(s[k..])
  {
    if k > 0 {
      NoEscapeBefore(s[1..], k - 1);
      assert s[1..][k - 1..] == s[k..];
    } else {
      assert s[k..] == s;
    }
  }

  /** Text comes out unchanged exactly when no whole escape is in it: partial and oversized ones are literal. */
  lemma {:induction false} LiteralExactly(s: string)
    ensures |Decode(s)| <= |s|
    ensures Decode(s) == s <==> !HoldsEscape(s)
    decreases |s|
  {
    if s != "" {
      var (width, unit) := FirstUnit(s);
      var rest := s[width..];
      LiteralUnit(s);
      LiteralExactly(rest);
      NoEscapeBefore(s[1..], width - 1);
      assert s[1..][width - 1..] == rest;
      Prepended(unit, Decode(rest), s, width);
    }
  }

  lemma Prepended(unit: string, decoded: string, s: string, width: nat)
    requires |unit| <= width <= |s| && |decoded| <= |s| - width
    requires unit == s[..width] || |unit| < width
    ensures |unit + decoded| <= |s|
    ensures unit + decoded == s <==> unit == s[..width] && decoded == s[width..]
  {
    assert s == s[..width] + s[width..];
    if unit == s[..width] && unit + decoded == s {
      assert decoded == (unit + decoded)[width..];
    }
  }

  lemma DecodeOnto(output: string, rest: string)
    requires rest != ""
    ensures var (width, unit) := FirstUnit(rest);
            output + Decode(rest) == (output + unit) + Decode(rest[width..])
  {
    var (width, unit) := FirstUnit(rest);
    Regroup(output, unit, Decode(rest[width..]));
  }

  /** The inner loop: takes up to three octal digits off the iterator. */
  method TakeOctal(chars: string) returns (octal: string, rest: string)
    ensures |octal| == OctalRun(chars) && octal == chars[..|octal|] && rest == chars[|octal|..]
  {
    octal, rest := "", chars;
    for taken := 0 to 3
      invariant |octal| == taken <= |chars| && octal == chars[..taken] && rest == chars[taken..]
      invariant forall i :: 0 <= i < taken ==> IsOctal(octal[i])
    {
      if rest == "" || !IsOctal(rest[0]) {
        break;
      }
      octal, rest := octal + [rest[0]], rest[1..];
    }
    assert forall i :: 0 <= i < |octal| ==> chars[i] == octal[i];
  }

  /** `decode_mountinfo_path`: one pass over the characters, with a look-ahead after each backslash. */
  method DecodeMountinfoPath(value: string) returns (output: string)
    ensures output == Decode(value)
  {
    output := "";
    var chars := value;
    while chars != ""
      invariant output + Decode(chars) == Decode(value)
      decreases |chars|
    {
      DecodeOnto(output, chars);
      var ch := chars[0];
      if ch != '\\' {
        output, chars := output + [ch], chars[1..];
        continue;
      }
      var octal, rest := TakeOctal(chars[1..]);
      assert octal == chars[1..|octal| + 1] && rest == chars[|octal| + 1..];
      chars := rest;
      if |octal| == 3 && OctalValue(octal) <= 255 {
        output := output + [OctalValue(octal) as char];
        continue;
      }
      output := output + ("\\" + octal);
    }
  }

  function Digit(n: nat): (c: char)
    requires n < 8
    ensures IsOctal(c) && c as int - '0' as int == n
  {
    ('0' as int + n) as char
  }

  /** A character below 256 as a backslash and three octal digits. */
  function Octal(c: char): (e: string)
    requires c as int < 256
    ensures |e| == 4 && e[0] == '\\' && forall i :: 1 <= i < 4 ==> IsOctal(e[i])
  {
    var n := c as int;
    ['\\', Digit(n / 64), Digit(n / 8 % 8), Digit(n % 8)]
  }

  lemma DecodeOctal(c: char, rest: string)
    requires c as int < 256
    ensures Decode(Octal(c) + rest) == [c] + Decode(rest)
  {
    var e := Octal(c);
    var s := e + rest;
    assert s[0] == '\\' && s[1..4] == e[1..4] && s[4..] == rest;
    var t := s[1..];
    assert t[0] == e[1] && t[1] == e[2] && t[2] == e[3] && OctalRun(t) == 3;
    var n := c as int;
    assert n == n / 64 * 64 + n / 8 % 8 * 8 + n % 8;
    assert OctalValue(s[1..4]) == n;
  }

  // ---------------------------------------------------------------- printing

  /** The set `special` holds the backslash and otherwise only characters one byte can name. */
  predicate Escapable(special: set<char>) {
    '\\' in special && forall c :: c in special ==> c as int < 256
  }

  function Escape(s: string, special: set<char>): (e: string)
    requires Escapable(special)
    ensures forall c :: c in e ==> (c in s && c !in special) || c == '\\' || IsOctal(c)
  {
    if s == "" then ""
    else (if s[0] in special then Octal(s[0]) else [s[0]]) + Escape(s[1..], special)
  }

  /** Decoding undoes escaping, for every string and whatever else is escaped besides the backslash. */
  lemma {:induction false} DecodeUndoesEscape(s: string, special: set<char>)
    requires Escapable(special)
    ensures Decode(Escape(s, special)) == s
  {
    if s != "" {
      var rest := Escape(s[1..], special);
      DecodeUndoesEscape(s[1..], special);
      if s[0] in special {
        DecodeOctal(s[0], rest);
      } else {
        assert ([s[0]] + rest)[1..] == rest;
      }
    }
  }

  lemma {:induction false} EscapeConcat(a: string, b: string, special: set<char>)
    requires Escapable(special)
    ensures Escape(a + b, special) == Escape(a, special) + Escape(b, special)
  {
    if a == "" {
      assert a + b == b;
    } else {
      var first := if a[0] in special then Octal(a[0]) else [a[0]];
      assert (a + b)[1..] == a[1..] + b;
      EscapeConcat(a[1..], b, special);
      assert Escape(a + b, special) == first + (Escape(a[1..], special) + Escape(b, special));
    }
  }

  /** What the kernel escapes in a mount table. */
  const KERNEL_ESCAPES: set<char> := {' ', '\t', '\n', '\\'}

  function Printed(path: string): (e: string)
    ensures forall c :: c in e ==> c != ' ' && c != '\t' && c != '\n'
    ensures forall c :: c in e && IsWhitespace(c) ==> c in path
  {
    Escape(path, KERNEL_ESCAPES)
  }

  // ------------------------------------------------------------------ parsing

  datatype Mount = Mount(filesystemType: string, mode: Option<string>)

  type Table = map<string, Mount>

  function ModeOf(options: string): Option<string> {
    var first := Until(options, ',');
    if first == "rw" || first == "ro" then Some(first) else None
  }

  /** The mode is the option before the first comma, if that is one of the two modes. */
  lemma {:induction false} ModeIsFirstOption(first: string, others: string)
    requires ',' !in first
    ensures Until(first + "," + others, ',') == first == Until(first, ',')
    ensures ModeOf(first + "," + others) == ModeOf(first) == if first in {"rw", "ro"} then Some(first) else None
  {
    if first != "" {
      assert (first + "," + others)[1..] == first[1..] + "," + others;
      assert first == [first[0]] + first[1..];
      ModeIsFirstOption(first[1..], others);
    }
  }

  /** One line's mountpoint and entry; the error is the line itself. */
  function ParseLine(line: string): Result<(string, Mount), string> {
    match SplitOnce(line, DASH)
    case None => Err(line)
    case Some((before, after)) =>
      var fields, fsFields := SplitWhitespace(before), SplitWhitespace(after);
      if |fields| < 6 || fsFields == [] then Err(line)
      else Ok((Decode(fields[4]), Mount(fsFields[0], ModeOf(fields[5]))))
  }

  /** The entries of the lines that are not blank, or the first such line that cannot be read. */
  function Entries(lines: seq<string>): (r: Result<seq<(string, Mount)>, string>)
    ensures r.Ok? <==> forall l :: l in lines && !Blank(l) ==> ParseLine(l).Ok?
    ensures r.Err? ==> r.error in lines && !Blank(r.error) && ParseLine(r.error).Err?
  {
    if lines == [] then Ok([])
    else if Blank(lines[0]) then Entries(lines[1..])
    else
      var first :- ParseLine(lines[0]);
      var rest :- Entries(lines[1..]);
      Ok([first] + rest)
  }

  function LastWins<V>(entries: seq<(string, V)>): map<string, V> {
    if entries == [] then map[] else map[entries[0].0 := entries[0].1] + LastWins(entries[1..])
  }

  predicate IsLast<V>(entries: seq<(string, V)>, path: string, i: nat)
    requires i < |entries|
  {
    entries[i].0 == path && forall j :: i < j < |entries| ==> entries[j].0 != path
  }

  /** Every named path has an entry: that of the last line naming it. */
  lemma {:induction false} LastWinsIsLast<V>(entries: seq<(string, V)>, path: string)
    ensures path in LastWins(entries) <==> exists i :: 0 <= i < |entries| && entries[i].0 == path
    ensures forall i :: 0 <= i < |entries| && IsLast(entries, path, i) ==>
              path in LastWins(entries) && LastWins(entries)[path] == entries[i].1
  {
    if entries != [] {
      var rest := entries[1..];
      LastWinsIsLast(rest, path);
      assert forall k :: 0 <= k < |rest| ==> rest[k] == entries[k + 1];
      forall i | 0 <= i < |entries| && IsLast(entries, path, i)
        ensures path in LastWins(entries) && LastWins(entries)[path] == entries[i].1
      {
        if i > 0 {
          assert IsLast(rest, path, i - 1);
        }
      }
    }
  }

  /** The table after the remaining lines were read on top of `mounts`. */
  function Continue(mounts: Table, lines: seq<string>): Result<Table, string> {
    var entries :- Entries(lines);
    Ok(mounts + LastWins(entries))
  }

  function Parse(contents: string): Result<Table, string> {
    Continue(map[], Lines(contents))
  }

  lemma ReadOne(mounts: Table, lines: seq<string>)
    requires lines != []
    ensures Blank(lines[0]) ==> Continue(mounts, lines) == Continue(mounts, lines[1..])
    ensures !Blank(lines[0]) && ParseLine(lines[0]).Err? ==> Continue(mounts, lines) == Err(lines[0])
    ensures !Blank(lines[0]) && ParseLine(lines[0]).Ok? ==>
              var (path, mount) := ParseLine(lines[0]).value;
              Continue(mounts, lines) == Continue(mounts[path := mount], lines[1..])
  {
    if !Blank(lines[0]) && ParseLine(lines[0]).Ok? && Entries(lines[1..]).Ok? {
      var (path, mount) := ParseLine(lines[0]).value;
      var rest := Entries(lines[1..]).value;
      assert ([(path, mount)] + rest)[1..] == rest;
      assert mounts + LastWins([(path, mount)] + rest) == mounts[path := mount] + LastWins(rest);
    }
  }

  /** `parse_mount_info`: a map filled line by line, given up at the first line that cannot be read. */
  method ParseMountInfo(contents: string) returns (r: Result<Table, string>)
    ensures r == Parse(contents)
  {
    var lines := Lines(contents);
    var mounts: Table := map[];
    assert lines[0..] == lines;
    for i := 0 to |lines|
      invariant Continue(mounts, lines[i..]) == Parse(contents)
    {
      var line := lines[i];
      ReadOne(mounts, lines[i..]);
      assert lines[i..][1..] == lines[i + 1..];
      if Blank(line) {
        continue;
      }
      var split := SplitOnce(line, DASH);
      if split.None? {
        return Err(line);
      }
      var fields := SplitWhitespace(split.value.0);
      var fsFields := SplitWhitespace(split.value.1);
      if |fields| < 6 || fsFields == [] {
        return Err(line);
      }
      var mountpoint := DecodeMountinfoPath(fields[4]);
      var first := Until(fields[5], ',');
      var mode := if first == "rw" || first == "ro" then Some(first) else None;
      mounts := mounts[mountpoint := Mount(fsFields[0], mode)];
    }
    assert mounts + map[] == mounts;
    return Ok(mounts);
  }

  // --------------------------------------------------------------- round trip

  /**
   One mount as the kernel prints it: two ids, a device and a root, the mountpoint, options, optional fields,
   and after a lone dash the filesystem type and whatever follows it.
   */
  datatype Record = Record(
    ids: seq<string>,
    path: string,
    options: string,
    optional: seq<string>,
    filesystemType: string,
    tail: string)

  predicate Field(w: string) {
    Word(w) && w != "-"
  }

  predicate WellFormed(m: Record) {
    && |m.ids| == 4 && (forall i :: 0 <= i < 4 ==> Field(m.ids[i]))
    && m.path != "" && m.path[0] == '/'
    && Field(m.options) && (forall i :: 0 <= i < |m.optional| ==> Field(m.optional[i]))
    && Word(m.filesystemType)
    && (m.tail != "" ==> IsWhitespace(m.tail[0])) && '\n' !in m.tail
  }

  /** The only whitespace in the path is what the kernel escapes. */
  predicate Plain(path: string) {
    forall i :: 0 <= i < |path| && IsWhitespace(path[i]) ==> path[i] in KERNEL_ESCAPES
  }

  function FieldsOf(m: Record): seq<string> {
    m.ids + ([Printed(m.path), m.options] + m.optional)
  }

  function LineOf(m: Record): string {
    Join(FieldsOf(m)) + DASH + (m.filesystemType + m.tail)
  }

  function FileOf(mounts: seq<Record>): string {
    if mounts == [] then "" else LineOf(mounts[0]) + "\n" + FileOf(mounts[1..])
  }

  function EntryOf(m: Record): (string, Mount) {
    (m.path, Mount(m.filesystemType, ModeOf(m.options)))
  }

  function EntriesOf(mounts: seq<Record>): seq<(string, Mount)> {
    if mounts == [] then [] else [EntryOf(mounts[0])] + EntriesOf(mounts[1..])
  }

  lemma PrintedPath(path: string)
    requires path != "" && path[0] == '/'
    ensures Printed(path) != "" && Printed(path)[0] == '/'
    ensures Plain(path) ==> Field(Printed(path))
  {
    var e := Printed(path);
    if Plain(path) {
      forall i | 0 <= i < |e|
        ensures !IsWhitespace(e[i])
      {
        assert e[i] in e;
      }
    }
  }

  lemma {:induction false} JoinHolds(fields: seq<string>, c: char)
    requires c != ' ' && forall i :: 0 <= i < |fields| ==> c !in fields[i]
    ensures c !in Join(fields)
  {
    if |fields| > 1 {
      JoinHolds(fields[1..], c);
    }
  }

  lemma WordHolds(w: string, c: char)
    requires Word(w) && IsWhitespace(c)
    ensures c !in w
  {
  }

  /** Neither a space nor a line break is inside a printed field. */
  lemma PrintedFields(m: Record)
    requires WellFormed(m)
    ensures NoBareDash(FieldsOf(m)) && '\n' !in Join(FieldsOf(m))
  {
    var fields := FieldsOf(m);
    PrintedPath(m.path);
    forall i | 0 <= i < |fields|
      ensures fields[i] != "-" && ' ' !in fields[i] && '\n' !in fields[i]
    {
      if i != 4 {
        assert Field(fields[i]);
        WordHolds(fields[i], ' ');
        WordHolds(fields[i], '\n');
      }
    }
    JoinHolds(fields, '\n');
  }

  lemma StripLast(head: string, word: string, tail: string)
    requires Word(word)
    ensures StripReturn(head + (word + tail)) == head + (word + StripReturn(tail))
  {
    var line := head + (word + tail);
    if tail == "" {
      assert line[|line| - 1] == word[|word| - 1];
    } else {
      var last := |tail| - 1;
      assert line[|line| - 1] == tail[last];
      assert line[..|line| - 1] == head + (word + tail[..last]);
    }
  }

  /** The line as `lines` hands it over: a carriage return at its end is gone. */
  lemma LineArrives(m: Record, rest: string)
    requires WellFormed(m)
    ensures WellFormed(m.(tail := StripReturn(m.tail)))
    ensures Lines(LineOf(m) + "\n" + rest) == [LineOf(m.(tail := StripReturn(m.tail)))] + Lines(rest)
  {
    PrintedFields(m);
    WordHolds(m.filesystemType, '\n');
    FirstLine(LineOf(m), rest);
    StripLast(Join(FieldsOf(m)) + DASH, m.filesystemType, m.tail);
  }

  lemma LineSplits(m: Record)
    requires WellFormed(m)
    ensures SplitOnce(LineOf(m), DASH) == Some((Join(FieldsOf(m)), m.filesystemType + m.tail))
    ensures |SplitWhitespace(m.filesystemType + m.tail)| > 0
    ensures SplitWhitespace(m.filesystemType + m.tail)[0] == m.filesystemType
    ensures !Blank(LineOf(m))
  {
    PrintedFields(m);
    SplitAtDash(FieldsOf(m), m.filesystemType + m.tail);
    SplitFirstWord(m.filesystemType, m.tail);
    assert LineOf(m)[|Join(FieldsOf(m))| + 1] == '-';
  }

  lemma PlainFields(m: Record)
    requires WellFormed(m) && Plain(m.path)
    ensures SplitWhitespace(Join(FieldsOf(m))) == FieldsOf(m)
  {
    var fields := FieldsOf(m);
    PrintedPath(m.path);
    forall i | 0 <= i < |fields|
      ensures Word(fields[i])
    {
      if i != 4 {
        assert Field(fields[i]);
      }
    }
    SplitJoin(fields);
  }

  lemma PlainLineReads(m: Record)
    requires WellFormed(m) && Plain(m.path)
    ensures ParseLine(LineOf(m)) == Ok(EntryOf(m))
  {
    LineSplits(m);
    PlainFields(m);
    assert FieldsOf(m)[4] == Printed(m.path) && FieldsOf(m)[5] == m.options;
    DecodeUndoesEscape(m.path, KERNEL_ESCAPES);
  }

  lemma JoinPath(m: Record)
    requires WellFormed(m)
    ensures Join(FieldsOf(m)) == Join(m.ids) + " " + (Printed(m.path) + " " + Join([m.options] + m.optional))
  {
    var others := [m.options] + m.optional;
    assert [Printed(m.path), m.options] + m.optional == [Printed(m.path)] + others;
    JoinAppend(m.ids, [Printed(m.path)] + others);
    JoinAppend([Printed(m.path)], others);
  }

  lemma FirstWordOf(w: string, x: string, y: string)
    requires Word(w) && x != "" && IsWhitespace(x[0])
    ensures var words := SplitWhitespace(w + x + y); words != [] && words[0] == w
  {
    assert w + x + y == w + (x + y);
    SplitFirstWord(w, x + y);
  }

  lemma EscapeStarts(s: string, special: set<char>)
    requires Escapable(special) && s != "" && s[0] !in special
    ensures Escape(s, special) != "" && Escape(s, special)[0] == s[0]
  {
  }

  /** The printed path is read up to the first whitespace the kernel left in it. */
  lemma CutAt(kept: string, cut: string, after: string)
    requires kept != "" && kept[0] == '/' && Plain(kept)
    requires cut != "" && IsWhitespace(cut[0]) && cut[0] !in KERNEL_ESCAPES
    ensures var words := SplitWhitespace(Printed(kept + cut) + after);
            words != [] && words[0] == Printed(kept)
  {
    EscapeConcat(kept, cut, KERNEL_ESCAPES);
    EscapeStarts(cut, KERNEL_ESCAPES);
    PrintedPath(kept);
    FirstWordOf(Printed(kept), Printed(cut), after);
  }

  lemma PathIsCut(path: string, after: string) returns (n: nat)
    requires path != "" && path[0] == '/' && !Plain(path)
    ensures n < |path|
    ensures var words := SplitWhitespace(Printed(path) + after); words != [] && words[0] == Printed(path[..n])
  {
    n := FirstStray(path);
    var kept, cut := path[..n], path[n..];
    CutAt(kept, cut, after);
    assert path == kept + cut;
  }

  lemma CutField(m: Record) returns (n: nat)
    requires WellFormed(m) && !Plain(m.path)
    ensures n < |m.path|
    ensures var fields := SplitWhitespace(Join(FieldsOf(m)));
            |fields| > 4 && fields[4] == Printed(m.path[..n])
  {
    var after := " " + Join([m.options] + m.optional);
    n := PathIsCut(m.path, after);
    JoinPath(m);
    assert Printed(m.path) + " " + Join([m.options] + m.optional) == Printed(m.path) + after;
    SplitJoinThen(m.ids, Printed(m.path) + after);
  }

  lemma PathNamed(line: string, before: string, after: string, word: string)
    requires SplitOnce(line, DASH) == Some((before, after))
    requires |SplitWhitespace(before)| > 4 && SplitWhitespace(before)[4] == word
    ensures ParseLine(line).Err? || ParseLine(line).value.0 == Decode(word)
  {
  }

  /** Whitespace the kernel does not escape ends the path early. */
  lemma OtherPathIsCut(m: Record)
    requires WellFormed(m) && !Plain(m.path)
    ensures ParseLine(LineOf(m)).Err? || |ParseLine(LineOf(m)).value.0| < |m.path|
  {
    var n := CutField(m);
    var cut := m.path[..n];
    assert Decode(Printed(cut)) == cut by {
      DecodeUndoesEscape(cut, KERNEL_ESCAPES);
    }
    assert SplitOnce(LineOf(m), DASH) == Some((Join(FieldsOf(m)), m.filesystemType + m.tail)) by {
      LineSplits(m);
    }
    PathNamed(LineOf(m), Join(FieldsOf(m)), m.filesystemType + m.tail, Printed(cut));
  }

  lemma {:induction false} FirstStray(path: string) returns (n: nat)
    requires !Plain(path)
    ensures n < |path| && IsWhitespace(path[n]) && path[n] !in KERNEL_ESCAPES && Plain(path[..n])
  {
    n := 0;
    while !(IsWhitespace(path[n]) && path[n] !in KERNEL_ESCAPES)
      invariant n < |path| && Plain(path[..n]) && !Plain(path[n..])
      decreases |path| - n
    {
      assert path[..n + 1] == path[..n] + [path[n]];
      assert path[n..] == [path[n]] + path[n + 1..];
      n := n + 1;
    }
  }

  lemma {:induction false} FileReads(mounts: seq<Record>)
    requires forall i :: 0 <= i < |mounts| ==> WellFormed(mounts[i]) && Plain(mounts[i].path)
    ensures Entries(Lines(FileOf(mounts))) == Ok(EntriesOf(mounts))
  {
    if mounts != [] {
      var m := mounts[0];
      var arrived := m.(tail := StripReturn(m.tail));
      LineArrives(m, FileOf(mounts[1..]));
      LineSplits(arrived);
      PlainLineReads(arrived);
      FileReads(mounts[1..]);
    }
  }

  /** Printing any list of mounts and parsing it gives, for each path, the last mount printed there. */
  lemma RoundTrip(mounts: seq<Record>)
    requires forall i :: 0 <= i < |mounts| ==> WellFormed(mounts[i]) && Plain(mounts[i].path)
    ensures Parse(FileOf(mounts)) == Ok(LastWins(EntriesOf(mounts)))
  {
    FileReads(mounts);
    assert map[] + LastWins(EntriesOf(mounts)) == LastWins(EntriesOf(mounts));
  }

  predicate AllWellFormed(mounts: seq<Record>) {
    forall i :: 0 <= i < |mounts| ==> WellFormed(mounts[i])
  }

  predicate AllPlain(mounts: seq<Record>) {
    forall i :: 0 <= i < |mounts| ==> Plain(mounts[i].path)
  }

  /** A plain path is read as it is, any other as something shorter. */
  predicate ReadAs(m: Record, entry: (string, Mount)) {
    if Plain(m.path) then entry.0 == m.path else |entry.0| < |m.path|
  }

  lemma FirstEntry(line: string, rest: seq<string>)
    requires !Blank(line)
    ensures var read := Entries([line] + rest);
            read.Ok? ==> ParseLine(line).Ok? && Entries(rest).Ok? && read.value == [ParseLine(line).value] + Entries(rest).value
  {
    assert ([line] + rest)[1..] == rest;
  }

  lemma FirstMount(m: Record, rest: string)
    requires WellFormed(m)
    ensures var read := Entries(Lines(LineOf(m) + "\n" + rest));
            read.Ok? ==>
              && Entries(Lines(rest)).Ok? && read.value != [] && ReadAs(m, read.value[0])
              && read.value[1..] == Entries(Lines(rest)).value
  {
    var arrived := m.(tail := StripReturn(m.tail));
    LineArrives(m, rest);
    LineSplits(arrived);
    FirstEntry(LineOf(arrived), Lines(rest));
    if Plain(m.path) {
      PlainLineReads(arrived);
    } else {
      OtherPathIsCut(arrived);
    }
  }

  predicate AllReadAs(mounts: seq<Record>, entries: seq<(string, Mount)>) {
    |entries| == |mounts| && forall i :: 0 <= i < |mounts| ==> ReadAs(mounts[i], entries[i])
  }

  lemma OneMoreReadAs(mounts: seq<Record>, entries: seq<(string, Mount)>)
    requires mounts != [] && entries != [] && ReadAs(mounts[0], entries[0]) && AllReadAs(mounts[1..], entries[1..])
    ensures AllReadAs(mounts, entries)
  {
    forall i | 0 < i < |mounts|
      ensures ReadAs(mounts[i], entries[i])
    {
      assert ReadAs(mounts[1..][i - 1], entries[1..][i - 1]);
    }
  }

  /** If a printed file can be read at all, it has one entry per mount, stray paths cut. */
  lemma {:induction false} EveryEntryIsCut(mounts: seq<Record>)
    requires AllWellFormed(mounts)
    ensures var read := Entries(Lines(FileOf(mounts)));
            read.Ok? ==> AllReadAs(mounts, read.value)
  {
    if mounts != [] {
      var rest := mounts[1..];
      assert AllWellFormed(rest);
      FirstMount(mounts[0], FileOf(rest));
      EveryEntryIsCut(rest);
      var read := Entries(Lines(FileOf(mounts)));
      if read.Ok? {
        OneMoreReadAs(mounts, read.value);
      }
    }
  }

  /** A longest one among the paths that are not plain. */
  lemma {:induction false} LongestStray(mounts: seq<Record>) returns (k: nat)
    requires !AllPlain(mounts)
    ensures k < |mounts| && !Plain(mounts[k].path)
    ensures forall i :: 0 <= i < |mounts| && !Plain(mounts[i].path) ==> |mounts[i].path| <= |mounts[k].path|
  {
    var n := |mounts| - 1;
    var before := mounts[..n];
    assert forall i :: 0 <= i < n ==> before[i] == mounts[i];
    if AllPlain(before) {
      k := n;
    } else {
      k := LongestStray(before);
      if !Plain(mounts[n].path) && |mounts[n].path| > |mounts[k].path| {
        k := n;
      }
    }
  }

  lemma {:induction false} EntriesAt(mounts: seq<Record>)
    ensures |EntriesOf(mounts)| == |mounts|
    ensures forall i :: 0 <= i < |mounts| ==> EntriesOf(mounts)[i] == EntryOf(mounts[i])
  {
    if mounts != [] {
      EntriesAt(mounts[1..]);
    }
  }

  /** The longest stray path is missing from the table that was read. */
  lemma StrayIsMissing(mounts: seq<Record>)
    requires AllWellFormed(mounts) && !AllPlain(mounts)
    ensures Parse(FileOf(mounts)) != Ok(LastWins(EntriesOf(mounts)))
  {
    var k := LongestStray(mounts);
    var path, entries := mounts[k].path, EntriesOf(mounts);
    EveryEntryIsCut(mounts);
    EntriesAt(mounts);
    assert entries[k].0 == path;
    LastWinsIsLast(entries, path);
    var read := Entries(Lines(FileOf(mounts)));
    if read.Ok? {
      LastWinsIsLast(read.value, path);
      assert forall i :: 0 <= i < |mounts| ==> ReadAs(mounts[i], read.value[i]) && read.value[i].0 != path;
      assert path !in map[] + LastWins(read.value);
    }
  }

  /**
   Exactly when a list of mounts comes back: words are split at any Unicode whitespace, but the kernel escapes
   only space, tab and newline, so one carriage return or no-break space in one path is enough to lose it.
   */
  lemma RoundTripExactly(mounts: seq<Record>)
    requires AllWellFormed(mounts)
    ensures Parse(FileOf(mounts)) == Ok(LastWins(EntriesOf(mounts))) <==> AllPlain(mounts)
  {
    if AllPlain(mounts) {
      RoundTrip(mounts);
    } else {
      StrayIsMissing(mounts);
    }
  }
}
