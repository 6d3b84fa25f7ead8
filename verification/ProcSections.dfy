/**
 The procfs TCP counter files: a line of names and a line of values under one prefix, paired by name
 and never by position.
 */
module ProcSections {
  import opened Common
  import opened Text

  datatype ParseError =
    | MissingHeader(prefix: string)
    | MissingValues(prefix: string)
    | FieldCountMismatch(prefix: string, headers: nat, values: nat)
    | MissingField(prefix: string, field: string)
    | InvalidInteger(prefix: string, field: string, value: string)

  type Columns = seq<(string, string)>

  predicate StartsWith(line: string, prefix: string) {
    |prefix| <= |line| && line[..|prefix|] == prefix
  }

  function Matching(lines: seq<string>, prefix: string): (r: seq<string>)
    ensures forall l :: l in r ==> StartsWith(l, prefix)
  {
    if lines == [] then []
    else (if StartsWith(lines[0], prefix) then [lines[0]] else []) + Matching(lines[1..], prefix)
  }

  function Zip(names: seq<string>, values: seq<string>): Columns
    requires |names| == |values|
  {
    seq(|names|, i requires 0 <= i < |names| => (names[i], values[i]))
  }

  /** `section_values`. */
  function SectionValues(content: string, prefix: string): Result<Columns, ParseError> {
    var lines := Matching(Lines(content), prefix);
    if |lines| == 0 then Err(MissingHeader(prefix))
    else if |lines| == 1 then Err(MissingValues(prefix))
    else
      assert lines[0] in lines && lines[1] in lines;
      var headers := SplitWhitespace(lines[0][|prefix|..]);
      var values := SplitWhitespace(lines[1][|prefix|..]);
      if |headers| != |values| then Err(FieldCountMismatch(prefix, |headers|, |values|))
      else Ok(Zip(headers, values))
  }

  function Find(columns: Columns, field: string): Option<string> {
    if columns == [] then None
    else if columns[0].0 == field then Some(columns[0].1)
    else Find(columns[1..], field)
  }

  // ----------------------------------------------------------------- numbers

  predicate IsDigit(c: char) {
    '0' <= c <= '9'
  }

  function DigitValue(c: char): nat
    requires IsDigit(c)
  {
    c as int - '0' as int
  }

  predicate AllDigits(s: string) {
    forall i :: 0 <= i < |s| ==> IsDigit(s[i])
  }

  function DigitsValue(digits: string): nat
    requires AllDigits(digits)
  {
    if digits == "" then 0
    else
      var last := |digits| - 1;
      DigitsValue(digits[..last]) * 10 + DigitValue(digits[last])
  }

  /** `str::parse::<u64>`: an optional plus sign, at least one digit, no overflow. */
  function ParseU64(s: string): Option<u64> {
    var digits := if s != "" && s[0] == '+' then s[1..] else s;
    if digits == "" || !AllDigits(digits) then None
    else
      var n := DigitsValue(digits);
      if n < U64_LIMIT then Some(n) else None
  }

  function Decimal(n: nat): (s: string)
    ensures s != "" && AllDigits(s)
  {
    (if n < 10 then "" else Decimal(n / 10)) + [('0' as int + n % 10) as char]
  }

  lemma OneMoreDigit(digits: string, c: char)
    requires AllDigits(digits) && IsDigit(c)
    ensures AllDigits(digits + [c])
    ensures DigitsValue(digits + [c]) == DigitsValue(digits) * 10 + DigitValue(c)
  {
    assert (digits + [c])[..|digits|] == digits;
  }

  lemma {:induction false} DigitsOfDecimal(n: nat)
    ensures DigitsValue(Decimal(n)) == n
  {
    var head, c := if n < 10 then "" else Decimal(n / 10), ('0' as int + n % 10) as char;
    if n >= 10 {
      DigitsOfDecimal(n / 10);
    }
    OneMoreDigit(head, c);
    assert Decimal(n) == head + [c];
  }

  lemma ParseDecimal(n: nat)
    ensures ParseU64(Decimal(n)) == if n < U64_LIMIT then Some(n) else None
  {
    DigitsOfDecimal(n);
    assert IsDigit(Decimal(n)[0]);
  }

  lemma Signed(digits: string)
    requires digits != "" && digits[0] != '+'
    ensures ParseU64("+" + digits) == ParseU64(digits)
  {
    assert ("+" + digits)[1..] == digits;
  }

  /** A plus sign in front is allowed, but not alone. */
  lemma SignedDecimal(n: nat)
    ensures ParseU64("+" + Decimal(n)) == ParseU64(Decimal(n))
    ensures ParseU64("") == None == ParseU64("+")
  {
    assert IsDigit(Decimal(n)[0]);
    Signed(Decimal(n));
  }

  /** Any other character that is no digit makes a text no number. */
  lemma NotANumber(raw: string, i: nat)
    requires i < |raw| && !IsDigit(raw[i]) && (raw[0] == '+' ==> i > 0)
    ensures ParseU64(raw) == None
  {
    var digits := if raw[0] == '+' then raw[1..] else raw;
    assert !IsDigit(digits[if raw[0] == '+' then i - 1 else i]);
  }

  /** `required_u64`. */
  function RequiredU64(columns: Columns, prefix: string, field: string): Result<u64, ParseError> {
    match Find(columns, field)
    case None => Err(MissingField(prefix, field))
    case Some(raw) =>
      match ParseU64(raw)
      case None => Err(InvalidInteger(prefix, field, raw))
      case Some(n) => Ok(n)
  }

  // --------------------------------------------------------- pairing by name

  predicate DistinctNames(columns: Columns) {
    forall i, j :: 0 <= i < j < |columns| ==> columns[i].0 != columns[j].0
  }

  /** With distinct names, a lookup finds the one column of that name, wherever it stands. */
  lemma {:induction false} FindIsTheColumn(columns: Columns, field: string, value: string)
    requires DistinctNames(columns)
    ensures Find(columns, field) == Some(value) <==> (field, value) in columns
  {
    if columns != [] {
      var rest := columns[1..];
      assert forall j :: 0 <= j < |rest| ==> rest[j] == columns[j + 1];
      FindIsTheColumn(rest, field, value);
      assert columns == [columns[0]] + rest;
      assert forall c :: c in rest ==> c.0 != columns[0].0;
    }
  }

  /** Reordering the columns, or adding and dropping columns of other names, changes no reading. */
  lemma ColumnsMayMove(before: Columns, after: Columns, prefix: string, field: string)
    requires DistinctNames(before) && DistinctNames(after)
    requires forall value :: (field, value) in before <==> (field, value) in after
    ensures RequiredU64(before, prefix, field) == RequiredU64(after, prefix, field)
  {
    var x, y := Find(before, field), Find(after, field);
    if x.Some? {
      FindIsTheColumn(before, field, x.value);
      FindIsTheColumn(after, field, x.value);
    } else if y.Some? {
      FindIsTheColumn(before, field, y.value);
      FindIsTheColumn(after, field, y.value);
    }
  }

  // --------------------------------------------------------------- read back

  /** One section as the kernel prints it. */
  datatype Section = Section(prefix: string, columns: seq<(string, nat)>)

  /** Letters up to a closing colon. */
  predicate Tag(prefix: string) {
    && prefix != "" && '\n' !in prefix
    && forall i :: 0 <= i < |prefix| ==> (prefix[i] == ':' <==> i == |prefix| - 1)
  }

  predicate Printable(s: Section) {
    && Tag(s.prefix)
    && (forall i :: 0 <= i < |s.columns| ==> Word(s.columns[i].0))
    && forall i, j :: 0 <= i < j < |s.columns| ==> s.columns[i].0 != s.columns[j].0
  }

  function Names(s: Section): seq<string> {
    seq(|s.columns|, i requires 0 <= i < |s.columns| => s.columns[i].0)
  }

  function Values(s: Section): seq<string> {
    seq(|s.columns|, i requires 0 <= i < |s.columns| => Decimal(s.columns[i].1))
  }

  function SectionLine(prefix: string, words: seq<string>): string {
    prefix + " " + Join(words)
  }

  function FileOf(sections: seq<Section>): string {
    if sections == [] then ""
    else
      var s := sections[0];
      SectionLine(s.prefix, Names(s)) + "\n"
      + (SectionLine(s.prefix, Values(s)) + "\n" + FileOf(sections[1..]))
  }

  predicate AllWords(words: seq<string>) {
    forall i :: 0 <= i < |words| ==> Word(words[i])
  }

  lemma PrintedWords(s: Section)
    requires Printable(s)
    ensures AllWords(Names(s)) && AllWords(Values(s))
  {
    forall i | 0 <= i < |s.columns|
      ensures Word(Values(s)[i])
    {
      assert forall c :: IsDigit(c) ==> !IsWhitespace(c);
    }
  }

  /** A printed line has no line break or carriage return in its words. */
  lemma {:induction false} JoinIsOneLine(words: seq<string>)
    requires AllWords(words)
    ensures '\n' !in Join(words)
    ensures Join(words) != "" ==> Join(words)[|Join(words)| - 1] != '\r'
  {
    if words != [] {
      JoinIsOneLine(words[1..]);
      var w, rest := words[0], Join(words[1..]);
      if |words| > 1 {
        assert Word(words[1]);
        assert rest != "";
      }
    }
  }

  lemma LineArrives(prefix: string, words: seq<string>, rest: string)
    requires Tag(prefix) && AllWords(words)
    ensures Lines(SectionLine(prefix, words) + "\n" + rest) == [SectionLine(prefix, words)] + Lines(rest)
  {
    var line := SectionLine(prefix, words);
    JoinIsOneLine(words);
    assert forall i :: 0 <= i < |line| ==> line[i] != '\n' by {
      assert '\n' !in line;
    }
    FirstLine(line, rest);
    var j := Join(words);
    assert line[|line| - 1] == if j == "" then ' ' else j[|j| - 1];
  }

  /** Closing colons keep tags apart: no tag starts a line printed under another. */
  lemma TagsApart(prefix: string, other: string, words: seq<string>)
    requires Tag(prefix) && Tag(other)
    ensures StartsWith(SectionLine(other, words), prefix) <==> prefix == other
  {
    var line := SectionLine(other, words);
    assert line[..|other|] == other;
    var shared := if |prefix| <= |other| then |prefix| - 1 else |other| - 1;
    assert line[shared] == other[shared];
    assert StartsWith(line, prefix) ==> prefix[shared] == line[..|prefix|][shared] == line[shared];
  }

  /** The section a tag names: the first one printed under it. */
  function FirstUnder(sections: seq<Section>, prefix: string): (r: Option<Section>)
    ensures r.Some? ==> r.value in sections && r.value.prefix == prefix
    ensures r.None? ==> forall s :: s in sections ==> s.prefix != prefix
  {
    if sections == [] then None
    else if sections[0].prefix == prefix then Some(sections[0])
    else FirstUnder(sections[1..], prefix)
  }

  lemma FileLines(sections: seq<Section>)
    requires sections != [] && Printable(sections[0])
    ensures Lines(FileOf(sections))
         == [SectionLine(sections[0].prefix, Names(sections[0]))]
            + ([SectionLine(sections[0].prefix, Values(sections[0]))] + Lines(FileOf(sections[1..])))
  {
    var s, rest := sections[0], FileOf(sections[1..]);
    PrintedWords(s);
    LineArrives(s.prefix, Values(s), rest);
    LineArrives(s.prefix, Names(s), SectionLine(s.prefix, Values(s)) + "\n" + rest);
  }

  lemma MatchTwo(a: string, b: string, rest: seq<string>, prefix: string)
    requires StartsWith(a, prefix) == StartsWith(b, prefix)
    ensures Matching([a] + ([b] + rest), prefix)
         == if StartsWith(a, prefix) then [a, b] + Matching(rest, prefix) else Matching(rest, prefix)
  {
    assert ([a] + ([b] + rest))[1..] == [b] + rest;
    assert ([b] + rest)[1..] == rest;
  }

  /** The lines of a printed file that match a tag: the named section's two lines first, or none at all. */
  lemma {:induction false} MatchingLines(sections: seq<Section>, prefix: string)
    requires forall s :: s in sections ==> Printable(s)
    requires Tag(prefix)
    ensures var found := Matching(Lines(FileOf(sections)), prefix);
            match FirstUnder(sections, prefix)
            case None => found == []
            case Some(s) => |found| >= 2
                            && found[0] == SectionLine(prefix, Names(s))
                            && found[1] == SectionLine(prefix, Values(s))
  {
    if sections != [] {
      var s, rest := sections[0], sections[1..];
      MatchingLines(rest, prefix);
      FileLines(sections);
      TagsApart(prefix, s.prefix, Names(s));
      TagsApart(prefix, s.prefix, Values(s));
      MatchTwo(SectionLine(s.prefix, Names(s)), SectionLine(s.prefix, Values(s)), Lines(FileOf(rest)), prefix);
    }
  }

  lemma WordsAfterPrefix(prefix: string, words: seq<string>)
    requires AllWords(words)
    ensures SplitWhitespace(SectionLine(prefix, words)[|prefix|..]) == words
  {
    assert SectionLine(prefix, words)[|prefix|..] == " " + Join(words);
    assert (" " + Join(words))[1..] == Join(words);
    SplitJoin(words);
  }

  /** A printed section is read as its own names and decimals; a missing one is a missing header. */
  lemma SectionReadsBack(sections: seq<Section>, prefix: string)
    requires forall s :: s in sections ==> Printable(s)
    requires Tag(prefix)
    ensures SectionValues(FileOf(sections), prefix)
         == match FirstUnder(sections, prefix)
            case None => Err(MissingHeader(prefix))
            case Some(s) => Ok(Zip(Names(s), Values(s)))
  {
    MatchingLines(sections, prefix);
    var first := FirstUnder(sections, prefix);
    if first.Some? {
      PrintedWords(first.value);
      WordsAfterPrefix(prefix, Names(first.value));
      WordsAfterPrefix(prefix, Values(first.value));
    }
  }

  /**
   Any printed column of the section a tag names is read back by its name, whatever the order of
   columns and sections, and refused exactly when it overflows.
   */
  lemma CounterReadsBack(sections: seq<Section>, s: Section, name: string, n: nat)
    requires forall t :: t in sections ==> Printable(t)
    requires FirstUnder(sections, s.prefix) == Some(s) && (name, n) in s.columns
    ensures SectionValues(FileOf(sections), s.prefix).Ok?
    ensures RequiredU64(SectionValues(FileOf(sections), s.prefix).value, s.prefix, name)
         == if n < U64_LIMIT then Ok(n) else Err(InvalidInteger(s.prefix, name, Decimal(n)))
  {
    SectionReadsBack(sections, s.prefix);
    var columns := Zip(Names(s), Values(s));
    var i :| 0 <= i < |s.columns| && s.columns[i] == (name, n);
    assert columns[i] == (name, Decimal(n));
    FindIsTheColumn(columns, name, Decimal(n));
    ParseDecimal(n);
  }

  /** A name the section lacks is reported as missing. */
  lemma AbsentCounterIsMissing(sections: seq<Section>, s: Section, name: string)
    requires forall t :: t in sections ==> Printable(t)
    requires FirstUnder(sections, s.prefix) == Some(s)
    requires forall c :: c in s.columns ==> c.0 != name
    ensures SectionValues(FileOf(sections), s.prefix).Ok?
    ensures RequiredU64(SectionValues(FileOf(sections), s.prefix).value, s.prefix, name)
         == Err(MissingField(s.prefix, name))
  {
    SectionReadsBack(sections, s.prefix);
    var columns := Zip(Names(s), Values(s));
    var found := Find(columns, name);
    assert forall i :: 0 <= i < |columns| ==> columns[i].0 == s.columns[i].0 && s.columns[i] in s.columns;
    if found.Some? {
      FindIsTheColumn(columns, name, found.value);
    }
  }

  lemma TwoLinesMatch(prefix: string, names: seq<string>, values: seq<string>, rest: string)
    requires Tag(prefix) && AllWords(names) && AllWords(values)
    ensures var one, two := SectionLine(prefix, names), SectionLine(prefix, values);
            Matching(Lines(one + "\n" + (two + "\n" + rest)), prefix) == [one, two] + Matching(Lines(rest), prefix)
  {
    var one, two := SectionLine(prefix, names), SectionLine(prefix, values);
    LineArrives(prefix, values, rest);
    LineArrives(prefix, names, two + "\n" + rest);
    TagsApart(prefix, prefix, names);
    TagsApart(prefix, prefix, values);
    MatchTwo(one, two, Lines(rest), prefix);
  }

  /** Two lines under a tag are paired up if they have equally many words, and refused otherwise, whatever follows. */
  lemma TwoLinesRead(prefix: string, names: seq<string>, values: seq<string>, rest: string)
    requires Tag(prefix) && AllWords(names) && AllWords(values)
    ensures SectionValues(SectionLine(prefix, names) + "\n" + (SectionLine(prefix, values) + "\n" + rest), prefix)
         == if |names| == |values| then Ok(Zip(names, values)) else Err(FieldCountMismatch(prefix, |names|, |values|))
  {
    TwoLinesMatch(prefix, names, values, rest);
    WordsAfterPrefix(prefix, names);
    WordsAfterPrefix(prefix, values);
  }

  /** A lone line under a tag has no values. */
  lemma LoneLineIsRefused(prefix: string, names: seq<string>)
    requires Tag(prefix) && AllWords(names)
    ensures SectionValues(SectionLine(prefix, names) + "\n", prefix) == Err(MissingValues(prefix))
  {
    var one := SectionLine(prefix, names);
    LineArrives(prefix, names, "");
    TagsApart(prefix, prefix, names);
    assert one + "\n" + "" == one + "\n";
    assert [one] + [] == [one] && [one][1..] == [];
    assert Matching([one], prefix) == [one] + Matching([], prefix);
  }

  // -------------------------------------------------------- the snmp counters

  datatype SnmpCounters = SnmpCounters(retransSegs: u64, outSegs: u64, inSegs: u64, currEstab: u64)

  /** `parse_snmp`: four counters of the TCP section; the first that cannot be read is the error. */
  function ParseSnmp(content: string): Result<SnmpCounters, ParseError> {
    var columns :- SectionValues(content, "Tcp:");
    var retransSegs :- RequiredU64(columns, "Tcp:", "RetransSegs");
    var outSegs :- RequiredU64(columns, "Tcp:", "OutSegs");
    var inSegs :- RequiredU64(columns, "Tcp:", "InSegs");
    var currEstab :- RequiredU64(columns, "Tcp:", "CurrEstab");
    Ok(SnmpCounters(retransSegs, outSegs, inSegs, currEstab))
  }

  /** The four counters come back from any printed file whose TCP section has them somewhere. */
  lemma SnmpReadsBack(sections: seq<Section>, s: Section, counters: SnmpCounters)
    requires forall t :: t in sections ==> Printable(t)
    requires FirstUnder(sections, "Tcp:") == Some(s)
    requires ("RetransSegs", counters.retransSegs as nat) in s.columns
    requires ("OutSegs", counters.outSegs as nat) in s.columns
    requires ("InSegs", counters.inSegs as nat) in s.columns
    requires ("CurrEstab", counters.currEstab as nat) in s.columns
    ensures ParseSnmp(FileOf(sections)) == Ok(counters)
  {
    CounterReadsBack(sections, s, "RetransSegs", counters.retransSegs);
    CounterReadsBack(sections, s, "OutSegs", counters.outSegs);
    CounterReadsBack(sections, s, "InSegs", counters.inSegs);
    CounterReadsBack(sections, s, "CurrEstab", counters.currEstab);
  }
}
