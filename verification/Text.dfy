/** Just enough of Rust's string handling for the parsers and the validators. */
module Text {
  import opened Common

  /** The Unicode White_Space property, as used by `trim` and `split_whitespace`. */
  predicate IsWhitespace(c: char) {
    || '\t' <= c <= '\r' || c == ' ' || c == '\U{85}' || c == '\U{A0}' || c == '\U{1680}'
    || '\U{2000}' <= c <= '\U{200A}' || c == '\U{2028}' || c == '\U{2029}' || c == '\U{202F}'
    || c == '\U{205F}' || c == '\U{3000}'
  }

  /** `s.trim().is_empty()`. */
  predicate Blank(s: string) {
    forall i :: 0 <= i < |s| ==> IsWhitespace(s[i])
  }

  predicate OccursAt(text: string, part: string, i: nat) {
    i + |part| <= |text| && text[i..i + |part|] == part
  }

  lemma OccursChar(text: string, c: char, i: nat)
    ensures OccursAt(text, [c], i) <==> i < |text| && text[i] == c
  {
    if i < |text| {
      assert text[i..i + 1] == [text[i]];
    }
  }

  /** `str::contains`. */
  predicate Contains(text: string, part: string) {
    exists i: nat :: i <= |text| && OccursAt(text, part, i)
  }

  // ------------------------------------------------------------------- words

  /** A non-empty run of non-whitespace characters. */
  predicate Word(w: string) {
    |w| > 0 && forall i :: 0 <= i < |w| ==> !IsWhitespace(w[i])
  }

  /** How many characters precede the first whitespace. */
  function WordLength(s: string): (n: nat)
    ensures n <= |s|
    ensures forall i :: 0 <= i < n ==> !IsWhitespace(s[i])
    ensures n < |s| ==> IsWhitespace(s[n])
  {
    if s == "" || IsWhitespace(s[0]) then 0 else 1 + WordLength(s[1..])
  }

  /** `str::split_whitespace`. */
  function SplitWhitespace(s: string): seq<string>
    decreases |s|
  {
    if s == "" then []
    else if IsWhitespace(s[0]) then SplitWhitespace(s[1..])
    else [s[..WordLength(s)]] + SplitWhitespace(s[WordLength(s)..])
  }

  /** Words separated by single spaces. */
  function Join(words: seq<string>): string {
    if words == [] then ""
    else if |words| == 1 then words[0]
    else words[0] + " " + Join(words[1..])
  }

  lemma {:induction false} WordLengthStops(w: string, rest: string)
    requires forall i :: 0 <= i < |w| ==> !IsWhitespace(w[i])
    requires rest != "" ==> IsWhitespace(rest[0])
    ensures WordLength(w + rest) == |w|
  {
    if w == "" {
      assert w + rest == rest;
    } else {
      assert (w + rest)[1..] == w[1..] + rest;
      WordLengthStops(w[1..], rest);
    }
  }

  lemma SplitFirstWord(w: string, rest: string)
    requires Word(w) && (rest != "" ==> IsWhitespace(rest[0]))
    ensures SplitWhitespace(w + rest) == [w] + SplitWhitespace(rest)
  {
    WordLengthStops(w, rest);
    assert (w + rest)[0] == w[0];
    assert (w + rest)[..|w|] == w && (w + rest)[|w|..] == rest;
  }

  lemma SplitWordThen(w: string, rest: string)
    requires Word(w)
    ensures SplitWhitespace(w + " " + rest) == [w] + SplitWhitespace(rest)
  {
    SplitFirstWord(w, " " + rest);
    assert w + " " + rest == w + (" " + rest);
    assert (" " + rest)[1..] == rest;
  }

  /** Words each followed by a space, then the rest. */
  function JoinOnto(words: seq<string>, rest: string): string {
    if words == [] then rest else words[0] + " " + JoinOnto(words[1..], rest)
  }

  lemma {:induction false} JoinOntoIsJoin(words: seq<string>, rest: string)
    requires words != []
    ensures JoinOnto(words, rest) == Join(words) + " " + rest
  {
    if |words| == 1 {
      assert JoinOnto(words[1..], rest) == rest;
    } else {
      JoinOntoIsJoin(words[1..], rest);
    }
  }

  lemma FirstAndRest(words: seq<string>, more: seq<string>)
    requires words != []
    ensures [words[0]] + (words[1..] + more) == words + more
  {
  }

  lemma {:induction false} SplitJoinOnto(words: seq<string>, rest: string)
    requires forall i :: 0 <= i < |words| ==> Word(words[i])
    ensures SplitWhitespace(JoinOnto(words, rest)) == words + SplitWhitespace(rest)
  {
    if words != [] {
      var tail := JoinOnto(words[1..], rest);
      SplitJoinOnto(words[1..], rest);
      SplitWordThen(words[0], tail);
      FirstAndRest(words, SplitWhitespace(rest));
    }
  }

  /** Joined words come back, whatever follows after another space. */
  lemma SplitJoinThen(words: seq<string>, rest: string)
    requires words != [] && forall i :: 0 <= i < |words| ==> Word(words[i])
    ensures SplitWhitespace(Join(words) + " " + rest) == words + SplitWhitespace(rest)
  {
    JoinOntoIsJoin(words, rest);
    SplitJoinOnto(words, rest);
  }

  lemma {:induction false} SplitJoin(words: seq<string>)
    requires forall i :: 0 <= i < |words| ==> Word(words[i])
    ensures SplitWhitespace(Join(words)) == words
  {
    if words != [] {
      var w, others := words[0], words[1..];
      if others == [] {
        assert w + "" == w;
        SplitFirstWord(w, "");
      } else {
        SplitWordThen(w, Join(others));
        SplitJoin(others);
      }
    }
  }

  lemma {:induction false} JoinAppend(a: seq<string>, b: seq<string>)
    requires a != [] && b != []
    ensures Join(a + b) == Join(a) + " " + Join(b)
  {
    if |a| == 1 {
      assert (a + b)[1..] == b;
    } else {
      assert (a + b)[1..] == a[1..] + b;
      JoinAppend(a[1..], b);
    }
  }

  // ------------------------------------------------------------------- lines

  function LineLength(s: string): (n: nat)
    ensures n <= |s|
    ensures forall i :: 0 <= i < n ==> s[i] != '\n'
    ensures n < |s| ==> s[n] == '\n'
  {
    if s == "" || s[0] == '\n' then 0 else 1 + LineLength(s[1..])
  }

  function StripReturn(line: string): string {
    if |line| > 0 && line[|line| - 1] == '\r' then line[..|line| - 1] else line
  }

  /** `str::lines`: ends at line feeds, drops a carriage return right before one. */
  function Lines(s: string): seq<string>
    decreases |s|
  {
    if s == "" then []
    else
      var n := LineLength(s);
      if n == |s| then [s] else [StripReturn(s[..n])] + Lines(s[n + 1..])
  }

  lemma {:induction false} LineLengthStops(line: string, rest: string)
    requires forall i :: 0 <= i < |line| ==> line[i] != '\n'
    requires rest != "" && rest[0] == '\n'
    ensures LineLength(line + rest) == |line|
  {
    if line == "" {
      assert line + rest == rest;
    } else {
      assert (line + rest)[1..] == line[1..] + rest;
      LineLengthStops(line[1..], rest);
    }
  }

  lemma FirstLine(line: string, rest: string)
    requires forall i :: 0 <= i < |line| ==> line[i] != '\n'
    ensures Lines(line + "\n" + rest) == [StripReturn(line)] + Lines(rest)
  {
    var s := line + "\n" + rest;
    Regroup(line, "\n", rest);
    LineLengthStops(line, "\n" + rest);
    assert s[..|line|] == line && s[|line| + 1..] == rest;
  }

  // ------------------------------------------------------------- splitting once

  function FindFrom(text: string, part: string, i: nat): (r: Option<nat>)
    requires i <= |text|
    ensures r.Some? ==> i <= r.value <= |text| && OccursAt(text, part, r.value)
    ensures r.Some? ==> forall j :: i <= j < r.value ==> !OccursAt(text, part, j)
    ensures r.None? ==> forall j :: i <= j <= |text| ==> !OccursAt(text, part, j)
    decreases |text| - i
  {
    if OccursAt(text, part, i) then Some(i)
    else if i == |text| then None
    else FindFrom(text, part, i + 1)
  }

  /** `str::split_once`. */
  function SplitOnce(text: string, part: string): Option<(string, string)> {
    match FindFrom(text, part, 0)
    case None => None
    case Some(i) => Some((text[..i], text[i + |part|..]))
  }

  /** `str::split` on one character. */
  function Split(s: string, c: char): (pieces: seq<string>)
    ensures pieces != []
    ensures forall i :: 0 <= i < |pieces| ==> c !in pieces[i]
  {
    if s == "" then [""]
    else
      var rest := Split(s[1..], c);
      if s[0] == c then [""] + rest else [[s[0]] + rest[0]] + rest[1..]
  }

  /** Pieces put together with a separator between them. */
  function Glue(pieces: seq<string>, separator: string): string {
    if pieces == [] then ""
    else if |pieces| == 1 then pieces[0]
    else pieces[0] + separator + Glue(pieces[1..], separator)
  }

  lemma GlueMore(piece: string, pieces: seq<string>, separator: string)
    requires pieces != []
    ensures Glue([piece] + pieces, separator) == piece + separator + Glue(pieces, separator)
  {
    assert ([piece] + pieces)[1..] == pieces;
  }

  lemma GlueLonger(c: char, pieces: seq<string>, separator: string)
    requires pieces != []
    ensures Glue([[c] + pieces[0]] + pieces[1..], separator) == [c] + Glue(pieces, separator)
  {
    var longer := [[c] + pieces[0]] + pieces[1..];
    assert longer[1..] == pieces[1..];
    if |pieces| > 1 {
      Regroup([c], pieces[0] + separator, Glue(pieces[1..], separator));
      Regroup([c], pieces[0], separator);
    }
  }

  /** Splitting loses nothing: the pieces glued with the character split on are the text. */
  lemma {:induction false} SplitGluesBack(s: string, c: char)
    ensures Glue(Split(s, c), [c]) == s
  {
    if s != "" {
      var rest := Split(s[1..], c);
      SplitGluesBack(s[1..], c);
      if s[0] == c {
        GlueMore("", rest, [c]);
      } else {
        GlueLonger(s[0], rest, [c]);
      }
      assert s == [s[0]] + s[1..];
    }
  }

  lemma {:induction false} SplitNowhere(s: string, c: char)
    requires c !in s
    ensures Split(s, c) == [s]
  {
    if s != "" {
      SplitNowhere(s[1..], c);
      assert s == [s[0]] + s[1..];
    }
  }

  lemma {:induction false} SplitFirstPiece(piece: string, c: char, rest: string)
    requires c !in piece
    ensures Split(piece + [c] + rest, c) == [piece] + Split(rest, c)
  {
    var s := piece + [c] + rest;
    if piece == "" {
      assert s[0] == c && s[1..] == rest;
    } else {
      SplitFirstPiece(piece[1..], c, rest);
      assert s[0] == piece[0] && s[1..] == piece[1..] + [c] + rest;
      assert piece == [piece[0]] + piece[1..];
      assert ([piece[1..]] + Split(rest, c))[1..] == Split(rest, c);
    }
  }

  /** Glued pieces come apart again, if none holds the character they are glued with. */
  lemma {:induction false} GlueSplitsBack(pieces: seq<string>, c: char)
    requires pieces != [] && forall i :: 0 <= i < |pieces| ==> c !in pieces[i]
    ensures Split(Glue(pieces, [c]), c) == pieces
  {
    if |pieces| == 1 {
      SplitNowhere(pieces[0], c);
    } else {
      GlueSplitsBack(pieces[1..], c);
      SplitFirstPiece(pieces[0], c, Glue(pieces[1..], [c]));
      assert pieces == [pieces[0]] + pieces[1..];
    }
  }

  lemma SplitOnceAt(head: string, c: char, rest: string)
    requires c !in head
    ensures SplitOnce(head + [c] + rest, [c]) == Some((head, rest))
  {
    var text := head + [c] + rest;
    forall j | 0 <= j < |head|
      ensures !OccursAt(text, [c], j)
    {
      assert text[j..j + 1][0] == text[j] == head[j] && head[j] in head;
    }
    assert text[|head|..|head| + 1] == [c];
    assert OccursAt(text, [c], |head|);
    assert FindFrom(text, [c], 0) == Some(|head|);
    assert text[..|head|] == head && text[|head| + 1..] == rest;
  }

  lemma SplitOnceNowhere(text: string, c: char)
    ensures SplitOnce(text, [c]).None? <==> c !in text
  {
    forall i: nat
      ensures OccursAt(text, [c], i) <==> i < |text| && text[i] == c
    {
      OccursChar(text, c, i);
    }
  }

  function TrimStart(s: string): string {
    if s != "" && IsWhitespace(s[0]) then TrimStart(s[1..]) else s
  }

  function TrimEnd(s: string): string {
    if s != "" && IsWhitespace(s[|s| - 1]) then TrimEnd(s[..|s| - 1]) else s
  }

  /** `str::trim`. */
  function Trim(s: string): string {
    TrimEnd(TrimStart(s))
  }

  lemma {:induction false} TrimStartStops(s: string)
    ensures TrimStart(s) == "" <==> Blank(s)
    ensures TrimStart(s) != "" ==> !IsWhitespace(TrimStart(s)[0])
  {
    if s != "" && IsWhitespace(s[0]) {
      TrimStartStops(s[1..]);
      assert forall i :: 0 < i < |s| ==> s[i] == s[1..][i - 1];
      assert Blank(s) <==> Blank(s[1..]);
    }
  }

  lemma {:induction false} TrimEndKeepsStart(s: string)
    requires s != "" && !IsWhitespace(s[0])
    ensures TrimEnd(s) != ""
  {
    if IsWhitespace(s[|s| - 1]) {
      TrimEndKeepsStart(s[..|s| - 1]);
    }
  }

  /** Trimming leaves nothing exactly of a blank text. */
  lemma TrimsToNothing(s: string)
    ensures Trim(s) == "" <==> Blank(s)
    ensures Blank(s) <==> forall c :: c in s ==> IsWhitespace(c)
  {
    TrimStartStops(s);
    if TrimStart(s) != "" {
      TrimEndKeepsStart(TrimStart(s));
    }
  }

  lemma {:induction false} TrimStartPadded(padding: string, w: string)
    requires Blank(padding) && w != "" && !IsWhitespace(w[0])
    ensures TrimStart(padding + w) == w
  {
    if padding == "" {
      assert padding + w == w;
    } else {
      assert (padding + w)[1..] == padding[1..] + w;
      TrimStartPadded(padding[1..], w);
    }
  }

  lemma {:induction false} TrimEndPadded(w: string, padding: string)
    requires Blank(padding) && w != "" && !IsWhitespace(w[|w| - 1])
    ensures TrimEnd(w + padding) == w
  {
    if padding == "" {
      assert w + padding == w;
    } else {
      assert (w + padding)[..|w + padding| - 1] == w + padding[..|padding| - 1];
      TrimEndPadded(w, padding[..|padding| - 1]);
    }
  }

  /** Neither end is whitespace. */
  predicate Trimmed(w: string) {
    w != "" && !IsWhitespace(w[0]) && !IsWhitespace(w[|w| - 1])
  }

  /** Trimming takes off exactly the blank text around. */
  lemma TrimPadded(before: string, w: string, after: string)
    requires Blank(before) && Trimmed(w) && Blank(after)
    ensures Trim(before + w + after) == w
  {
    Regroup(before, w, after);
    TrimStartPadded(before, w + after);
    TrimEndPadded(w, after);
  }

  /** The text before the first `c`: the first piece of `str::split`. */
  function Until(s: string, c: char): string {
    if s == "" || s[0] == c then "" else [s[0]] + Until(s[1..], c)
  }

  const DASH: string := " - "

  /** No field holds a space, and none is a bare dash. */
  predicate NoBareDash(fields: seq<string>) {
    forall i :: 0 <= i < |fields| ==> fields[i] != "-" && ' ' !in fields[i]
  }

  lemma DashSpelledOut(text: string, j: nat)
    ensures OccursAt(text, DASH, j) <==>
            j + 3 <= |text| && text[j] == ' ' && text[j + 1] == '-' && text[j + 2] == ' '
  {
    if j + 3 <= |text| {
      assert text[j..j + 3] == [text[j], text[j + 1], text[j + 2]];
    }
  }

  /** A spaced dash first occurs right after joined fields among which there is no bare dash. */
  lemma {:induction false} FirstDash(fields: seq<string>, rest: string, j: nat)
    requires fields != [] && NoBareDash(fields) && j < |Join(fields)|
    ensures !OccursAt(Join(fields) + DASH + rest, DASH, j)
  {
    var f, others := fields[0], fields[1..];
    var text := Join(fields) + DASH + rest;
    DashSpelledOut(text, j);
    if j < |f| {
      assert text[j] == f[j] && f[j] in f;
    } else {
      var tail := Join(others) + DASH + rest;
      assert text == f + " " + tail;
      if j == |f| {
        DashField(others, rest);
        assert text[j + 1] == tail[0] && text[j + 2] == tail[1];
      } else {
        var k := j - |f| - 1;
        FirstDash(others, rest, k);
        DashSpelledOut(tail, k);
        assert text[j] == tail[k] && text[j + 1] == tail[k + 1] && text[j + 2] == tail[k + 2];
      }
    }
  }

  lemma DashField(fields: seq<string>, rest: string)
    requires fields != [] && NoBareDash(fields)
    ensures var tail := Join(fields) + DASH + rest; !(tail[0] == '-' && tail[1] == ' ')
  {
    var f := fields[0];
    var tail := Join(fields) + DASH + rest;
    if |f| == 0 {
      if |fields| > 1 {
        assert tail[0] == ' ';
      }
    } else if |f| == 1 {
      assert tail[0] == f[0];
      assert f == [f[0]];
    } else {
      assert tail[1] == f[1];
    }
  }

  lemma SplitAtDash(fields: seq<string>, rest: string)
    requires fields != [] && NoBareDash(fields)
    ensures SplitOnce(Join(fields) + DASH + rest, DASH) == Some((Join(fields), rest))
  {
    var head := Join(fields);
    var text := head + DASH + rest;
    assert text[|head|..|head| + 3] == DASH;
    assert OccursAt(text, DASH, |head|);
    forall j | 0 <= j < |head|
      ensures !OccursAt(text, DASH, j)
    {
      FirstDash(fields, rest, j);
    }
    assert FindFrom(text, DASH, 0) == Some(|head|);
    assert text[..|head|] == head && text[|head| + 3..] == rest;
  }
}
