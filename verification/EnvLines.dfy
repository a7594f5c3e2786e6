/**
 What the `.env` parser makes of whole files: every form a line can take, printed and read
 back; and what it reads where nothing was printed. Source: internal/config/loadenv.go.
 */
module EnvLines {
  import opened DotEnv

  // ---- lines ------------------------------------------------------------------------------

  /** A value with what follows it on its line: anything after a closing quote; blanks, and a comment
      behind ` #`, after an unquoted value. */
  datatype Value =
    | Single(text: Text, junk: Text)
    | Double(text: Text, junk: Text)
    | Plain(text: Text, pad: Text, note: Option<Text>)

  /** `exported` holds the blanks behind `export `, if that stands in front of the key. */
  datatype Line =
    | Assign(indent: Text, exported: Option<Text>, key: Text, before: Text, colon: bool, after: Text, value: Value)
    | Remark(indent: Text, text: Text)
    | Empty(indent: Text)

  predicate Blanks(s: Text) {
    forall b <- s :: IsBlank(b)
  }

  /** ` #` stands at `p`. */
  predicate NoteAt(s: Text, p: int) {
    0 <= p < |s| - 1 && s[p] == BLANK && s[p + 1] == HASH
  }

  /** The value between quotes closes where it should. */
  predicate ClosesWith(v: Text, quote: Byte) {
    && (forall p :: 0 <= p < |v| && v[p] == quote ==> p > 0 && v[p - 1] == BACKSLASH)
    && (v != [] ==> v[|v| - 1] != BACKSLASH)
  }

  /** No quote or blank in front, no blank behind, no comment inside; an empty value stands alone. */
  predicate PlainFits(v: Text, pad: Text, note: Option<Text>) {
    && LF !in v && Blanks(pad) && (forall p :: 0 <= p < |v| ==> !NoteAt(v, p))
    && (v != [] ==> !IsBlank(v[0]) && !IsBlank(v[|v| - 1]) && v[0] != SINGLE && v[0] != DOUBLE)
    && (v == [] ==> pad == [] && note.None?) && (note.Some? ==> LF !in note.value)
  }

  predicate ValueFits(value: Value) {
    match value
    case Single(v, junk) => ClosesWith(v, SINGLE) && LF !in junk
    case Double(v, junk) => ClosesWith(v, DOUBLE) && LF !in junk
    case Plain(v, pad, note) => PlainFits(v, pad, note)
  }

  predicate KeyFits(exported: Option<Text>, key: Text, before: Text) {
    && ValidKey(key) && Blanks(before) && (exported.Some? ==> Blanks(exported.value))
    && (exported.None? && key == EXPORT[..6] && before != [] ==> before[0] != BLANK)
  }

  predicate LineFits(line: Line) {
    match line
    case Assign(indent, exported, key, before, _, after, value) =>
      Blanks(indent) && KeyFits(exported, key, before) && Blanks(after) && ValueFits(value)
    case Remark(indent, text) => Blanks(indent) && LF !in text
    case Empty(indent) => Blanks(indent)
  }

  /** The value in front of `tail`; so with the other printers. */
  function PrintValue(value: Value, tail: Text): Text {
    match value
    case Single(v, junk) => [SINGLE] + (v + ([SINGLE] + (junk + tail)))
    case Double(v, junk) => [DOUBLE] + (v + ([DOUBLE] + (junk + tail)))
    case Plain(v, pad, None) => v + (pad + tail)
    case Plain(v, pad, Some(note)) => v + (pad + ([BLANK, HASH] + (note + tail)))
  }

  function PrintKey(exported: Option<Text>, key: Text, tail: Text): Text {
    if exported.Some? then EXPORT + (exported.value + (key + tail)) else key + tail
  }

  function Delimiter(colon: bool): Byte {
    if colon then COLON else EQUALS
  }

  function PrintLine(line: Line, rest: Text): Text {
    match line
    case Assign(indent, exported, key, before, colon, after, value) =>
      indent + PrintKey(exported, key, before + ([Delimiter(colon)] + (after + PrintValue(value, [LF] + rest))))
    case Remark(indent, text) => indent + ([HASH] + (text + ([LF] + rest)))
    case Empty(indent) => indent + ([LF] + rest)
  }

  function Print(lines: seq<Line>): Text {
    if lines == [] then [] else PrintLine(lines[0], Print(lines[1..]))
  }

  /** Single quotes keep the text, double quotes expand escapes and then variables, an unquoted value
      variables only. */
  function Evaluate(value: Value, vars: map<Text, Text>, e: Expansion): Text {
    match value
    case Single(v, _) => v
    case Double(v, _) => e.variables(e.escapes(v), vars)
    case Plain(v, _, _) => e.variables(v, vars)
  }

  function Meaning(lines: seq<Line>, vars: map<Text, Text>, e: Expansion): map<Text, Text> {
    if lines == [] then vars
    else if lines[0].Assign? then
      Meaning(lines[1..], vars[lines[0].key := Evaluate(lines[0].value, vars, e)], e)
    else Meaning(lines[1..], vars, e)
  }

  // ---- trimming and searching --------------------------------------------------------------

  lemma Peel(pad: Text, rest: Text)
    requires pad != []
    ensures (pad + rest)[0] == pad[0] && pad[0] in pad && (pad + rest)[1..] == pad[1..] + rest
  {
  }

  lemma {:induction false} BlanksTrimmed(pad: Text, rest: Text)
    requires Blanks(pad) && (rest != [] ==> !IsBlank(rest[0]))
    ensures TrimBlanks(pad + rest) == rest
  {
    if pad == [] {
      assert pad + rest == rest;
    } else {
      Peel(pad, rest);
      BlanksTrimmed(pad[1..], rest);
    }
  }

  lemma {:induction false} SpacesTrimmed(pad: Text, rest: Text)
    requires Blanks(pad)
    ensures TrimSpace(pad + rest) == TrimSpace(rest)
  {
    if pad == [] {
      assert pad + rest == rest;
    } else {
      Peel(pad, rest);
      SpacesTrimmed(pad[1..], rest);
    }
  }

  lemma PeelRight(v: Text, pad: Text)
    requires pad != []
    ensures var s, n := v + pad, |pad| - 1;
            s != [] && s[|s| - 1] == pad[n] && pad[n] in pad && s[..|s| - 1] == v + pad[..n]
  {
  }

  lemma {:induction false} RightBlanksTrimmed(v: Text, pad: Text)
    requires Blanks(pad) && (v != [] ==> !IsBlank(v[|v| - 1]))
    ensures TrimRightBlanks(v + pad) == v
  {
    if pad == [] {
      assert v + pad == v;
    } else {
      PeelRight(v, pad);
      RightBlanksTrimmed(v, pad[..|pad| - 1]);
    }
  }

  lemma {:induction false} RightSpacesTrimmed(key: Text, pad: Text)
    requires Blanks(pad) && ValidKey(key)
    ensures TrimRightSpace(key + pad) == key
  {
    if pad == [] {
      assert key + pad == key;
      NameKept(key);
    } else {
      PeelRight(key, pad);
      RightSpacesTrimmed(key, pad[..|pad| - 1]);
    }
  }

  /** The comment begins at the first ` #`. */
  lemma {:induction false} CommentFirst(line: Text, n: nat)
    requires forall p :: 0 <= p < n ==> !NoteAt(line, p)
    requires n == |line| || NoteAt(line, n)
    ensures CommentAt(line) == n
  {
    if |line| >= 2 && !NoteAt(line, 0) {
      forall p | 0 <= p < n - 1
        ensures !NoteAt(line[1..], p)
      {
        assert !NoteAt(line, p + 1);
      }
      CommentFirst(line[1..], n - 1);
    }
  }

  lemma Front(a: Text, b: Text)
    ensures |a + b| == |a| + |b| && (a + b)[..|a|] == a && (a + b)[|a|..] == b
    ensures forall k :: 0 <= k < |a| ==> (a + b)[k] == a[k]
  {
  }

  lemma LineEnds(line: Text, rest: Text)
    requires LF !in line
    ensures IndexOf(line + ([LF] + rest), LF) == |line| && (line + ([LF] + rest))[..|line|] == line
    ensures NextLine(line + ([LF] + rest)) == rest
  {
    var s := line + ([LF] + rest);
    Front(line, [LF] + rest);
    assert s[|line| + 1..] == s[|line|..][1..];
    forall k | 0 <= k < |line|
      ensures s[k] != LF
    {
      assert line[k] in line;
    }
    FirstIs(s, LF, |line|);
  }

  // ---- values --------------------------------------------------------------------------------

  /** What stands between the quotes, and behind the closing one. */
  lemma QuotesAround(quote: Byte, v: Text, tail: Text)
    ensures var src := [quote] + (v + ([quote] + tail));
            && |src| == |v| + 2 + |tail| && src[0] == quote && src[|v| + 1] == quote && src[1..|v| + 1] == v
            && src[|v| + 2..] == tail && forall p :: 0 <= p < |v| ==> src[p + 1] == v[p]
  {
  }

  lemma ClosesThere(quote: Byte, v: Text, tail: Text)
    requires ClosesWith(v, quote) && quote != BACKSLASH
    ensures CloseAt([quote] + (v + ([quote] + tail)), quote, 1) == |v| + 1
  {
    var src := [quote] + (v + ([quote] + tail));
    QuotesAround(quote, v, tail);
    assert v != [] ==> src[|v| - 1 + 1] == v[|v| - 1];
    forall k | 1 <= k < |v| + 1
      ensures src[k] != quote || src[k - 1] == BACKSLASH
    {
      assert src[k - 1 + 1] == v[k - 1] && (k > 1 ==> src[k - 2 + 1] == v[k - 2]);
    }
    CloseIs(src, quote, |v| + 1);
  }

  lemma QuotedReads(quote: Byte, v: Text, junk: Text, rest: Text, vars: map<Text, Text>, e: Expansion)
    requires (quote == SINGLE || quote == DOUBLE) && ClosesWith(v, quote) && LF !in junk
    ensures ValueOf([quote] + (v + ([quote] + (junk + ([LF] + rest)))), vars, e)
         == Ok(Binding(if quote == DOUBLE then e.variables(e.escapes(v), vars) else v, rest))
  {
    var tail := junk + ([LF] + rest);
    ClosesThere(quote, v, tail);
    QuotesAround(quote, v, tail);
    LineEnds(junk, rest);
    hide CloseAt, NextLine, ClosesWith;
  }

  /** An unquoted value with all that follows it on its line. */
  function PlainLine(v: Text, pad: Text, note: Option<Text>): Text {
    v + (pad + if note.Some? then [BLANK, HASH] + note.value else [])
  }

  lemma PlainPrints(v: Text, pad: Text, note: Option<Text>, tail: Text)
    ensures PrintValue(Plain(v, pad, note), tail) == PlainLine(v, pad, note) + tail
  {
  }

  /** The value, its blanks and its comment are one line, and the first ` #` is the printed one. */
  lemma PlainIs(v: Text, pad: Text, note: Option<Text>)
    requires PlainFits(v, pad, note)
    ensures var line := PlainLine(v, pad, note);
            && LF !in line && |v + pad| <= |line| && line[..|v + pad|] == v + pad
            && CommentAt(line) == |v + pad| && (v != [] ==> line[0] == v[0]) && (v == [] ==> line == [])
  {
    var line := PlainLine(v, pad, note);
    var n := |v + pad|;
    forall p | 0 <= p < n
      ensures !NoteAt(line, p)
    {
      if p < |v| - 1 {
        assert !NoteAt(v, p);
      } else if p + 1 < n {
        assert line[p + 1] in pad;
      }
    }
    CommentFirst(line, n);
  }

  lemma PlainReads(v: Text, pad: Text, note: Option<Text>, rest: Text, vars: map<Text, Text>, e: Expansion)
    requires PlainFits(v, pad, note)
    ensures ValueOf(PlainLine(v, pad, note) + ([LF] + rest), vars, e) == Ok(Binding(e.variables(v, vars), rest))
  {
    var line := PlainLine(v, pad, note);
    PlainIs(v, pad, note);
    LineEnds(line, rest);
    Front(line, [LF] + rest);
    RightBlanksTrimmed(v, pad);
    hide CommentAt, IndexOf, NextLine, TrimRightBlanks, NoteAt, PlainLine;
    if v == [] {
      assert (line + ([LF] + rest))[0] == LF;
    }
  }

  lemma ValueReads(value: Value, rest: Text, vars: map<Text, Text>, e: Expansion)
    requires ValueFits(value)
    ensures ValueOf(PrintValue(value, [LF] + rest), vars, e) == Ok(Binding(Evaluate(value, vars, e), rest))
    ensures PrintValue(value, [LF] + rest) != [] && !IsBlank(PrintValue(value, [LF] + rest)[0])
  {
    hide ValueOf;
    match value
    case Single(v, junk) =>
      QuotedReads(SINGLE, v, junk, rest, vars, e);
    case Double(v, junk) =>
      QuotedReads(DOUBLE, v, junk, rest, vars, e);
    case Plain(v, pad, note) =>
      PlainPrints(v, pad, note, [LF] + rest);
      PlainReads(v, pad, note, rest, vars, e);
      PlainIs(v, pad, note);
      Front(PlainLine(v, pad, note), [LF] + rest);
      hide PrintValue, PlainLine;
      if v == [] {
        assert (PlainLine(v, pad, note) + ([LF] + rest))[0] == LF;
      }
  }

  // ---- keys ------------------------------------------------------------------------------------

  /** A name byte followed by another one, or by ASCII, starts no white-space rune. */
  lemma NoRune(s: Text)
    requires s != [] && NameByte(s[0]) && (|s| > 1 ==> NameByte(s[1]) || s[1] < 128)
    ensures SpaceLen(s) == 0 && s[0] != HASH && !IsBlank(s[0])
  {
  }

  /** Where key, blanks and delimiter stand. */
  lemma KeyStands(key: Text, before: Text, delimiter: Byte, tail: Text)
    ensures var s, n := key + (before + ([delimiter] + tail)), |key + before|;
            && n < |s| && s[n] == delimiter && s[..n] == key + before && s[n + 1..] == tail
            && (forall k :: 0 <= k < |key| ==> s[k] == key[k])
            && (forall k :: |key| <= k < n ==> s[k] in before)
  {
  }

  lemma KeyRuns(key: Text, before: Text, delimiter: Byte, tail: Text)
    requires ValidKey(key) && Blanks(before) && (delimiter == EQUALS || delimiter == COLON)
    ensures var s := key + (before + ([delimiter] + tail));
            s != [] && NameEnd(s) == |key + before| && SpaceLen(s) == 0 && s[0] != HASH && !IsBlank(s[0])
  {
    var s := key + (before + ([delimiter] + tail));
    KeyStands(key, before, delimiter, tail);
    assert forall k :: 0 <= k < |key| ==> key[k] in key;
    hide NameEnd, SpaceLen;
    NameStops(s, |key + before|);
    NoRune(s);
  }

  /** `export ` ends in a blank, and no name byte is one. */
  lemma NotExported(key: Text, before: Text, delimiter: Byte, tail: Text)
    requires KeyFits(None, key, before) && (delimiter == EQUALS || delimiter == COLON)
    ensures !(EXPORT <= key + (before + ([delimiter] + tail)))
  {
    var s := key + (before + ([delimiter] + tail));
    KeyStands(key, before, delimiter, tail);
    assert forall k :: 0 <= k < |key| ==> key[k] in key;
    assert before == [] ==> s[|key|] == delimiter;
    assert before != [] ==> s[|key|] == before[0] && before[0] in before;
    if EXPORT <= s {
      ExportBytes(s);
      if |key| == 6 {
        ExportKey(key, s);
      }
    }
  }

  lemma ExportBytes(s: Text)
    requires EXPORT <= s
    ensures s[6] == BLANK && forall k :: 0 <= k < 6 ==> 97 <= s[k] <= 122
  {
    assert forall k :: 0 <= k < 7 ==> s[k] == EXPORT[k];
  }

  lemma ExportKey(key: Text, s: Text)
    requires |key| == 6 && EXPORT <= s && forall k :: 0 <= k < 6 ==> s[k] == key[k]
    ensures key == EXPORT[..6]
  {
    forall k | 0 <= k < 6
      ensures key[k] == EXPORT[..6][k]
    {
      assert s[k] == EXPORT[k];
    }
  }

  /** The statement begins at its key or its `export`, and the key is the printed one. */
  lemma KeyReads(exported: Option<Text>, key: Text, before: Text, colon: bool, after: Text, tail: Text)
    requires KeyFits(exported, key, before) && Blanks(after) && (tail != [] ==> !IsBlank(tail[0]))
    ensures var s := PrintKey(exported, key, before + ([Delimiter(colon)] + (after + tail)));
            s != [] && SpaceLen(s) == 0 && s[0] != HASH && KeyOf(s) == Ok(Binding(key, tail))
  {
    var body := key + (before + ([Delimiter(colon)] + (after + tail)));
    KeyRuns(key, before, Delimiter(colon), after + tail);
    KeyStands(key, before, Delimiter(colon), after + tail);
    RightSpacesTrimmed(key, before);
    BlanksTrimmed(after, tail);
    StartsAt(exported, key, before, colon, after, tail);
    hide NameEnd, KeyByte, NameByte, TrimRightSpace, TrimBlanks, NameStart, PrintKey, Blanks, SpaceLen;
  }

  lemma StartsAt(exported: Option<Text>, key: Text, before: Text, colon: bool, after: Text, tail: Text)
    requires KeyFits(exported, key, before)
    ensures var s := PrintKey(exported, key, before + ([Delimiter(colon)] + (after + tail)));
            && s != [] && SpaceLen(s) == 0 && s[0] != HASH
            && NameStart(s) == key + (before + ([Delimiter(colon)] + (after + tail)))
  {
    var body := key + (before + ([Delimiter(colon)] + (after + tail)));
    KeyRuns(key, before, Delimiter(colon), after + tail);
    hide NameEnd;
    if exported.Some? {
      BlanksTrimmed(exported.value, body);
      Front(EXPORT, exported.value + body);
    } else {
      NotExported(key, before, Delimiter(colon), after + tail);
    }
  }

  // ---- the round trip -----------------------------------------------------------------------------

  lemma ParseByStart(a: Text, b: Text, vars: map<Text, Text>, e: Expansion)
    requires FindStatementStart(a) == FindStatementStart(b)
    ensures ParseFrom(a, vars, e) == ParseFrom(b, vars, e)
  {
  }

  lemma RemarkSkipped(indent: Text, text: Text, rest: Text)
    requires Blanks(indent) && LF !in text
    ensures FindStatementStart(indent + ([HASH] + (text + ([LF] + rest)))) == FindStatementStart(rest)
  {
    var s := [HASH] + text + ([LF] + rest);
    assert [HASH] + (text + ([LF] + rest)) == s;
    SpacesTrimmed(indent, s);
    LineEnds([HASH] + text, rest);
    hide NextLine;
  }

  lemma EmptySkipped(indent: Text, rest: Text)
    requires Blanks(indent)
    ensures FindStatementStart(indent + ([LF] + rest)) == FindStatementStart(rest)
  {
    SpacesTrimmed(indent, [LF] + rest);
    assert ([LF] + rest)[1..] == rest && SpaceLen([LF] + rest) == 1;
  }

  lemma AssignReads(line: Line, rest: Text, vars: map<Text, Text>, e: Expansion)
    requires line.Assign? && LineFits(line)
    ensures ParseFrom(PrintLine(line, rest), vars, e)
         == ParseFrom(rest, vars[line.key := Evaluate(line.value, vars, e)], e)
  {
    var tail := PrintValue(line.value, [LF] + rest);
    var s := PrintKey(line.exported, line.key, line.before + ([Delimiter(line.colon)] + (line.after + tail)));
    ValueReads(line.value, rest, vars, e);
    KeyReads(line.exported, line.key, line.before, line.colon, line.after, tail);
    SpacesTrimmed(line.indent, s);
    hide PrintValue, PrintKey, KeyOf, ValueOf, SpaceLen, LineFits, ValueFits, Evaluate;
  }

  lemma SkippedReads(line: Line, rest: Text, vars: map<Text, Text>, e: Expansion)
    requires !line.Assign? && LineFits(line)
    ensures ParseFrom(PrintLine(line, rest), vars, e) == ParseFrom(rest, vars, e)
  {
    hide FindStatementStart;
    match line
    case Remark(indent, text) => RemarkSkipped(indent, text, rest);
    case Empty(indent) => EmptySkipped(indent, rest);
    ParseByStart(PrintLine(line, rest), rest, vars, e);
  }

  /**
   Main result. Whatever file of assignments, comments and empty lines is printed, the parser reads
   it back: each key is bound to its value as its quotes say, expanded with the bindings before it,
   and neither blanks nor comments nor what follows a closing quote become part of it.
   */
  lemma {:induction false} LinesReadBack(lines: seq<Line>, vars: map<Text, Text>, e: Expansion)
    requires forall line <- lines :: LineFits(line)
    ensures ParseFrom(Print(lines), vars, e) == Ok(Meaning(lines, vars, e))
  {
    if lines != [] {
      var line, rest := lines[0], Print(lines[1..]);
      if line.Assign? {
        AssignReads(line, rest, vars, e);
        LinesReadBack(lines[1..], vars[line.key := Evaluate(line.value, vars, e)], e);
      } else {
        SkippedReads(line, rest, vars, e);
        LinesReadBack(lines[1..], vars, e);
      }
      hide ParseFrom, PrintLine, LineFits, Evaluate;
    }
  }

  /** The same through the whole parser, for every file without CRLF. */
  lemma FileReadsBack(lines: seq<Line>, e: Expansion)
    requires (forall line <- lines :: LineFits(line)) && NoCrLf(Print(lines))
    ensures ParseFrom(Unix(Print(lines)), map[], e) == Ok(Meaning(lines, map[], e))
  {
    UnixSpares(Print(lines));
    LinesReadBack(lines, map[], e);
  }

  /** What the round trip excludes: an empty value with a comment behind it takes the comment for its value. */
  lemma EmptyTakesComment(key: Text, note: Text, e: Expansion)
    requires ValidKey(key) && PlainFits([HASH] + note, [], None)
    ensures ParseFrom(key + ([EQUALS, BLANK, HASH] + (note + [LF])), map[], e)
         == Ok(map[key := e.variables([HASH] + note, map[])])
  {
    var line := Assign([], None, key, [], false, [BLANK], Plain([HASH] + note, [], None));
    assert forall b <- [BLANK] :: IsBlank(b);
    LinesReadBack([line], map[], e);
    hide LineFits, PlainFits, ParseFrom;
    OneLine(line, e);
    assert [HASH] + note + ([] + ([LF] + [])) == [HASH] + (note + [LF]);
    assert [BLANK] + ([HASH] + (note + [LF])) == [BLANK, HASH] + (note + [LF]);
    assert [] + ([EQUALS] + ([BLANK, HASH] + (note + [LF]))) == [EQUALS, BLANK, HASH] + (note + [LF]);
    assert [] + (key + ([EQUALS, BLANK, HASH] + (note + [LF]))) == key + ([EQUALS, BLANK, HASH] + (note + [LF]));
  }

  lemma OneLine(line: Line, e: Expansion)
    requires line.Assign?
    ensures Print([line]) == PrintLine(line, [])
    ensures Meaning([line], map[], e) == map[line.key := Evaluate(line.value, map[], e)]
  {
  }

  // ---- any input: line endings ------------------------------------------------------------------------

  function Join(parts: seq<Text>, ending: Text): Text {
    if parts == [] then [] else if |parts| == 1 then parts[0] else parts[0] + (ending + Join(parts[1..], ending))
  }

  lemma UnixStep(s: Text)
    requires s != [] && !(|s| > 1 && s[0] == CR && s[1] == LF)
    ensures Unix(s) == [s[0]] + Unix(s[1..])
  {
    if |s| == 1 {
      assert s == [s[0]] && s[1..] == [];
    }
  }

  lemma UnixEnding(rest: Text)
    ensures Unix([CR, LF] + rest) == [LF] + Unix(rest)
  {
    assert ([CR, LF] + rest)[2..] == rest;
  }

  lemma TailSpared(a: Text)
    requires a != [] && NoCrLf(a)
    ensures NoCrLf(a[1..]) && (|a| > 1 ==> !(a[0] == CR && a[1] == LF))
  {
    forall p | 0 <= p < |a[1..]| - 1
      ensures !(a[1..][p] == CR && a[1..][p + 1] == LF)
    {
      assert a[1..][p] == a[p + 1] && a[1..][p + 1] == a[p + 2];
    }
  }

  lemma {:induction false} OneEnding(a: Text, rest: Text)
    requires NoCrLf(a)
    ensures Unix(a + ([CR, LF] + rest)) == a + ([LF] + Unix(rest))
  {
    hide Unix, NoCrLf;
    var s := [CR, LF] + rest;
    if a == [] {
      UnixEnding(rest);
      assert a + s == s && a + ([LF] + Unix(rest)) == [LF] + Unix(rest);
    } else {
      TailSpared(a);
      Peel(a, s);
      OneEnding(a[1..], rest);
      assert (a + s)[1] == if |a| > 1 then a[1] else CR;
      UnixStep(a + s);
      assert a == [a[0]] + a[1..];
      Associates([a[0]], a[1..], [LF] + Unix(rest));
    }
  }

  /** Every CRLF becomes a line feed and every other byte stays; each text is such a join. */
  lemma {:induction false} UnixIs(parts: seq<Text>)
    requires forall part <- parts :: NoCrLf(part)
    ensures Unix(Join(parts, [CR, LF])) == Join(parts, [LF])
  {
    if |parts| == 1 {
      UnixSpares(parts[0]);
    } else if |parts| > 1 {
      UnixIs(parts[1..]);
      OneEnding(parts[0], Join(parts[1..], [CR, LF]));
      hide Unix, Join, NoCrLf;
      JoinMore(parts, [CR, LF]);
      JoinMore(parts, [LF]);
    }
  }

  lemma JoinMore(parts: seq<Text>, ending: Text)
    requires |parts| > 1
    ensures Join(parts, ending) == parts[0] + (ending + Join(parts[1..], ending))
  {
  }

  // ---- any input: values -----------------------------------------------------------------------------

  /** `src` begins with `line` and its line feed, if it has one, and `rest` comes behind. */
  predicate CutsLine(src: Text, line: Text, rest: Text) {
    LF !in line && ((src == line && rest == []) || src == line + ([LF] + rest))
  }

  lemma FirstLine(src: Text)
    ensures CutsLine(src, src[..IndexOf(src, LF)], NextLine(src))
  {
    var n := IndexOf(src, LF);
    if n < |src| {
      assert src == src[..n] + ([LF] + src[n + 1..]);
    } else {
      assert src[..n] == src;
    }
  }

  lemma {:induction false} CommentIs(line: Text)
    ensures var n := CommentAt(line);
            (n == |line| || NoteAt(line, n)) && forall p :: 0 <= p < n ==> !NoteAt(line, p)
  {
    if |line| >= 2 && !(line[0] == BLANK && line[1] == HASH) {
      CommentIs(line[1..]);
      forall p | 0 <= p < CommentAt(line)
        ensures !NoteAt(line, p)
      {
        assert p > 0 ==> !NoteAt(line[1..], p - 1);
      }
    }
  }

  lemma {:induction false} BlanksCut(s: Text)
    ensures var v := TrimRightBlanks(s);
            v <= s && (v != [] ==> !IsBlank(v[|v| - 1])) && Blanks(s[|v|..])
  {
    if s != [] && IsBlank(s[|s| - 1]) {
      var front := s[..|s| - 1];
      BlanksCut(front);
      var v := TrimRightBlanks(front);
      assert s[|v|..] == front[|v|..] + [s[|s| - 1]];
    }
  }

  /**
   An unquoted value, whatever the input: it ends with its line or before the comment, which begins at
   the first ` #` of the line; blanks at its end are dropped, variables expanded. Only a line that begins
   with ` #` has no comment.
   */
  lemma PlainValue(src: Text, vars: map<Text, Text>, e: Expansion)
      returns (line: Text, v: Text, n: nat, rest: Text)
    requires src != [] ==> src[0] != SINGLE && src[0] != DOUBLE
    ensures CutsLine(src, line, rest) && ValueOf(src, vars, e) == Ok(Binding(
              if src == [] then [] else e.variables(v, vars), rest))
    ensures v <= line && |v| <= n <= |line| && (v != [] ==> !IsBlank(v[|v| - 1])) && Blanks(line[|v|..n])
    ensures n < |line| ==> 0 < n && NoteAt(line, n) && forall p :: 0 <= p < n ==> !NoteAt(line, p)
    ensures n == |line| ==> NoteAt(line, 0) || forall p :: !NoteAt(line, p)
  {
    line, rest := src[..IndexOf(src, LF)], NextLine(src);
    FirstLine(src);
    CommentIs(line);
    n := if CommentAt(line) == 0 then |line| else CommentAt(line);
    BlanksCut(line[..n]);
    v := TrimRightBlanks(line[..n]);
    assert line[..n][|v|..] == line[|v|..n] && line[..|line|] == line;
    hide CommentAt, TrimRightBlanks, IndexOf, NextLine;
  }

  /** `n` is the first quote behind the opening one that no backslash precedes. */
  predicate ClosedAt(src: Text, n: nat) {
    && 1 <= n < |src| && src[n] == src[0] && src[n - 1] != BACKSLASH
    && forall k :: 1 <= k < n ==> src[k] != src[0] || src[k - 1] == BACKSLASH
  }

  /** A quoted value, whatever the input: what stands between the quotes, in double quotes with escapes
      expanded first and variables then; the rest of the line is dropped. Without a closing quote it is
      an error. */
  lemma QuotedValue(src: Text, vars: map<Text, Text>, e: Expansion, n: nat)
    requires src != [] && (src[0] == SINGLE || src[0] == DOUBLE)
    ensures ValueOf(src, vars, e) == Error(Unterminated) <==> forall k: nat :: !ClosedAt(src, k)
    ensures ClosedAt(src, n) ==>
              && ValueOf(src, vars, e).Ok?
              && CutsLine(src[n + 1..], src[n + 1..][..IndexOf(src[n + 1..], LF)], ValueOf(src, vars, e).value.rest)
              && ValueOf(src, vars, e).value.text
                 == if src[0] == DOUBLE then e.variables(e.escapes(src[1..n]), vars) else src[1..n]
  {
    var m := CloseAt(src, src[0], 1);
    if m < |src| {
      assert ClosedAt(src, m);
    }
    if ClosedAt(src, n) {
      CloseIs(src, src[0], n);
      FirstLine(src[n + 1..]);
    }
    hide IndexOf, CloseAt;
  }

  // ---- any input: keys ----------------------------------------------------------------------------------

  /** White-space runes and nothing else. */
  ghost predicate Spaces(s: Text, pieces: seq<Piece>) {
    s == Flat(pieces) && forall p <- pieces :: p.Space? && Skippable(p)
  }

  lemma {:induction false} SpacesInFront(s: Text) returns (lead: Text, pieces: seq<Piece>)
    ensures s == lead + TrimSpace(s) && Spaces(lead, pieces)
    decreases |s|
  {
    var n := SpaceLen(s);
    if n == 0 {
      lead, pieces := [], [];
    } else {
      SpaceCut(s);
      hide TrimSpace, Skippable, Flat, SpaceLen;
      var front, rest := SpacesInFront(s[n..]);
      lead, pieces := s[..n] + front, [Space(s[..n])] + rest;
      FlatFirst(Space(s[..n]), rest, []);
      Associates(s[..n], front, TrimSpace(s));
      assert Flat(pieces) + [] == Flat(pieces) && Flat(rest) + [] == Flat(rest);
    }
  }

  lemma TailCut(s: Text)
    requires SpaceTail(s) > 0
    ensures var n := |s| - SpaceTail(s);
            Skippable(Space(s[n..])) && s == s[..n] + s[n..]
  {
  }

  lemma {:induction false} SpacesBehind(s: Text) returns (tail: Text, pieces: seq<Piece>)
    ensures s == TrimRightSpace(s) + tail && Spaces(tail, pieces)
    decreases |s|
  {
    hide TrimRightSpace, Skippable, Flat, SpaceTail;
    TrimmedTail(s);
    tail, pieces := [], [];
    var m := SpaceTail(s);
    if m == 0 {
      FlatNone();
    } else {
      TailCut(s);
      var n := |s| - m;
      var front, rest := SpacesBehind(s[..n]);
      tail, pieces := front + s[n..], rest + [Space(s[n..])];
      FlatMore(rest, [Space(s[n..])]);
      FlatOne(Space(s[n..]));
      Associates(TrimRightSpace(s), front, s[n..]);
    }
  }

  lemma FlatNone()
    ensures Flat([]) == []
  {
  }

  lemma FlatOne(p: Piece)
    ensures Flat([p]) == p.text
  {
    FlatFirst(p, [], []);
    assert [p] + [] == [p] && Flat([]) + [] == [] && Flat([p]) + [] == Flat([p]) && p.text + [] == p.text;
  }

  lemma TrimmedTail(s: Text)
    ensures TrimRightSpace(s) == if SpaceTail(s) == 0 then s else TrimRightSpace(s[..|s| - SpaceTail(s)])
  {
  }

  lemma {:induction false} BlanksInFront(s: Text) returns (pad: Text)
    ensures s == pad + TrimBlanks(s) && Blanks(pad)
    ensures TrimBlanks(s) != [] ==> !IsBlank(TrimBlanks(s)[0])
  {
    if s != [] && IsBlank(s[0]) {
      var more := BlanksInFront(s[1..]);
      pad := [s[0]] + more;
      assert s == [s[0]] + s[1..];
    } else {
      pad := [];
    }
  }

  /** Where the name of a statement begins: behind white space, and behind `export ` and its blanks. */
  ghost predicate Begins(src: Text, lead: Text, skip: Text, body: Text) {
    && src == lead + (skip + body) && SpaceLen(skip + body) == 0
    && if EXPORT <= skip + body then
         EXPORT <= skip && Blanks(skip[7..]) && (body != [] ==> !IsBlank(body[0]))
       else skip == []
  }

  lemma NameBegins(src: Text) returns (lead: Text, pieces: seq<Piece>, skip: Text)
    ensures Spaces(lead, pieces) && Begins(src, lead, skip, NameStart(src))
  {
    lead, pieces := SpacesInFront(src);
    skip := ExportSkipped(TrimSpace(src), NameStart(src));
  }

  lemma ExportSkipped(s: Text, body: Text) returns (skip: Text)
    requires SpaceLen(s) == 0 && body == if EXPORT <= s then TrimBlanks(s[7..]) else s
    ensures s == skip + body && Begins(s, [], skip, body)
  {
    skip := [];
    if EXPORT <= s {
      var pad := BlanksInFront(s[7..]);
      skip := EXPORT + pad;
      assert s == EXPORT + s[7..];
      Associates(EXPORT, pad, body);
      assert skip[7..] == pad;
    }
    assert [] + (skip + body) == skip + body;
    assert s == skip + body;
  }

  /**
   The key of a statement, whatever the input: name bytes and white space up to the first other byte, which
   must be `=` or `:`, without the white space at their end; the blanks behind the delimiter are dropped.
   */
  lemma KeyIs(src: Text) returns (lead: Text, skip: Text, body: Text, n: nat, tail: Text, pad: Text,
      front: seq<Piece>, behind: seq<Piece>)
    ensures Spaces(lead, front) && Begins(src, lead, skip, body)
    ensures n <= |body| && (forall k :: 0 <= k < n ==> KeyByte(body[k])) && (n < |body| ==> !KeyByte(body[n]))
    ensures KeyOf(src) == Error(NoEquals) <==> n == |body|
    ensures KeyOf(src) == Error(UnexpectedCharacter) <==> n < |body| && body[n] != EQUALS && body[n] != COLON
    ensures Spaces(tail, behind) && Blanks(pad)
    ensures n < |body| && (body[n] == EQUALS || body[n] == COLON) ==>
              && (KeyOf(src) == Error(EmptyKey) <==> body[..n] == tail)
              && (body[..n] != tail ==> KeyOf(src).Ok? && KeyAt(body, n, KeyOf(src).value, tail, pad))
  {
    lead, front, skip := NameBegins(src);
    body := NameStart(src);
    n := NameEnd(body);
    tail, behind := SpacesBehind(body[..n]);
    pad := [];
    hide NameStart, NameEnd, KeyByte, TrimRightSpace, TrimBlanks, Spaces, Begins;
    if n < |body| {
      pad := BlanksInFront(body[n + 1..]);
      EmptyFront(TrimRightSpace(body[..n]), tail);
    }
  }

  /** The key, the white space and the delimiter make up the name; blanks and the rest follow. */
  predicate KeyAt(body: Text, n: nat, key: Binding, tail: Text, pad: Text)
    requires n < |body|
  {
    && body[..n] == key.text + tail && SpaceTail(key.text) == 0
    && body[n + 1..] == pad + key.rest && (key.rest != [] ==> !IsBlank(key.rest[0]))
  }

  lemma EmptyFront(a: Text, b: Text)
    ensures a == [] <==> a + b == b
  {
    assert |a + b| == |a| + |b|;
  }
}
