/**
 The `.env` parser, byte by byte: internal/config/loadenv.go. Variable and escape
 expansion are parameters; everything else, UTF-8 white space included, is as the code has it.
 */
module DotEnv {

  newtype Byte = x: int | 0 <= x < 256
  type Text = seq<Byte>

  const TAB: Byte := 9
  const LF: Byte := 10
  const CR: Byte := 13
  const BLANK: Byte := 32
  const DOUBLE: Byte := 34
  const HASH: Byte := 35
  const SINGLE: Byte := 39
  const COLON: Byte := 58
  const EQUALS: Byte := 61
  const BACKSLASH: Byte := 92

  /** `export ` */
  const EXPORT: Text := [101, 120, 112, 111, 114, 116, 32]

  datatype Option<T> = None | Some(value: T)

  datatype Reason = EmptyKey | UnexpectedCharacter | NoEquals | Unterminated

  datatype Parsed<T> = Ok(value: T) | Error(why: Reason)

  /** `expandEscapes` and `expandVariables`. */
  datatype Expansion = Expansion(escapes: Text -> Text, variables: (Text, map<Text, Text>) -> Text)

  // ---- white space and searching ------------------------------------------------------

  predicate AsciiSpace(b: Byte) {
    9 <= b <= 13 || b == BLANK
  }

  /** U+0085, U+00A0. */
  predicate TwoByteSpace(a: Byte, b: Byte) {
    a == 0xC2 && (b == 0x85 || b == 0xA0)
  }

  /** U+1680, U+2000 to U+200A, U+2028, U+2029, U+202F, U+205F, U+3000. */
  predicate ThreeByteSpace(a: Byte, b: Byte, c: Byte) {
    || (a == 0xE1 && b == 0x9A && c == 0x80)
    || (a == 0xE2 && b == 0x80 && (0x80 <= c <= 0x8A || c == 0xA8 || c == 0xA9 || c == 0xAF))
    || (a == 0xE2 && b == 0x81 && c == 0x9F)
    || (a == 0xE3 && b == 0x80 && c == 0x80)
  }

  /** Length of the white-space rune `s` starts with, or 0. */
  function SpaceLen(s: Text): (n: nat)
    ensures n <= |s|
  {
    if |s| >= 1 && AsciiSpace(s[0]) then 1
    else if |s| >= 2 && TwoByteSpace(s[0], s[1]) then 2
    else if |s| >= 3 && ThreeByteSpace(s[0], s[1], s[2]) then 3
    else 0
  }

  /** Length of the white-space rune `s` ends with, or 0. */
  function SpaceTail(s: Text): (n: nat)
    ensures n <= |s|
  {
    var n := |s|;
    if n >= 1 && AsciiSpace(s[n - 1]) then 1
    else if n >= 2 && TwoByteSpace(s[n - 2], s[n - 1]) then 2
    else if n >= 3 && ThreeByteSpace(s[n - 3], s[n - 2], s[n - 1]) then 3
    else 0
  }

  function TrimSpace(s: Text): (r: Text)
    ensures SpaceLen(r) == 0 && |r| <= |s|
    decreases |s|
  {
    if SpaceLen(s) == 0 then s else TrimSpace(s[SpaceLen(s)..])
  }

  function TrimRightSpace(s: Text): (r: Text)
    ensures SpaceTail(r) == 0 && r <= s
    decreases |s|
  {
    if SpaceTail(s) == 0 then s else TrimRightSpace(s[..|s| - SpaceTail(s)])
  }

  predicate IsBlank(b: Byte) {
    b == BLANK || b == TAB
  }

  function TrimBlanks(s: Text): (r: Text)
    ensures |r| <= |s|
  {
    if s != [] && IsBlank(s[0]) then TrimBlanks(s[1..]) else s
  }

  function TrimRightBlanks(s: Text): Text {
    if s != [] && IsBlank(s[|s| - 1]) then TrimRightBlanks(s[..|s| - 1]) else s
  }

  /** Position of the first `b`, or the length. */
  function IndexOf(s: Text, b: Byte): (n: nat)
    ensures n <= |s| && (n < |s| ==> s[n] == b) && forall k :: 0 <= k < n ==> s[k] != b
  {
    if s == [] || s[0] == b then 0 else 1 + IndexOf(s[1..], b)
  }

  /** What follows the first line feed. */
  function NextLine(s: Text): (r: Text)
    ensures |r| <= |s| && (s != [] ==> |r| < |s|)
  {
    var n := IndexOf(s, LF);
    if n < |s| then s[n + 1..] else []
  }

  /** `strings.Cut(line, " #")`, unless nothing stands before the comment. */
  function CommentAt(line: Text): (n: nat)
    ensures n <= |line|
  {
    if |line| < 2 then |line|
    else if line[0] == BLANK && line[1] == HASH then 0
    else 1 + CommentAt(line[1..])
  }

  /** `bytes.ReplaceAll(src, "\r\n", "\n")`. */
  function Unix(s: Text): (r: Text)
    ensures |r| <= |s|
  {
    if |s| < 2 then s
    else if s[0] == CR && s[1] == LF then [LF] + Unix(s[2..])
    else [s[0]] + Unix(s[1..])
  }

  // ---- one statement ----------------------------------------------------------------------

  /** Skips white space and comment lines. */
  function FindStatementStart(src: Text): (r: Option<Text>)
    ensures r.Some? ==> r.value != [] && |r.value| <= |src| && SpaceLen(r.value) == 0 && r.value[0] != HASH
    decreases |src|
  {
    var s := TrimSpace(src);
    if s == [] then None
    else if s[0] == HASH then FindStatementStart(NextLine(s))
    else Some(s)
  }

  /** A byte read as a Latin-1 character: letter, digit, `_` or `.`. */
  predicate NameByte(b: Byte) {
    || 65 <= b <= 90 || 97 <= b <= 122 || 48 <= b <= 57 || b == 95 || b == 46
    || b == 0xAA || b == 0xB5 || b == 0xBA || 0xC0 <= b <= 0xD6 || 0xD8 <= b <= 0xF6 || 0xF8 <= b
  }

  predicate SpaceByte(b: Byte) {
    AsciiSpace(b) || b == 0x85 || b == 0xA0
  }

  predicate KeyByte(b: Byte) {
    NameByte(b) || SpaceByte(b)
  }

  function NameStart(src: Text): (r: Text)
    ensures |r| <= |src|
  {
    var s := TrimSpace(src);
    if EXPORT <= s then TrimBlanks(s[7..]) else s
  }

  /** How far a name runs. */
  function NameEnd(s: Text): (n: nat)
    ensures n <= |s| && (forall k :: 0 <= k < n ==> KeyByte(s[k])) && (n < |s| ==> !KeyByte(s[n]))
  {
    if s != [] && KeyByte(s[0]) then 1 + NameEnd(s[1..]) else 0
  }

  datatype Binding = Binding(text: Text, rest: Text)

  /** The key of a statement and what follows its delimiter. */
  function KeyOf(src: Text): (r: Parsed<Binding>)
    ensures r.Ok? ==> r.value.text != [] && |r.value.rest| < |src|
  {
    var s := NameStart(src);
    var n := NameEnd(s);
    if n == |s| then Error(NoEquals)
    else if s[n] != EQUALS && s[n] != COLON then Error(UnexpectedCharacter)
    else
      var key := TrimRightSpace(s[..n]);
      if key == [] then Error(EmptyKey) else Ok(Binding(key, TrimBlanks(s[n + 1..])))
  }

  /** The first quote from `i` on that no backslash precedes, or the length. */
  function CloseAt(src: Text, quote: Byte, i: nat): (n: nat)
    requires 1 <= i <= |src|
    ensures i <= n <= |src|
    ensures n < |src| ==> src[n] == quote && src[n - 1] != BACKSLASH
    ensures forall k :: i <= k < n ==> src[k] != quote || src[k - 1] == BACKSLASH
    decreases |src| - i
  {
    if i == |src| || (src[i] == quote && src[i - 1] != BACKSLASH) then i else CloseAt(src, quote, i + 1)
  }

  function ValueOf(src: Text, vars: map<Text, Text>, e: Expansion): (r: Parsed<Binding>)
    ensures r.Ok? ==> |r.value.rest| <= |src|
  {
    if src == [] then Ok(Binding([], []))
    else if src[0] == SINGLE || src[0] == DOUBLE then
      var n := CloseAt(src, src[0], 1);
      if n == |src| then Error(Unterminated)
      else
        var raw := src[1..n];
        Ok(Binding(if src[0] == DOUBLE then e.variables(e.escapes(raw), vars) else raw, NextLine(src[n + 1..])))
    else
      var line := src[..IndexOf(src, LF)];
      var cut := CommentAt(line);
      var kept := if cut == 0 then line else line[..cut];
      Ok(Binding(e.variables(TrimRightBlanks(kept), vars), NextLine(src)))
  }

  /** All statements from here on, later bindings winning. Every statement shortens the rest,
      so this ends on every input. */
  function ParseFrom(src: Text, vars: map<Text, Text>, e: Expansion): Parsed<map<Text, Text>>
    decreases |src|
  {
    match FindStatementStart(src)
    case None => Ok(vars)
    case Some(s) =>
      match KeyOf(s)
      case Error(why) => Error(why)
      case Ok(key) =>
        match ValueOf(key.rest, vars, e)
        case Error(why) => Error(why)
        case Ok(value) => ParseFrom(value.rest, vars[key.text := value.text], e)
  }

  lemma NameStops(s: Text, n: nat)
    requires n <= |s| && (forall k :: 0 <= k < n ==> KeyByte(s[k])) && (n < |s| ==> !KeyByte(s[n]))
    ensures NameEnd(s) == n
  {
    hide KeyByte;
    var m := NameEnd(s);
    assert !(m < n) && !(n < m);
  }

  // ---- the loops ----------------------------------------------------------------------------

  method LocateKeyName(src: Text) returns (out: Parsed<Binding>)
    ensures out == KeyOf(src)
  {
    var s := TrimSpace(src);
    if EXPORT <= s {
      s := TrimBlanks(s[7..]);
    }
    for i := 0 to |s|
      invariant forall k :: 0 <= k < i ==> KeyByte(s[k])
    {
      if s[i] == EQUALS || s[i] == COLON {
        NameStops(s, i);
        var key := TrimRightSpace(s[..i]);
        if key == [] {
          return Error(EmptyKey);
        }
        return Ok(Binding(key, TrimBlanks(s[i + 1..])));
      }
      if !KeyByte(s[i]) {
        NameStops(s, i);
        return Error(UnexpectedCharacter);
      }
    }
    NameStops(s, |s|);
    return Error(NoEquals);
  }

  method ExtractVarValue(src: Text, vars: map<Text, Text>, e: Expansion) returns (out: Parsed<Binding>)
    ensures out == ValueOf(src, vars, e)
  {
    if src == [] {
      return Ok(Binding([], []));
    }
    if src[0] == SINGLE || src[0] == DOUBLE {
      var quote := src[0];
      for i := 1 to |src|
        invariant CloseAt(src, quote, 1) == CloseAt(src, quote, i)
      {
        if src[i] == quote && src[i - 1] != BACKSLASH {
          var raw := src[1..i];
          if quote == DOUBLE {
            raw := e.variables(e.escapes(raw), vars);
          }
          return Ok(Binding(raw, NextLine(src[i + 1..])));
        }
      }
      return Error(Unterminated);
    }
    var line := src[..IndexOf(src, LF)];
    var cut := CommentAt(line);
    if cut != 0 {
      line := line[..cut];
    }
    return Ok(Binding(e.variables(TrimRightBlanks(line), vars), NextLine(src)));
  }

  method ParseEnvBytes(src: Text, e: Expansion) returns (out: Parsed<map<Text, Text>>)
    ensures out == ParseFrom(Unix(src), map[], e)
  {
    var vars: map<Text, Text> := map[];
    var cutset := Unix(src);
    while true
      invariant ParseFrom(cutset, vars, e) == ParseFrom(Unix(src), map[], e)
      decreases |cutset|
    {
      var start := FindStatementStart(cutset);
      if start.None? {
        break;
      }
      var key := LocateKeyName(start.value);
      if key.Error? {
        return Error(key.why);
      }
      var value := ExtractVarValue(key.value.rest, vars, e);
      if value.Error? {
        return Error(value.why);
      }
      vars := vars[key.value.text := value.value.text];
      cutset := value.value.rest;
    }
    return Ok(vars);
  }

  // ---- what is skipped -------------------------------------------------------------------------

  /** One white-space rune, or one comment with its line feed. */
  datatype Piece = Space(text: Text) | Comment(text: Text)

  predicate Skippable(p: Piece) {
    match p
    case Space(text) => text != [] && SpaceLen(text) == |text|
    case Comment(text) => text != [] && text[0] == HASH && IndexOf(text, LF) == |text| - 1
  }

  function Flat(pieces: seq<Piece>): Text {
    if pieces == [] then [] else pieces[0].text + Flat(pieces[1..])
  }

  lemma FlatFirst(p: Piece, rest: seq<Piece>, tail: Text)
    ensures Flat([p] + rest) + tail == p.text + (Flat(rest) + tail)
  {
    assert ([p] + rest)[1..] == rest;
  }

  lemma FlatHead(a: seq<Piece>)
    requires a != []
    ensures Flat(a) == a[0].text + Flat(a[1..])
  {
  }

  lemma {:induction false} FlatMore(a: seq<Piece>, b: seq<Piece>)
    ensures Flat(a + b) == Flat(a) + Flat(b)
  {
    if a == [] {
      assert a + b == b;
    } else {
      FlatMore(a[1..], b);
      Headed(a, b);
      FlatHead(a + b);
      FlatHead(a);
      hide Flat;
      Associates(a[0].text, Flat(a[1..]), Flat(b));
    }
  }

  lemma Headed(a: seq<Piece>, b: seq<Piece>)
    requires a != []
    ensures a + b != [] && (a + b)[0] == a[0] && (a + b)[1..] == a[1..] + b
  {
  }

  lemma Associates(a: Text, b: Text, c: Text)
    ensures a + (b + c) == a + b + c
  {
  }

  lemma SpaceCut(s: Text)
    requires SpaceLen(s) > 0
    ensures Skippable(Space(s[..SpaceLen(s)])) && TrimSpace(s) == TrimSpace(s[SpaceLen(s)..])
         && s == s[..SpaceLen(s)] + s[SpaceLen(s)..]
  {
  }

  lemma {:induction false} SpacesSkipped(s: Text) returns (pieces: seq<Piece>)
    ensures s == Flat(pieces) + TrimSpace(s) && forall p <- pieces :: Skippable(p)
    decreases |s|
  {
    var n := SpaceLen(s);
    if n == 0 {
      pieces := [];
    } else {
      SpaceCut(s);
      hide TrimSpace, Skippable, Flat, SpaceLen;
      var rest := SpacesSkipped(s[n..]);
      pieces := [Space(s[..n])] + rest;
      FlatFirst(Space(s[..n]), rest, TrimSpace(s));
    }
  }

  /** Nothing but white space and whole comment lines is skipped before a statement; where none
      starts, at most an unfinished comment is left. */
  lemma {:induction false} StartSkips(src: Text) returns (pieces: seq<Piece>, tail: Text)
    ensures src == Flat(pieces) + tail && forall p <- pieces :: Skippable(p)
    ensures match FindStatementStart(src)
            case Some(s) => tail == s
            case None => tail == [] || (tail[0] == HASH && IndexOf(tail, LF) == |tail|)
    decreases |src|
  {
    var s := TrimSpace(src);
    pieces := SpacesSkipped(src);
    tail := s;
    if s != [] && s[0] == HASH && IndexOf(s, LF) < |s| {
      var n := IndexOf(s, LF) + 1;
      var more, last := StartSkips(s[n..]);
      CommentCut(s, n);
      Glued(src, pieces, Comment(s[..n]), s[n..], more, last);
      hide TrimSpace, IndexOf, Skippable, Flat;
      pieces, tail := pieces + ([Comment(s[..n])] + more), last;
    }
  }

  lemma Glued(src: Text, pieces: seq<Piece>, p: Piece, rest: Text, more: seq<Piece>, tail: Text)
    requires src == Flat(pieces) + (p.text + rest) && rest == Flat(more) + tail
    ensures src == Flat(pieces + ([p] + more)) + tail
  {
    FlatMore(pieces, [p] + more);
    FlatFirst(p, more, tail);
    hide Flat;
    assert Flat(pieces) + Flat([p] + more) + tail == Flat(pieces) + (Flat([p] + more) + tail);
  }

  lemma CommentCut(s: Text, n: nat)
    requires 0 < n <= |s| && n == IndexOf(s, LF) + 1 && s[0] == HASH
    ensures Skippable(Comment(s[..n])) && s == s[..n] + s[n..] && NextLine(s) == s[n..]
  {
    FirstIs(s[..n], LF, n - 1);
  }

  lemma FirstIs(s: Text, b: Byte, n: nat)
    requires n < |s| && s[n] == b && forall k :: 0 <= k < n ==> s[k] != b
    ensures IndexOf(s, b) == n
  {
    var m := IndexOf(s, b);
    assert !(m < n) && !(n < m);
  }

  // ---- printing and reading back ----------------------------------------------------------------

  datatype Pair = Pair(key: Text, value: Text)

  predicate ValidKey(key: Text) {
    key != [] && forall b <- key :: NameByte(b)
  }

  /** A single-quoted value closes where it should: quotes inside are escaped, and the last
      byte does not escape the closing one. */
  predicate Closes(v: Text) {
    && (forall p :: 0 <= p < |v| && v[p] == SINGLE ==> p > 0 && v[p - 1] == BACKSLASH)
    && (v != [] ==> v[|v| - 1] != BACKSLASH)
  }

  predicate NoCrLf(s: Text) {
    forall p :: 0 <= p < |s| - 1 ==> !(s[p] == CR && s[p + 1] == LF)
  }

  function Quoted(v: Text): Text {
    [SINGLE] + v + [SINGLE, LF]
  }

  /** `key='value'` lines. */
  function Render(pairs: seq<Pair>): Text {
    if pairs == [] then [] else pairs[0].key + [EQUALS] + Quoted(pairs[0].value) + Render(pairs[1..])
  }

  function LastWins(pairs: seq<Pair>, vars: map<Text, Text>): map<Text, Text> {
    if pairs == [] then vars else LastWins(pairs[1..], vars[pairs[0].key := pairs[0].value])
  }

  /** The line-ending replacement spares a text exactly when it has nothing to replace. */
  lemma {:induction false} UnixSpares(s: Text)
    ensures Unix(s) == s <==> NoCrLf(s)
  {
    if |s| >= 2 {
      if s[0] == CR && s[1] == LF {
        assert |Unix(s)| < |s|;
      } else {
        UnixSpares(s[1..]);
        assert Unix(s)[1..] == Unix(s[1..]);
        assert s == [s[0]] + s[1..];
        if NoCrLf(s[1..]) {
          forall p | 0 <= p < |s| - 1
            ensures !(s[p] == CR && s[p + 1] == LF)
          {
            assert p > 0 ==> s[p] == s[1..][p - 1] && s[p + 1] == s[1..][p];
          }
        }
        if NoCrLf(s) {
          forall p | 0 <= p < |s[1..]| - 1
            ensures !(s[1..][p] == CR && s[1..][p + 1] == LF)
          {
            assert s[1..][p] == s[p + 1] && s[1..][p + 1] == s[p + 2];
          }
        }
      }
    }
  }

  lemma CloseIs(src: Text, quote: Byte, n: nat)
    requires 1 <= n < |src| && src[n] == quote && src[n - 1] != BACKSLASH
    requires forall k :: 1 <= k < n ==> src[k] != quote || src[k - 1] == BACKSLASH
    ensures CloseAt(src, quote, 1) == n
  {
    var m := CloseAt(src, quote, 1);
    assert !(m < n) && !(n < m);
  }

  lemma LineFeedFirst(rest: Text)
    ensures NextLine([LF] + rest) == rest
  {
  }

  /** Where the value stands between its quotes. */
  lemma Between(v: Text, rest: Text)
    ensures var src := Quoted(v) + rest;
            && |src| == |v| + 3 + |rest| && src[0] == SINGLE && src[|v| + 1] == SINGLE && src[1..|v| + 1] == v
            && src[|v| + 2..] == [LF] + rest && forall p :: 0 <= p < |v| ==> src[p + 1] == v[p]
  {
  }

  /** The value closes at its own quote exactly if it closes where it should. */
  lemma ClosesAtEnd(v: Text, rest: Text)
    ensures CloseAt(Quoted(v) + rest, SINGLE, 1) == |v| + 1 <==> Closes(v)
  {
    var src := Quoted(v) + rest;
    Between(v, rest);
    hide Quoted;
    var n := CloseAt(src, SINGLE, 1);
    assert v != [] ==> src[|v| - 1 + 1] == v[|v| - 1];
    if Closes(v) {
      forall k | 1 <= k < |v| + 1
        ensures src[k] != SINGLE || src[k - 1] == BACKSLASH
      {
        assert src[k - 1 + 1] == v[k - 1] && (k > 1 ==> src[k - 2 + 1] == v[k - 2]);
      }
      CloseIs(src, SINGLE, |v| + 1);
    }
    if n == |v| + 1 {
      forall p | 0 <= p < |v| && v[p] == SINGLE
        ensures p > 0 && v[p - 1] == BACKSLASH
      {
        assert src[p + 1] == SINGLE && (p > 0 ==> src[p - 1 + 1] == v[p - 1]);
      }
    }
  }

  /** Main result. A single-quoted value reads back as itself exactly when it closes where it should. */
  lemma QuotedReadsBack(v: Text, rest: Text, vars: map<Text, Text>, e: Expansion)
    ensures ValueOf(Quoted(v) + rest, vars, e) == Ok(Binding(v, rest)) <==> Closes(v)
  {
    hide Closes, CloseAt;
    ClosesAtEnd(v, rest);
    Between(v, rest);
    LineFeedFirst(rest);
    ReadsTo(Quoted(v) + rest, vars, e, v, rest);
  }

  /** A single-quoted value reads as `v` exactly if the quote after `v` is the closing one. */
  lemma ReadsTo(src: Text, vars: map<Text, Text>, e: Expansion, v: Text, rest: Text)
    requires |v| + 1 < |src| && src[0] == SINGLE && src[1..|v| + 1] == v && NextLine(src[|v| + 2..]) == rest
    ensures ValueOf(src, vars, e) == Ok(Binding(v, rest)) <==> CloseAt(src, SINGLE, 1) == |v| + 1
  {
    hide NextLine, CloseAt;
    var n := CloseAt(src, SINGLE, 1);
    if n < |src| {
      assert |src[1..n]| == n - 1;
    }
  }

  lemma NameNeverSpace(s: Text, n: nat)
    requires n < |s| && (forall k :: 0 <= k < n ==> NameByte(s[k])) && s[n] == EQUALS && n > 0
    ensures SpaceLen(s) == 0 && s[0] != HASH && !(EXPORT <= s) && NameEnd(s) == n
  {
    NameStops(s, n);
    if n <= 6 {
      assert s[n] != EXPORT[n];
    } else {
      assert NameByte(s[6]) && s[6] != EXPORT[6];
    }
  }

  lemma NameKept(key: Text)
    requires ValidKey(key)
    ensures TrimRightSpace(key) == key
  {
    assert NameByte(key[|key| - 1]);
  }

  lemma LineKey(key: Text, v: Text, rest: Text)
    requires ValidKey(key)
    ensures var s := key + [EQUALS] + Quoted(v) + rest;
            FindStatementStart(s) == Some(s) && KeyOf(s) == Ok(Binding(key, Quoted(v) + rest))
  {
    var s := key + [EQUALS] + Quoted(v) + rest;
    var n := |key|;
    assert s[..n] == key && s[n] == EQUALS && s[n + 1..] == Quoted(v) + rest;
    forall k | 0 <= k < n
      ensures NameByte(s[k])
    {
      assert s[k] == key[k];
    }
    NameNeverSpace(s, n);
    NameKept(key);
    hide NameEnd, SpaceLen;
  }

  /** Main result. Printing any list of valid keys and closing values and parsing the text
      gives back exactly the map in which later bindings win. */
  lemma {:induction false} RenderReadsBack(pairs: seq<Pair>, vars: map<Text, Text>, e: Expansion)
    requires forall p <- pairs :: ValidKey(p.key) && Closes(p.value)
    ensures ParseFrom(Render(pairs), vars, e) == Ok(LastWins(pairs, vars))
  {
    if pairs != [] {
      var p := pairs[0];
      var rest := Render(pairs[1..]);
      LineKey(p.key, p.value, rest);
      QuotedReadsBack(p.value, rest, vars, e);
      RenderReadsBack(pairs[1..], vars[p.key := p.value], e);
    }
  }

  lemma {:induction false} RenderSpared(pairs: seq<Pair>)
    requires forall p <- pairs :: ValidKey(p.key) && NoCrLf(p.value)
    ensures NoCrLf(Render(pairs))
  {
    if pairs != [] {
      RenderSpared(pairs[1..]);
      LineSpared(pairs[0].key, pairs[0].value, Render(pairs[1..]));
    }
  }

  lemma LineSpared(key: Text, v: Text, rest: Text)
    requires ValidKey(key) && NoCrLf(v) && NoCrLf(rest)
    ensures NoCrLf(key + [EQUALS] + Quoted(v) + rest)
  {
    var head := key + [EQUALS, SINGLE];
    forall p | 0 <= p < |head| - 1
      ensures head[p] != CR
    {
      assert p < |key| ==> NameByte(head[p]);
    }
    Joined(head, v);
    Joined(head + v, [SINGLE, LF]);
    Joined(head + v + [SINGLE, LF], rest);
    assert head + v + [SINGLE, LF] + rest == key + [EQUALS] + Quoted(v) + rest;
  }

  lemma Joined(a: Text, b: Text)
    requires NoCrLf(a) && NoCrLf(b) && (a == [] || a[|a| - 1] != CR || b == [] || b[0] != LF)
    ensures NoCrLf(a + b)
  {
  }

  /** The round trip through the whole parser. */
  lemma EnvRoundTrip(pairs: seq<Pair>, e: Expansion)
    requires forall p <- pairs :: ValidKey(p.key) && Closes(p.value) && NoCrLf(p.value)
    ensures ParseFrom(Unix(Render(pairs)), map[], e) == Ok(LastWins(pairs, map[]))
  {
    RenderSpared(pairs);
    UnixSpares(Render(pairs));
    RenderReadsBack(pairs, map[], e);
  }

  /** Last wins: a key is bound exactly if it was before or some pair has it; the value is that of
      the last such pair, or the old one. */
  lemma {:induction false} LastWinsIs(pairs: seq<Pair>, vars: map<Text, Text>, key: Text)
    ensures key in LastWins(pairs, vars) <==> key in vars || exists i :: 0 <= i < |pairs| && pairs[i].key == key
    ensures forall i :: (0 <= i < |pairs| && pairs[i].key == key
                         && (forall j :: i < j < |pairs| ==> pairs[j].key != key)) ==>
              LastWins(pairs, vars)[key] == pairs[i].value
    ensures key in vars && (forall i :: 0 <= i < |pairs| ==> pairs[i].key != key) ==>
              LastWins(pairs, vars)[key] == vars[key]
    decreases |pairs|
  {
    if pairs != [] {
      var rest := pairs[1..];
      LastWinsIs(rest, vars[pairs[0].key := pairs[0].value], key);
      assert forall i :: 0 < i < |pairs| ==> pairs[i] == rest[i - 1];
      assert forall i :: 0 <= i < |rest| ==> rest[i] == pairs[i + 1];
    }
  }
}
