/**
 The text rules of the service: internal/service/auth/validate.go and the length and
 blank checks around it. Lengths are counted in bytes, as Go counts them.
 */
module Texts {

  /** `unicode.IsSpace`. */
  predicate IsSpace(c: char) {
    var p := c as int;
    || 9 <= p <= 13 || p == 0x20 || p == 0x85 || p == 0xA0 || p == 0x1680 || 0x2000 <= p <= 0x200A
    || p == 0x2028 || p == 0x2029 || p == 0x202F || p == 0x205F || p == 0x3000
  }

  /** `strings.TrimSpace`. */
  function Trim(s: string): (r: string)
    ensures |r| <= |s|
    ensures r != [] ==> !IsSpace(r[0]) && !IsSpace(r[|r| - 1])
    decreases |s|
  {
    if s == [] then s
    else if IsSpace(s[0]) then Trim(s[1..])
    else if IsSpace(s[|s| - 1]) then Trim(s[..|s| - 1])
    else s
  }

  /** `strings.TrimSpace(s) == ""`. */
  predicate IsBlank(s: string) {
    forall i :: 0 <= i < |s| ==> IsSpace(s[i])
  }

  lemma {:induction false} BlankTrims(s: string)
    ensures Trim(s) == [] <==> IsBlank(s)
    decreases |s|
  {
    if s != [] {
      if IsSpace(s[0]) {
        BlankTrims(s[1..]);
        assert forall i :: 0 < i < |s| ==> s[i] == s[1..][i - 1];
      } else if IsSpace(s[|s| - 1]) {
        BlankTrims(s[..|s| - 1]);
        assert s[..|s| - 1][0] == s[0];
      }
    }
  }

  /** Length in UTF-8. */
  function Utf8Length(s: string): nat {
    if s == [] then 0
    else
      var p := s[0] as int;
      (if p < 0x80 then 1 else if p < 0x800 then 2 else if p < 0x10000 then 3 else 4) + Utf8Length(s[1..])
  }

  lemma {:induction false} Utf8AtMost(s: string)
    ensures |s| <= Utf8Length(s) <= 4 * |s|
  {
    if s != [] {
      Utf8AtMost(s[1..]);
    }
  }

  predicate UsernameChar(c: char) {
    'a' <= c <= 'z' || '0' <= c <= '9' || c == '-' || c == '_' || c == '.'
  }

  /** `normalizeUsername` accepts the text and leaves it as it is. */
  predicate UsernameAllowed(name: string) {
    3 <= |name| <= 64 && forall i :: 0 <= i < |name| ==> UsernameChar(name[i])
  }

  /** `normalizeUsername`; `lower` is the lower case of a character. */
  function NormalizeUsername(value: string, lower: char -> char): (name: string)
    ensures name == [] || UsernameAllowed(name)
  {
    var name := Lowered(Trim(value), lower);
    if Utf8Length(name) < 3 || Utf8Length(name) > 64 || exists i :: 0 <= i < |name| && !UsernameChar(name[i]) then []
    else
      AsciiLength(name);
      name
  }

  function Lowered(s: string, lower: char -> char): (r: string)
    ensures |r| == |s| && forall i :: 0 <= i < |s| ==> r[i] == lower(s[i])
  {
    if s == [] then [] else [lower(s[0])] + Lowered(s[1..], lower)
  }

  lemma {:induction false} AsciiLength(s: string)
    requires forall i :: 0 <= i < |s| ==> UsernameChar(s[i])
    ensures Utf8Length(s) == |s|
  {
    if s != [] {
      AsciiLength(s[1..]);
    }
  }

  /** The allowed usernames are exactly the ones that normalization accepts and leaves as they are; so
      normalizing twice is normalizing once. */
  lemma UsernameFixed(name: string, lower: char -> char)
    requires forall c :: UsernameChar(c) ==> lower(c) == c
    ensures name != [] && NormalizeUsername(name, lower) == name <==> UsernameAllowed(name)
  {
    if UsernameAllowed(name) {
      AsciiLength(name);
      TrimKept(name);
      LoweredKept(name, lower);
    }
    hide Trim, Lowered, Utf8Length, IsSpace;
  }

  lemma TrimKept(s: string)
    requires s != [] && UsernameChar(s[0]) && UsernameChar(s[|s| - 1])
    ensures Trim(s) == s
  {
  }

  lemma LoweredKept(s: string, lower: char -> char)
    requires forall i :: 0 <= i < |s| ==> lower(s[i]) == s[i]
    ensures Lowered(s, lower) == s
  {
    hide Lowered;
  }

  /** What a stored display name must be where it is entered. */
  predicate DisplayNameAllowed(name: string) {
    !IsBlank(name) && Utf8Length(name) <= 128
  }

  predicate KeyStart(c: char) {
    'A' <= c <= 'Z' || 'a' <= c <= 'z' || '0' <= c <= '9'
  }

  /** `planKeyPattern`. */
  predicate PlanKeyAllowed(key: string) {
    && 1 <= |key| <= 64 && KeyStart(key[0])
    && forall i :: 0 <= i < |key| ==> KeyStart(key[i]) || key[i] == '_' || key[i] == '-'
  }
}
