/**
 Keyboard and mouse events as the game sees them, and the two helpers of
 name entry: Python's `str.strip()` and `str.isprintable()`, and the editing
 step shared by `handle_name_input_start` and `handle_name_input`.
 */
module Input {

  /** The keys the game tests `event.key` against; every other key is
      `OtherKey`. `Digit(n)` is the key `K_n` of the main keyboard. */
  datatype Key = Return | Backspace | Escape | Space | LetterL | LetterR | Digit(n: int) | OtherKey

  /** A `KEYDOWN` carries its key and `event.unicode`. A `MOUSEBUTTONDOWN`
      carries the index of the answer button under the pointer (anything
      outside 0..3 is a click beside the buttons). */
  datatype Event = KeyDown(key: Key, text: string) | Click(button: int) | OtherEvent

  /** The most characters before typing is refused. */
  const MaxNameLength := 15

  /** Characters for which Python's `str.isspace()` holds, by code point. */
  predicate IsWhitespace(c: char)
  {
    var n := c as int;
    (0x09 <= n <= 0x0d) || (0x1c <= n <= 0x20) || n == 0x85 || n == 0xa0 ||
    n == 0x1680 || (0x2000 <= n <= 0x200a) || n == 0x2028 || n == 0x2029 ||
    n == 0x202f || n == 0x205f || n == 0x3000
  }

  /** Not a control, a separator other than the space itself, one of the
      listed format characters, a private-use character (the BMP block and
      planes 15 and 16) or one of the noncharacters U+FFFE and U+FFFF. Other
      format characters and other unassigned code points are taken as
      printable. */
  predicate IsPrintableChar(c: char)
  {
    var n := c as int;
    n >= 0x20 && !(0x7f <= n <= 0xa0) && n != 0xad &&
    (n == 0x20 || !IsWhitespace(c)) &&
    !(0x600 <= n <= 0x605) && n != 0x61c && n != 0x6dd && n != 0x70f && n != 0x180e &&
    !(0x200b <= n <= 0x200f) && !(0x202a <= n <= 0x202e) &&
    !(0x2060 <= n <= 0x206f) && n != 0xfeff &&
    !(0xe000 <= n <= 0xf8ff) && !(0xfff9 <= n <= 0xfffb) && n != 0xfffe && n != 0xffff &&
    !(0xf0000 <= n <= 0x10ffff)
  }

  /** `s.isprintable()`; true of the empty string. */
  predicate IsPrintable(s: string)
  {
    forall i :: 0 <= i < |s| ==> IsPrintableChar(s[i])
  }

  predicate AllWhitespace(s: string)
  {
    forall i :: 0 <= i < |s| ==> IsWhitespace(s[i])
  }

  /** `s.lstrip()`. */
  function TrimStart(s: string): string
  {
    if s == [] || !IsWhitespace(s[0]) then s else TrimStart(s[1..])
  }

  /** `s.rstrip()`. */
  function TrimEnd(s: string): string
  {
    if s == [] || !IsWhitespace(s[|s| - 1]) then s else TrimEnd(s[..|s| - 1])
  }

  /** `s.strip()`. */
  function Strip(s: string): string
  {
    TrimEnd(TrimStart(s))
  }

  /** lstrip leaves the suffix after the leading whitespace. */
  lemma {:induction false} TrimStartDropsLeading(s: string)
    ensures var r := TrimStart(s); |r| <= |s| && r == s[|s| - |r|..]
    ensures var r := TrimStart(s); AllWhitespace(s[..|s| - |r|])
    ensures var r := TrimStart(s); r == [] || !IsWhitespace(r[0])
  {
    if s != [] && IsWhitespace(s[0]) {
      TrimStartDropsLeading(s[1..]);
      var r := TrimStart(s[1..]);
      assert s[..|s| - |r|] == [s[0]] + s[1..][..|s| - 1 - |r|];
    }
  }

  /** rstrip leaves the prefix before the trailing whitespace. */
  lemma {:induction false} TrimEndDropsTrailing(s: string)
    ensures var r := TrimEnd(s); |r| <= |s| && r == s[..|r|]
    ensures var r := TrimEnd(s); AllWhitespace(s[|r|..])
    ensures var r := TrimEnd(s); r == [] || !IsWhitespace(r[|r| - 1])
  {
    if s != [] && IsWhitespace(s[|s| - 1]) {
      TrimEndDropsTrailing(s[..|s| - 1]);
      var r := TrimEnd(s[..|s| - 1]);
      assert s[|r|..] == s[..|s| - 1][|r|..] + [s[|s| - 1]];
    }
  }

  /** Enter is accepted exactly when the name holds a non-whitespace
      character. */
  lemma StripEmptyIffBlank(s: string)
    ensures Strip(s) == [] <==> AllWhitespace(s)
  {
    var t := TrimStart(s);
    TrimStartDropsLeading(s);
    TrimEndDropsTrailing(t);
    if Strip(s) == [] {
      assert s == s[..|s| - |t|] + t;
    }
  }

  /** What strip keeps starts and ends with a non-whitespace character and
      is a contiguous part of the name. */
  lemma StripKeepsCore(s: string)
    ensures var r := Strip(s); r == [] || (!IsWhitespace(r[0]) && !IsWhitespace(r[|r| - 1]))
    ensures |TrimStart(s)| <= |s|
    ensures var k := |s| - |TrimStart(s)|; k + |Strip(s)| <= |s| && Strip(s) == s[k..k + |Strip(s)|]
  {
    var t := TrimStart(s);
    var r := TrimEnd(t);
    TrimStartDropsLeading(s);
    TrimEndDropsTrailing(t);
    var k := |s| - |t|;
    assert s[k..][..|r|] == s[k..k + |r|];
    if r != [] {
      assert r[0] == t[0];
    }
  }

  /** Stripping twice strips nothing more. */
  lemma StripIdempotent(s: string)
    ensures Strip(Strip(s)) == Strip(s)
  {
    var r := Strip(s);
    StripKeepsCore(s);
    if r != [] {
      assert TrimStart(r) == r;
      assert TrimEnd(r) == r;
    }
  }

  /** One key press on a name-entry screen other than Enter: Backspace drops
      the last character (`name[:-1]`), anything else appends `event.unicode`
      while the name is shorter than 15 and the text is printable. Enter
      leaves the name as it is. */
  function EditName(name: string, key: Key, text: string): string
  {
    match key
    case Return => name
    case Backspace => if name == [] then [] else name[..|name| - 1]
    case _ => if |name| < MaxNameLength && IsPrintable(text) then name + text else name
  }

  /** Typed one character at a time, a name never grows past 15. */
  lemma NameLengthBounded(name: string, key: Key, text: string)
    requires |name| <= MaxNameLength && |text| <= 1
    ensures |EditName(name, key, text)| <= MaxNameLength
  {
  }

  /** Backspace takes back an accepted printable character. */
  lemma BackspaceUndoesTyping(name: string, key: Key, c: char, text: string)
    requires key != Return && key != Backspace
    requires |name| < MaxNameLength && IsPrintableChar(c)
    ensures EditName(EditName(name, key, [c]), Backspace, text) == name
  {
    assert (name + [c])[..|name|] == name;
  }

  /** An accepted key press appends its text and nothing else. */
  lemma TypingAppends(name: string, key: Key, text: string)
    requires key != Return && key != Backspace
    requires |name| < MaxNameLength && IsPrintable(text)
    ensures var r := EditName(name, key, text); |r| == |name| + |text| && r[..|name|] == name && r[|name|..] == text
  {
  }

  /** Backspace shortens a non-empty name by exactly its last character. */
  lemma BackspaceDropsLast(name: string, text: string)
    ensures var r := EditName(name, Backspace, text);
      if name == [] then r == [] else r + [name[|name| - 1]] == name
  {
  }

  /** A refused key press changes nothing: a non-printable text, or a full
      name. */
  lemma RefusedTypingKeepsName(name: string, key: Key, text: string)
    requires key != Return && key != Backspace
    requires |name| >= MaxNameLength || !IsPrintable(text)
    ensures EditName(name, key, text) == name
  {
  }
}
