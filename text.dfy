/**
 * The JavaScript string built-ins the pages rely on: `trim`, `toLowerCase`,
 * `includes`, `split(' ')[0]`, `replace` of a single character, `join`, and
 * the relational operators. A `char` here is a Unicode scalar value, where
 * JavaScript works on UTF-16 code units; the two agree on every character of
 * the Basic Multilingual Plane.
 */
module Text {

  /** The characters `String.prototype.trim` removes: white space and line terminators. */
  predicate IsTrimmable(c: char) {
    c == ' ' || c == '\t' || c == '\n' || c == '\r' || c == '\U{000B}' || c == '\U{000C}'
    || c == '\U{00A0}' || c == '\U{1680}' || ('\U{2000}' <= c <= '\U{200A}')
    || c == '\U{2028}' || c == '\U{2029}' || c == '\U{202F}' || c == '\U{205F}'
    || c == '\U{3000}' || c == '\U{FEFF}'
  }

  /** How many white-space characters `s` starts with. */
  function LeadingBlanks(s: string): (n: nat)
    ensures n <= |s|
    ensures forall k :: 0 <= k < n ==> IsTrimmable(s[k])
    ensures n < |s| ==> !IsTrimmable(s[n])
    decreases |s|
  {
    if s != [] && IsTrimmable(s[0]) then 1 + LeadingBlanks(s[1..]) else 0
  }

  /** The length of `s` once its trailing white space is cut off. */
  function EndOfText(s: string): (m: nat)
    ensures m <= |s|
    ensures forall k :: m <= k < |s| ==> IsTrimmable(s[k])
    ensures 0 < m ==> !IsTrimmable(s[m - 1])
    decreases |s|
  {
    if s != [] && IsTrimmable(s[|s| - 1]) then EndOfText(s[..|s| - 1]) else |s|
  }

  /**
   * `s.trim()`: `s` without its leading and trailing white space. The result is
   * empty when `s` is all white space; otherwise it is the piece of `s` from the
   * first to the last character that is not white space.
   */
  function Trim(s: string): (r: string)
    ensures (forall k :: 0 <= k < |s| ==> IsTrimmable(s[k])) ==> r == []
    ensures r != [] ==> r == s[LeadingBlanks(s)..EndOfText(s)]
    ensures r == [] || (!IsTrimmable(r[0]) && !IsTrimmable(r[|r| - 1]))
  {
    var n := LeadingBlanks(s);
    if n == |s| then []
    else
      assert !IsTrimmable(s[n]);
      s[n..EndOfText(s)]
  }

  /** The trimmed text is empty exactly when every character is white space. */
  lemma TrimEmptyIffBlank(s: string)
    ensures Trim(s) == [] <==> forall k :: 0 <= k < |s| ==> IsTrimmable(s[k])
  {
  }

  /** Trimming twice is trimming once. */
  lemma TrimIdempotent(s: string)
    ensures Trim(Trim(s)) == Trim(s)
  {
    var r := Trim(s);
    if r != [] {
      assert LeadingBlanks(r) == 0;
      assert EndOfText(r) == |r|;
    }
  }

  /**
   * An upper-case letter whose lower-case form is 32 code points further on:
   * ASCII, Latin-1 (except the multiplication sign), Greek and the basic
   * Cyrillic alphabet.
   */
  predicate ShiftsBy32(c: char) {
    ('A' <= c <= 'Z')
    || ('\U{00C0}' <= c <= '\U{00DE}' && c != '\U{00D7}')
    || ('\U{0391}' <= c <= '\U{03A9}' && c != '\U{03A2}')
    || ('\U{0410}' <= c <= '\U{042F}')
  }

  /**
   * `toLowerCase` on one character, for the alphabets above and the Cyrillic
   * letters U+0400 to U+040F, whose lower-case forms are 80 further on; every
   * other character is kept.
   */
  function LowerChar(c: char): (r: char)
    ensures ShiftsBy32(c) ==> r as int == c as int + 32
    ensures '\U{0400}' <= c <= '\U{040F}' ==> r as int == c as int + 80
    ensures !ShiftsBy32(c) && !('\U{0400}' <= c <= '\U{040F}') ==> r == c
  {
    if ShiftsBy32(c) then (c as int + 32) as char
    else if '\U{0400}' <= c <= '\U{040F}' then (c as int + 80) as char
    else c
  }

  function ToLower(s: string): (r: string)
    ensures |r| == |s|
    ensures forall i :: 0 <= i < |s| ==> r[i] == LowerChar(s[i])
  {
    seq(|s|, i requires 0 <= i < |s| => LowerChar(s[i]))
  }

  /** `needle` occurs in `hay` starting at position `i`. */
  predicate OccursAt(hay: string, needle: string, i: nat) {
    i + |needle| <= |hay| && hay[i..i + |needle|] == needle
  }

  /** `hay.includes(needle)`: `needle` occurs as a contiguous piece of `hay`. */
  function Contains(hay: string, needle: string): (b: bool)
    ensures b <==> exists i: nat :: OccursAt(hay, needle, i)
    decreases |hay|
  {
    if needle <= hay then
      assert OccursAt(hay, needle, 0);
      true
    else if hay == [] then
      assert forall i: nat :: !OccursAt(hay, needle, i);
      false
    else
      var b := Contains(hay[1..], needle);
      assert forall i: nat :: OccursAt(hay[1..], needle, i) <==> OccursAt(hay, needle, i + 1);
      assert !OccursAt(hay, needle, 0);
      assert forall i: nat :: OccursAt(hay, needle, i) ==> i == 0 || OccursAt(hay[1..], needle, i - 1);
      b
  }

  /** Case-insensitive containment as the search boxes compute it. */
  function ContainsIgnoringCase(hay: string, needle: string): bool {
    Contains(ToLower(hay), ToLower(needle))
  }

  /** `s.split(' ')[0]`: the text before the first space, or all of `s` when it has none. */
  function FirstWord(s: string): (r: string)
    ensures r <= s
    ensures ' ' !in r
    ensures |r| < |s| ==> s[|r|] == ' '
  {
    if s == [] then []
    else if s[0] == ' ' then []
    else [s[0]] + FirstWord(s[1..])
  }

  /** The position of the first `c` in `s`, or `|s|` when there is none (`indexOf`). */
  function IndexOf(s: string, c: char): (i: nat)
    ensures i <= |s|
    ensures forall k :: 0 <= k < i ==> s[k] != c
    ensures i < |s| ==> s[i] == c
    decreases |s|
  {
    if s == [] then 0 else if s[0] == c then 0 else 1 + IndexOf(s[1..], c)
  }

  /** `s.replace(from, to)` for a one-character pattern: only the first occurrence is replaced. */
  function ReplaceFirst(s: string, from: char, to: char): (r: string)
    ensures |r| == |s|
    ensures forall k :: 0 <= k < |s| ==> r[k] == if k == IndexOf(s, from) then to else s[k]
  {
    var i := IndexOf(s, from);
    if i == |s| then s else s[..i] + [to] + s[i + 1..]
  }

  /** `parts.join(sep)`. */
  function Join(parts: seq<string>, sep: string): (r: string)
    ensures parts == [] ==> r == []
    ensures |parts| == 1 ==> r == parts[0]
    ensures |parts| >= 2 ==> r == parts[0] + sep + Join(parts[1..], sep)
    ensures |parts| >= 2 ==> |r| >= |sep|
  {
    if parts == [] then []
    else if |parts| == 1 then parts[0]
    else parts[0] + sep + Join(parts[1..], sep)
  }

  /** The relational comparison `a <= b` of two JavaScript strings: lexicographic on code units. */
  predicate LexLe(a: string, b: string)
    decreases |a|
  {
    if a == [] then true
    else if b == [] then false
    else a[0] < b[0] || (a[0] == b[0] && LexLe(a[1..], b[1..]))
  }

  lemma {:induction false} LexLeReflexive(a: string)
    ensures LexLe(a, a)
    decreases |a|
  {
    if a != [] { LexLeReflexive(a[1..]); }
  }

  lemma {:induction false} LexLeTotal(a: string, b: string)
    ensures LexLe(a, b) || LexLe(b, a)
    decreases |a|
  {
    if a != [] && b != [] && a[0] == b[0] { LexLeTotal(a[1..], b[1..]); }
  }

  lemma {:induction false} LexLeTransitive(a: string, b: string, c: string)
    requires LexLe(a, b) && LexLe(b, c)
    ensures LexLe(a, c)
    decreases |a|
  {
    if a != [] && b != [] && c != [] && a[0] == b[0] && b[0] == c[0] {
      LexLeTransitive(a[1..], b[1..], c[1..]);
    }
  }

  lemma {:induction false} LexLeAntisymmetric(a: string, b: string)
    requires LexLe(a, b) && LexLe(b, a)
    ensures a == b
    decreases |a|
  {
    if a != [] {
      LexLeAntisymmetric(a[1..], b[1..]);
    }
  }
}
