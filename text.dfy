/**
 * The string operations the Python code relies on (`lower`, `upper`,
 * `title`, `strip`, `split`, `join`, `find`, `rfind`, slicing, `in`),
 * stated over `string` = `seq<char>`.
 *
 * Case mapping covers ASCII and the Latin-1 letters that have a
 * one-character partner inside Latin-1; every other character is left as it
 * is.  Python maps some of those differently: 'ß'.upper() is "SS",
 * 'ÿ'.upper() is 'Ÿ', 'µ'.upper() is 'Μ', and 'Œ', 'œ' and 'Ÿ' (outside
 * Latin-1) change case too.  Every mapping here preserves length.
 */
module Text {
  import opened Wrappers

  /**
   * The characters `str.strip()` removes: those `str.isspace()` accepts, that
   * is tab to carriage return, the four separators 0x1C-0x1F, space, 0x85,
   * no-break space and the Unicode space and line separators.
   */
  predicate IsSpace(c: char) {
    || '\t' <= c <= '\r' || '\U{1C}' <= c <= ' ' || c == '\U{85}' || c == '\U{A0}'
    || c == '\U{1680}' || '\U{2000}' <= c <= '\U{200A}' || c == '\U{2028}' || c == '\U{2029}'
    || c == '\U{202F}' || c == '\U{205F}' || c == '\U{3000}'
  }

  predicate IsDigit(c: char) { '0' <= c <= '9' }

  /** Upper-case letters that have a one-character lower-case form. */
  predicate IsUpperLetter(c: char) {
    'A' <= c <= 'Z' || ('\U{C0}' <= c <= '\U{DE}' && c != '\U{D7}')
  }

  /** Lower-case letters that have a one-character upper-case form. */
  predicate IsLowerLetter(c: char) {
    'a' <= c <= 'z' || ('\U{E0}' <= c <= '\U{FE}' && c != '\U{F7}')
  }

  predicate IsCased(c: char) { IsUpperLetter(c) || IsLowerLetter(c) || c == '\U{DF}' }

  function LowerChar(c: char): char {
    if IsUpperLetter(c) then (c as int + 32) as char else c
  }

  function UpperChar(c: char): char {
    if IsLowerLetter(c) then (c as int - 32) as char else c
  }

  /** `s.lower()` */
  function Lower(s: string): (r: string)
    ensures |r| == |s|
    ensures forall i :: 0 <= i < |s| ==> r[i] == LowerChar(s[i])
  {
    seq(|s|, i requires 0 <= i < |s| => LowerChar(s[i]))
  }

  /** `s.upper()` */
  function Upper(s: string): (r: string)
    ensures |r| == |s|
    ensures forall i :: 0 <= i < |s| ==> r[i] == UpperChar(s[i])
  {
    seq(|s|, i requires 0 <= i < |s| => UpperChar(s[i]))
  }

  /** `s.title()`: a cased character is upper-cased when it follows an uncased one, lower-cased otherwise. */
  function Title(s: string): (r: string)
    ensures |r| == |s|
  {
    TitleAfter(s, false)
  }

  function TitleAfter(s: string, prevCased: bool): (r: string)
    ensures |r| == |s|
  {
    if s == [] then []
    else
      var c := if prevCased then LowerChar(s[0]) else UpperChar(s[0]);
      [c] + TitleAfter(s[1..], IsCased(s[0]))
  }

  /** Every occurrence of `a` replaced by `b` (`s.replace(a, b)` for single characters). */
  function ReplaceChar(s: string, a: char, b: char): (r: string)
    ensures |r| == |s|
    ensures forall i :: 0 <= i < |s| ==> r[i] == if s[i] == a then b else s[i]
  {
    seq(|s|, i requires 0 <= i < |s| => if s[i] == a then b else s[i])
  }

  /** Python's `s[:n]` for a non-negative `n`. */
  function Take<T>(s: seq<T>, n: nat): (r: seq<T>)
    ensures |r| == if n <= |s| then n else |s|
    ensures r == s[..|r|]
  {
    if n <= |s| then s[..n] else s
  }

  predicate IsPrefix(p: string, s: string) {
    |p| <= |s| && s[..|p|] == p
  }

  /** Python's substring test `p in s`. */
  predicate Contains(s: string, p: string) {
    exists i | 0 <= i <= |s| :: IsPrefix(p, s[i..])
  }

  /** Every character of a contained string is a character of the containing one. */
  lemma ContainsChar(s: string, p: string, k: nat)
    requires Contains(s, p) && k < |p|
    ensures p[k] in s
  {
    var i :| 0 <= i <= |s| && IsPrefix(p, s[i..]);
    assert s[i + k] == p[k];
  }

  /** A string contains itself wherever it is embedded. */
  lemma ContainsInfix(a: string, p: string, b: string)
    ensures Contains(a + p + b, p)
  {
    var s := a + p + b;
    assert s[|a|..][..|p|] == p;
    assert IsPrefix(p, s[|a|..]);
  }

  /** When the first character of `p` does not occur after position 0, `p` can only occur at the start. */
  lemma ContainsOnlyAtStart(s: string, p: string)
    requires |s| > 0 && |p| > 0 && p[0] !in s[1..]
    ensures Contains(s, p) ==> IsPrefix(p, s)
  {
    if Contains(s, p) {
      var i :| 0 <= i <= |s| && IsPrefix(p, s[i..]);
      assert i == 0;
    }
  }

  /** `c` cannot appear in `Lower(s)` when none of its upper- or lower-case sources occur in `s`. */
  lemma NotInLower(s: string, c: char, upper: char)
    requires c !in s && upper !in s
    requires forall d: char :: LowerChar(d) == c ==> d == c || d == upper
    ensures c !in Lower(s)
  {
  }

  /** Every character of `s` is one of `allowed`. */
  predicate OnlyFrom(s: string, allowed: set<char>) {
    forall i | 0 <= i < |s| :: s[i] in allowed
  }

  lemma OnlyFromConcat(a: string, b: string, allowed: set<char>)
    requires OnlyFrom(a, allowed) && OnlyFrom(b, allowed)
    ensures OnlyFrom(a + b, allowed)
  {
  }

  /** Leading whitespace removed (`s.lstrip()`). */
  function TrimStart(s: string): (r: string)
    ensures |r| <= |s| && r == s[|s| - |r|..]
    ensures r == [] || !IsSpace(r[0])
    ensures forall k :: 0 <= k < |s| - |r| ==> IsSpace(s[k])
  {
    if s != [] && IsSpace(s[0]) then TrimStart(s[1..]) else s
  }

  /** Trailing whitespace removed (`s.rstrip()`). */
  function TrimEnd(s: string): (r: string)
    ensures |r| <= |s| && r == s[..|r|]
    ensures r == [] || !IsSpace(r[|r| - 1])
    ensures forall k :: |r| <= k < |s| ==> IsSpace(s[k])
  {
    if s != [] && IsSpace(s[|s| - 1]) then TrimEnd(s[..|s| - 1]) else s
  }

  /** `s.strip()` */
  function Strip(s: string): (r: string)
    ensures |r| <= |s|
    ensures r == [] || (!IsSpace(r[0]) && !IsSpace(r[|r| - 1]))
    ensures r == [] <==> forall k :: 0 <= k < |s| ==> IsSpace(s[k])
    ensures Contains(s, r)
  {
    var a := TrimStart(s);
    var r := TrimEnd(a);
    assert r != [] ==> r[0] == a[0];
    assert s[|s| - |a|..][..|r|] == r;
    assert IsPrefix(r, s[|s| - |a|..]);
    r
  }

  /** A text with no whitespace at either end is its own strip. */
  lemma StripUnchanged(s: string)
    requires s == [] || (!IsSpace(s[0]) && !IsSpace(s[|s| - 1]))
    ensures Strip(s) == s
  {
  }

  /** First index of `c` (`s.find(c)`, where -1 is `None`). */
  function Find(s: string, c: char): (r: Option<nat>)
    ensures r.None? <==> c !in s
    ensures r.Some? ==> r.value < |s| && s[r.value] == c && c !in s[..r.value]
  {
    if s == [] then None
    else if s[0] == c then Some(0)
    else match Find(s[1..], c)
      case None => None
      case Some(i) => assert s[..i + 1] == [s[0]] + s[1..][..i]; Some(i + 1)
  }

  /** Last index of `c` (`s.rfind(c)`, where -1 is `None`). */
  function RFind(s: string, c: char): (r: Option<nat>)
    ensures r.None? <==> c !in s
    ensures r.Some? ==> r.value < |s| && s[r.value] == c && c !in s[r.value + 1..]
  {
    if s == [] then None
    else if s[|s| - 1] == c then Some(|s| - 1)
    else
      var init := s[..|s| - 1];
      assert s == init + [s[|s| - 1]];
      match RFind(init, c)
      case None => None
      case Some(i) => assert s[i + 1..] == init[i + 1..] + [s[|s| - 1]]; Some(i)
  }

  /** `Find` answers the one index that holds `c` with no `c` before it. */
  lemma FindAt(s: string, c: char, i: nat)
    requires i < |s| && s[i] == c && c !in s[..i]
    ensures Find(s, c) == Some(i)
  {
    var k := Find(s, c).value;
    assert k == i;
  }

  /** `RFind` answers the one index that holds `c` with no `c` after it. */
  lemma RFindAt(s: string, c: char, i: nat)
    requires i < |s| && s[i] == c && c !in s[i + 1..]
    ensures RFind(s, c) == Some(i)
  {
    var k := RFind(s, c).value;
    assert k == i;
  }

  /** `sep.join(parts)` */
  function Join(parts: seq<string>, sep: string): string {
    if parts == [] then ""
    else if |parts| == 1 then parts[0]
    else parts[0] + sep + Join(parts[1..], sep)
  }

  /** `s.split(c)` with a one-character separator. */
  function Split(s: string, c: char): (r: seq<string>)
    ensures |r| >= 1
    ensures forall k :: 0 <= k < |r| ==> c !in r[k]
    ensures Join(r, [c]) == s
    decreases |s|
  {
    match Find(s, c)
    case None => [s]
    case Some(i) =>
      var rest := Split(s[i + 1..], c);
      assert s == s[..i] + [c] + s[i + 1..];
      SplitJoin(s[..i], rest, c);
      [s[..i]] + rest
  }

  lemma SplitJoin(head: string, rest: seq<string>, c: char)
    requires |rest| >= 1
    ensures Join([head] + rest, [c]) == head + [c] + Join(rest, [c])
  {
    assert ([head] + rest)[1..] == rest;
  }

  /** A text without the separator splits into itself alone. */
  lemma SplitWithout(s: string, c: char)
    requires c !in s
    ensures Split(s, c) == [s]
  {
  }

  /** The text after the first `c` (`s.split(c, 1)[1]`), when `c` occurs. */
  function AfterFirst(s: string, c: char): (r: Option<string>)
    ensures r.None? <==> c !in s
    ensures r.Some? ==> exists i :: 0 <= i < |s| && s[i] == c && c !in s[..i] && r.value == s[i + 1..]
  {
    match Find(s, c)
    case None => None
    case Some(i) => Some(s[i + 1..])
  }

  function DigitChar(d: nat): (c: char)
    requires d < 10
    ensures IsDigit(c)
  {
    ('0' as int + d) as char
  }

  /** `str(n)` for a natural number. */
  function NatToString(n: nat): (r: string)
    ensures |r| >= 1
    ensures forall k :: 0 <= k < |r| ==> IsDigit(r[k])
  {
    if n < 10 then [DigitChar(n)] else NatToString(n / 10) + [DigitChar(n % 10)]
  }

  /** Python's `x or default` applied to an optional string. */
  function OrElse(x: Option<string>, default: string): (r: string)
    ensures r == default || (x.Some? && r == x.value != "")
    ensures x.Some? && x.value != "" ==> r == x.value
  {
    if x.Some? && x.value != "" then x.value else default
  }

  /** Python's f-string rendering of an optional string: `None` prints as "None". */
  function Show(x: Option<string>): string {
    match x
    case Some(s) => s
    case None => "None"
  }

  /** Python truthiness of an optional string. */
  predicate Truthy(x: Option<string>) {
    x.Some? && x.value != ""
  }
}
