/**
 * String operations the front end relies on, written out over `seq<char>`:
 * JavaScript truthiness of optional strings, `email.split("@")[0]`,
 * `split`/`join`, ASCII case mapping, `includes`, and decimal rendering
 * of integers (`n.toString()`).
 */
module Text {
  import opened Wrappers

  /** JavaScript truthiness of an optional string: present and not empty. */
  predicate Truthy(s: Option<string>) {
    s.Some? && s.value != ""
  }

  /** `s || fallback` for an optional string. */
  function OrElse(s: Option<string>, fallback: string): string {
    if Truthy(s) then s.value else fallback
  }

  /** `a || b || c` for optional strings: the first truthy one, else the last operand as it is. */
  function FirstTruthy(a: Option<string>, b: Option<string>, c: Option<string>): Option<string> {
    if Truthy(a) then a else if Truthy(b) then b else c
  }

  /** `email.split("@")[0]`: everything before the first '@', or the whole string if it has none. */
  function EmailPrefix(email: string): (r: string)
    ensures r <= email
    ensures '@' !in r
    ensures |r| < |email| ==> email[|r|] == '@'
    ensures '@' !in email ==> r == email
  {
    if email == [] then []
    else if email[0] == '@' then []
    else [email[0]] + EmailPrefix(email[1..])
  }

  /** The index of the first occurrence of `c` in `s`. */
  function FirstIndex(s: string, c: char): (k: nat)
    requires c in s
    ensures k < |s| && s[k] == c && c !in s[..k]
  {
    if s[0] == c then 0
    else
      assert c in s[1..];
      1 + FirstIndex(s[1..], c)
  }

  /** `parts.join(sep)`. */
  function Join(parts: seq<string>, sep: string): string {
    if parts == [] then ""
    else if |parts| == 1 then parts[0]
    else parts[0] + sep + Join(parts[1..], sep)
  }

  /** `s.split(sep)` for a one-character separator: the maximal pieces between separators. */
  function Split(s: string, sep: char): (parts: seq<string>)
    ensures |parts| >= 1
    ensures forall i | 0 <= i < |parts| :: sep !in parts[i]
    ensures Join(parts, [sep]) == s
    decreases |s|
  {
    if sep !in s then [s]
    else
      var k := FirstIndex(s, sep);
      var rest := Split(s[k + 1..], sep);
      assert s == s[..k] + [sep] + s[k + 1..];
      [s[..k]] + rest
  }

  /** Splitting what was joined gives back the pieces, when no piece contains the separator. */
  lemma {:induction false} SplitJoin(parts: seq<string>, sep: char)
    requires |parts| >= 1
    requires forall i | 0 <= i < |parts| :: sep !in parts[i]
    ensures Split(Join(parts, [sep]), sep) == parts
  {
    if |parts| == 1 {
    } else {
      var tail := Join(parts[1..], [sep]);
      var s := parts[0] + [sep] + tail;
      assert Join(parts, [sep]) == s;
      assert sep in s by { assert s[|parts[0]|] == sep; }
      var k := FirstIndex(s, sep);
      assert forall j | 0 <= j < |parts[0]| :: s[j] == parts[0][j];
      assert forall j | 0 <= j < k :: s[j] == s[..k][j];
      assert k == |parts[0]|;
      assert s[..k] == parts[0];
      assert s[k + 1..] == tail;
      SplitJoin(parts[1..], sep);
      assert Split(s, sep) == [parts[0]] + parts[1..];
    }
  }

  /** JavaScript's default whitespace for `trim`, restricted to ASCII. */
  predicate IsSpace(c: char) {
    c == ' ' || c == '\t' || c == '\n' || c == '\r' || c == '\U{000B}' || c == '\U{000C}'
  }

  /** `line.trim() === ""`. */
  predicate IsBlank(line: string) {
    forall i | 0 <= i < |line| :: IsSpace(line[i])
  }

  /** ASCII lower case of one character. */
  function LowerChar(c: char): char {
    if 'A' <= c <= 'Z' then (c as int + 32) as char else c
  }

  /** ASCII upper case of one character. */
  function UpperChar(c: char): char {
    if 'a' <= c <= 'z' then (c as int - 32) as char else c
  }

  /** `s.toLowerCase()`, for ASCII letters. */
  function Lower(s: string): (r: string)
    ensures |r| == |s|
    ensures forall i | 0 <= i < |s| :: r[i] == LowerChar(s[i])
  {
    seq(|s|, i requires 0 <= i < |s| => LowerChar(s[i]))
  }

  /** `needle` occurs in `hay` starting at position `i`. */
  predicate OccursAt(hay: string, needle: string, i: int) {
    0 <= i <= |hay| - |needle| && hay[i..i + |needle|] == needle
  }

  /** `hay.includes(needle)`, by scanning from the left. */
  function Contains(hay: string, needle: string): (r: bool)
    ensures r <==> exists i :: OccursAt(hay, needle, i)
  {
    if needle <= hay then
      assert OccursAt(hay, needle, 0);
      true
    else if hay == [] then false
    else
      var r := Contains(hay[1..], needle);
      assert forall i :: OccursAt(hay[1..], needle, i) <==> OccursAt(hay, needle, i + 1);
      assert forall i :: OccursAt(hay, needle, i) ==> i == 0 || OccursAt(hay[1..], needle, i - 1);
      assert !OccursAt(hay, needle, 0);
      r
  }

  /** `i` is the leftmost index at which `needle` occurs in `hay`. */
  predicate FirstOccurrence(hay: string, needle: string, i: int) {
    OccursAt(hay, needle, i) && forall j | 0 <= j < i :: !OccursAt(hay, needle, j)
  }

  /** A first occurrence in the tail of a string that does not start with the pattern is one further on in the string. */
  lemma FirstOccurrenceShifts(s: string, pat: string, rep: string, rest: string, i: int)
    requires s != [] && !OccursAt(s, pat, 0)
    requires FirstOccurrence(s[1..], pat, i) && rest == s[1..][..i] + rep + s[1..][i + |pat|..]
    ensures FirstOccurrence(s, pat, i + 1) && [s[0]] + rest == s[..i + 1] + rep + s[i + 1 + |pat|..]
  {
    var t := s[1..];
    assert s == [s[0]] + t;
    assert s[i + 1..i + 1 + |pat|] == t[i..i + |pat|];
    forall j | 0 < j < i + 1
      ensures !OccursAt(s, pat, j)
    {
      assert !OccursAt(t, pat, j - 1);
      if j + |pat| <= |s| {
        assert s[j..j + |pat|] == t[j - 1..j - 1 + |pat|];
      }
    }
    assert s[..i + 1] == [s[0]] + t[..i] by {
      assert |s[..i + 1]| == |[s[0]] + t[..i]|;
      forall k | 0 <= k <= i
        ensures s[..i + 1][k] == ([s[0]] + t[..i])[k]
      {
        if k > 0 {
          assert s[k] == t[k - 1];
        }
      }
    }
    assert s[i + 1 + |pat|..] == t[i + |pat|..];
  }

  /** `s.replace(pat, rep)` with a string pattern: only the first occurrence is replaced. */
  function ReplaceFirst(s: string, pat: string, rep: string): (r: string)
    requires pat != []
    ensures pat <= s ==> r == rep + s[|pat|..]
    ensures !Contains(s, pat) ==> r == s
    ensures Contains(s, pat) ==>
      exists i :: FirstOccurrence(s, pat, i) && r == s[..i] + rep + s[i + |pat|..]
  {
    if pat <= s then
      assert FirstOccurrence(s, pat, 0) && s[..0] + rep + s[|pat|..] == rep + s[|pat|..];
      rep + s[|pat|..]
    else if s == [] then []
    else
      assert forall i :: OccursAt(s[1..], pat, i) <==> OccursAt(s, pat, i + 1);
      assert !OccursAt(s, pat, 0);
      var rest := ReplaceFirst(s[1..], pat, rep);
      assert Contains(s[1..], pat) ==>
        exists i :: FirstOccurrence(s, pat, i) && [s[0]] + rest == s[..i] + rep + s[i + |pat|..]
      by {
        if Contains(s[1..], pat) {
          var i :| FirstOccurrence(s[1..], pat, i) && rest == s[1..][..i] + rep + s[1..][i + |pat|..];
          FirstOccurrenceShifts(s, pat, rep, rest, i);
        }
      }
      [s[0]] + rest
  }

  /** The character of a decimal digit. */
  function DigitChar(d: nat): char
    requires d < 10
  {
    "0123456789"[d]
  }

  predicate IsDigit(c: char) {
    '0' <= c <= '9'
  }

  /** The number a string of decimal digits denotes. */
  function DigitsValue(s: string): nat
    requires forall i | 0 <= i < |s| :: IsDigit(s[i])
  {
    if s == [] then 0
    else
      assert IsDigit(s[|s| - 1]);
      DigitsValue(s[..|s| - 1]) * 10 + (s[|s| - 1] as int - '0' as int)
  }

  /** `n.toString()` for a natural number: its shortest decimal digits. */
  function NatToString(n: nat): (r: string)
    ensures r != []
    ensures forall i | 0 <= i < |r| :: IsDigit(r[i])
    ensures DigitsValue(r) == n
    ensures |r| > 1 ==> r[0] != '0'
  {
    if n < 10 then [DigitChar(n)]
    else
      var front := NatToString(n / 10);
      var r := front + [DigitChar(n % 10)];
      assert r[..|r| - 1] == front;
      r
  }

  /** `n.toString()` for an integer: a '-' before the digits of a negative number. */
  function IntToString(n: int): string {
    if n < 0 then "-" + NatToString(-n) else NatToString(n)
  }

  /** Different integers render differently, so a rendered number identifies its value. */
  lemma IntToStringInjective(m: int, n: int)
    requires IntToString(m) == IntToString(n)
    ensures m == n
  {
    assert IsDigit(NatToString(if m < 0 then -m else m)[0]);
    assert IsDigit(NatToString(if n < 0 then -n else n)[0]);
    assert (IntToString(m)[0] == '-') <==> m < 0;
    assert (IntToString(n)[0] == '-') <==> n < 0;
    if m < 0 {
      assert NatToString(-m) == IntToString(m)[1..];
      assert NatToString(-n) == IntToString(n)[1..];
    }
  }
}
