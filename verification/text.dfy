/** String helpers with the meaning the pages rely on: `toLowerCase` (ASCII only),
    `String.prototype.includes` and `String.prototype.trim`. */
module Text {

  /** ASCII lower-casing of one character; every other character is left alone. */
  function LowerChar(c: char): char {
    if 'A' <= c <= 'Z' then (c as int - 'A' as int + 'a' as int) as char else c
  }

  /** `s.toLowerCase()`, restricted to the ASCII letters. */
  function ToLower(s: string): (r: string)
    ensures |r| == |s|
    ensures forall i :: 0 <= i < |s| ==> r[i] == LowerChar(s[i])
  {
    if s == [] then [] else [LowerChar(s[0])] + ToLower(s[1..])
  }

  lemma ToLowerIdempotent(s: string)
    ensures ToLower(ToLower(s)) == ToLower(s)
  {
    var once := ToLower(s);
    var twice := ToLower(once);
    forall i | 0 <= i < |s| ensures twice[i] == once[i] {
    }
  }

  /** `pattern` occurs in `text` starting at index `i`. */
  ghost predicate OccursAt(text: string, pattern: string, i: int) {
    0 <= i && i + |pattern| <= |text| && text[i..i + |pattern|] == pattern
  }

  /** `text.includes(pattern)`: a left-to-right scan for a prefix match. */
  function Includes(text: string, pattern: string): (b: bool)
    ensures pattern <= text ==> b
    ensures b ==> |pattern| <= |text|
    decreases |text|
  {
    if pattern <= text then true
    else if text == [] then false
    else Includes(text[1..], pattern)
  }

  /** The scan agrees with the definition of a substring occurrence. */
  lemma {:induction false} IncludesIffOccurs(text: string, pattern: string)
    ensures Includes(text, pattern) <==> exists i :: OccursAt(text, pattern, i)
    decreases |text|
  {
    if pattern <= text {
      assert OccursAt(text, pattern, 0);
    } else if text != [] {
      IncludesIffOccurs(text[1..], pattern);
      forall i | OccursAt(text[1..], pattern, i) ensures OccursAt(text, pattern, i + 1) {
        assert text[1..][i..i + |pattern|] == text[i + 1..i + 1 + |pattern|];
      }
      assert |pattern| > |text| || text[0..|pattern|] == text[..|pattern|];
      forall i | OccursAt(text, pattern, i) && i > 0 ensures OccursAt(text[1..], pattern, i - 1) {
        assert text[1..][i - 1..i - 1 + |pattern|] == text[i..i + |pattern|];
      }
    }
  }

  /** Every string includes the empty string. */
  lemma IncludesEmpty(text: string)
    ensures Includes(text, "")
  {
  }

  /** The characters `String.prototype.trim` removes: the ECMAScript WhiteSpace and
      LineTerminator code points. */
  predicate IsSpace(c: char) {
    var n := c as int;
    n == 0x20 || 0x09 <= n <= 0x0D || n == 0xA0 || n == 0x1680 || 0x2000 <= n <= 0x200A
    || n == 0x2028 || n == 0x2029 || n == 0x202F || n == 0x205F || n == 0x3000 || n == 0xFEFF
  }

  ghost predicate AllSpace(s: string) {
    forall i :: 0 <= i < |s| ==> IsSpace(s[i])
  }

  /** How many white-space characters `s` starts with. */
  function LeadingSpaces(s: string): (n: nat)
    ensures n <= |s|
    ensures forall i :: 0 <= i < n ==> IsSpace(s[i])
    ensures n < |s| ==> !IsSpace(s[n])
  {
    if s != [] && IsSpace(s[0]) then 1 + LeadingSpaces(s[1..]) else 0
  }

  /** How many white-space characters `s` ends with. */
  function TrailingSpaces(s: string): (n: nat)
    ensures n <= |s|
    ensures forall i :: |s| - n <= i < |s| ==> IsSpace(s[i])
    ensures n < |s| ==> !IsSpace(s[|s| - n - 1])
  {
    if s != [] && IsSpace(s[|s| - 1]) then 1 + TrailingSpaces(s[..|s| - 1]) else 0
  }

  /** `r` sits in `s` at index `k` with nothing but white space before and after it. */
  ghost predicate TrimmedAt(s: string, r: string, k: int) {
    OccursAt(s, r, k) && AllSpace(s[..k]) && AllSpace(s[k + |r|..])
  }

  /** `s.trim()`: the leading and the trailing white space removed. The result is the
      piece of `s` left after dropping white space at both ends, it neither starts nor
      ends with white space, and it is empty exactly when `s` is all white space. */
  function Trim(s: string): (r: string)
    ensures exists k :: TrimmedAt(s, r, k)
    ensures r != [] ==> !IsSpace(r[0]) && !IsSpace(r[|r| - 1])
    ensures r == [] <==> AllSpace(s)
  {
    var lead := LeadingSpaces(s);
    if lead == |s| then
      assert TrimmedAt(s, [], 0);
      []
    else
      var trail := TrailingSpaces(s);
      assert |s| - trail > lead;
      var r := s[lead..|s| - trail];
      assert TrimmedAt(s, r, lead);
      r
  }

  /** Trimming twice is the same as trimming once. */
  lemma TrimIdempotent(s: string)
    ensures Trim(Trim(s)) == Trim(s)
  {
    var t := Trim(s);
    if t != [] {
      assert LeadingSpaces(t) == 0;
      assert TrailingSpaces(t) == 0;
      assert t[0..|t|] == t;
    }
  }
}
