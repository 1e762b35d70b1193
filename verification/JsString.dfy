/**
 * The few JavaScript string built-ins the chat page relies on:
 * `toLowerCase` (ASCII letters only), `trim`, `includes` and `Array.prototype.join`.
 */
module JsString {

  /** Lower-cases an ASCII capital letter; every other character is left alone. */
  function LowerChar(c: char): char
  {
    if 'A' <= c <= 'Z' then (c as int - 'A' as int + 'a' as int) as char else c
  }

  /** `s.toLowerCase()` restricted to ASCII, character by character: the
      result has the same length, holds no ASCII capital letter, maps each
      capital to the letter 32 code points above it and keeps every other
      character. */
  function Lower(s: string): (r: string)
    ensures |r| == |s|
    ensures forall i :: 0 <= i < |r| ==> !('A' <= r[i] <= 'Z')
    ensures forall i :: 0 <= i < |s| && 'A' <= s[i] <= 'Z' ==> r[i] as int == s[i] as int + 32
    ensures forall i :: 0 <= i < |s| && !('A' <= s[i] <= 'Z') ==> r[i] == s[i]
  {
    seq(|s|, i requires 0 <= i < |s| => LowerChar(s[i]))
  }

  /** Lower-casing twice is lower-casing once. */
  lemma {:induction false} LowerIdempotent(s: string)
    ensures Lower(Lower(s)) == Lower(s)
  {
    var once := Lower(s);
    var twice := Lower(once);
    assert |twice| == |once|;
    forall i | 0 <= i < |once|
      ensures twice[i] == once[i]
    {
      assert !('A' <= once[i] <= 'Z');
    }
  }

  /** The code points that ECMAScript's `String.prototype.trim` removes: the
      WhiteSpace set (TAB, VT, FF, SPACE, NBSP, ZWNBSP and the other Zs
      separators) together with the LineTerminator set (LF, CR, LS, PS). */
  predicate IsWhitespace(c: char)
  {
    || c == '\t' || c == '\n' || c == '\U{B}' || c == '\U{C}' || c == '\r'
    || c == ' ' || c == '\U{A0}' || c == '\U{1680}'
    || ('\U{2000}' <= c <= '\U{200A}')
    || c == '\U{2028}' || c == '\U{2029}' || c == '\U{202F}' || c == '\U{205F}'
    || c == '\U{3000}' || c == '\U{FEFF}'
  }

  predicate AllWhitespace(s: string)
  {
    forall i :: 0 <= i < |s| ==> IsWhitespace(s[i])
  }

  /** Neither end of `s` is a whitespace character. */
  predicate IsTrimmed(s: string)
  {
    s == [] || (!IsWhitespace(s[0]) && !IsWhitespace(s[|s| - 1]))
  }

  /** The number of whitespace characters `s` starts with. */
  function LeadingWhitespace(s: string): (n: nat)
    ensures n <= |s|
    ensures forall i :: 0 <= i < n ==> IsWhitespace(s[i])
    ensures n < |s| ==> !IsWhitespace(s[n])
  {
    if s != [] && IsWhitespace(s[0]) then 1 + LeadingWhitespace(s[1..]) else 0
  }

  /** The length of `s` without the whitespace it ends with. */
  function TrailingStart(s: string): (n: nat)
    ensures n <= |s|
    ensures forall i :: n <= i < |s| ==> IsWhitespace(s[i])
    ensures 0 < n ==> !IsWhitespace(s[n - 1])
  {
    if s != [] && IsWhitespace(s[|s| - 1]) then TrailingStart(s[..|s| - 1]) else |s|
  }

  /** `s.trim()`: `s` is the result wrapped in whitespace on both sides, the
      result has no whitespace at either end, and it is empty exactly when `s`
      is all whitespace. */
  function Trim(s: string): (r: string)
    ensures IsTrimmed(r)
    ensures exists k ::
      (0 <= k <= |s| - |r| && s[k..k + |r|] == r && AllWhitespace(s[..k]) && AllWhitespace(s[k + |r|..]))
    ensures r == [] <==> AllWhitespace(s)
  {
    var start, end := LeadingWhitespace(s), TrailingStart(s);
    if start == |s| then
      assert s[..start] == s;
      []
    else
      assert start < end;
      var r := s[start..end];
      assert AllWhitespace(s[..start]);
      assert AllWhitespace(s[end..]);
      assert s[start..start + |r|] == r;
      r
  }

  /** Trimming an already trimmed string changes nothing; in particular `trim`
      is idempotent. */
  lemma TrimOfTrimmed(s: string)
    requires IsTrimmed(s)
    ensures Trim(s) == s
  {
  }

  lemma TrimIdempotent(s: string)
    ensures Trim(Trim(s)) == Trim(s)
  {
    TrimOfTrimmed(Trim(s));
  }

  /** `part` occurs in `s` starting at index `i`. */
  predicate OccursAt(s: string, part: string, i: int)
  {
    0 <= i && i + |part| <= |s| && s[i..i + |part|] == part
  }

  /** `s.includes(part)`: `part` occurs in `s` at some position. A part
      longer than `s` never occurs, the empty part always does, and every
      string includes itself. */
  predicate Includes(s: string, part: string): (b: bool)
    ensures b ==> |part| <= |s|
    ensures part == [] ==> b
    ensures s == part ==> b
  {
    assert OccursAt(s, [], 0);
    assert OccursAt(s, s, 0);
    exists i :: 0 <= i <= |s| - |part| && OccursAt(s, part, i)
  }

  /** Containment is transitive: whatever contains `mid` contains every part of `mid`. */
  lemma IncludesTransitive(s: string, mid: string, part: string)
    requires Includes(s, mid) && Includes(mid, part)
    ensures Includes(s, part)
  {
    var i :| 0 <= i <= |s| - |mid| && OccursAt(s, mid, i);
    var j :| 0 <= j <= |mid| - |part| && OccursAt(mid, part, j);
    forall n | 0 <= n < |part| ensures s[i + j + n] == part[n] {
      assert part[n] == mid[j + n] == s[i + j + n];
    }
    assert s[i + j..i + j + |part|] == part;
    assert OccursAt(s, part, i + j);
  }

  /** The summed lengths of `parts`. */
  function TotalLength(parts: seq<string>): nat
  {
    if parts == [] then 0 else |parts[0]| + TotalLength(parts[1..])
  }

  /** `parts.join(sep)`: empty for no parts, the part itself for one, and
      otherwise every part in order with one separator between neighbours,
      so its length is the parts' total plus one separator per gap. */
  function Join(parts: seq<string>, sep: string): (r: string)
    ensures parts == [] ==> r == ""
    ensures |parts| == 1 ==> r == parts[0]
    ensures |parts| > 0 ==> |r| == TotalLength(parts) + (|parts| - 1) * |sep|
    ensures |parts| > 0 ==> r[..|parts[0]|] == parts[0]
  {
    if |parts| == 0 then ""
    else if |parts| == 1 then parts[0]
    else parts[0] + sep + Join(parts[1..], sep)
  }

  /** Parts joined with a whitespace separator give an all-whitespace string
      exactly when every part is all whitespace. */
  lemma {:induction false} JoinAllWhitespace(parts: seq<string>, sep: string)
    requires AllWhitespace(sep)
    ensures AllWhitespace(Join(parts, sep)) <==> forall i :: 0 <= i < |parts| ==> AllWhitespace(parts[i])
  {
    if |parts| > 1 {
      var rest := Join(parts[1..], sep);
      JoinAllWhitespace(parts[1..], sep);
      var whole := parts[0] + sep + rest;
      if AllWhitespace(whole) {
        forall i | 0 <= i < |parts[0]| ensures IsWhitespace(parts[0][i]) {
          assert whole[i] == parts[0][i];
        }
        forall i | 0 <= i < |rest| ensures IsWhitespace(rest[i]) {
          assert whole[|parts[0]| + |sep| + i] == rest[i];
        }
        forall i | 0 <= i < |parts| ensures AllWhitespace(parts[i]) {
          if i > 0 { assert parts[i] == parts[1..][i - 1]; }
        }
      }
      if forall i :: 0 <= i < |parts| ==> AllWhitespace(parts[i]) {
        assert forall i :: 0 <= i < |parts[1..]| ==> AllWhitespace(parts[1..][i]) by {
          forall i | 0 <= i < |parts[1..]| ensures AllWhitespace(parts[1..][i]) {
            assert parts[1..][i] == parts[i + 1];
          }
        }
        assert AllWhitespace(parts[0]);
        forall i | 0 <= i < |whole| ensures IsWhitespace(whole[i]) {
          if i < |parts[0]| {
            assert whole[i] == parts[0][i];
          } else if i < |parts[0]| + |sep| {
            assert whole[i] == sep[i - |parts[0]|];
          } else {
            assert whole[i] == rest[i - |parts[0]| - |sep|];
          }
        }
      }
    }
  }
}
