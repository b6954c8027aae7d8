/**
 * The string tests the configuration and routing code relies on, as Python
 * defines them: `s.startswith(p)`, `sub in s`, `s.lower()` (restricted to
 * ASCII letters) and `s.split(sep, 1)` for a one-character separator.
 */
module Strings {
  import opened Wrappers

  /** Python truthiness of an optional string: `None` and `""` are the only false values. */
  function Truthy(v: Option<string>): (b: bool)
    ensures !b <==> v == None || v == Some("")
  {
    v.Some? && v.value != ""
  }

  /** `sub` occurs in `s` starting at index `i`. */
  predicate OccursAt(s: string, sub: string, i: int) {
    0 <= i && i + |sub| <= |s| && s[i..i + |sub|] == sub
  }

  /** `s.startswith(prefix)`: `s` is `prefix` followed by the rest of `s`. */
  function StartsWith(s: string, prefix: string): (b: bool)
    ensures b <==> OccursAt(s, prefix, 0)
    ensures b ==> s == prefix + s[|prefix|..]
  {
    |prefix| <= |s| && s[..|prefix|] == prefix
  }

  /** Reference meaning of `sub in s`: some position where `sub` occurs. */
  ghost predicate HasSubstring(s: string, sub: string) {
    exists i :: OccursAt(s, sub, i)
  }

  /** When `sub` does not start `s`, it occurs in `s` exactly when it occurs in `s` without its first character. */
  lemma SubstringPastFirst(s: string, sub: string)
    requires |sub| <= |s| && s[..|sub|] != sub
    ensures HasSubstring(s, sub) <==> HasSubstring(s[1..], sub)
  {
    if HasSubstring(s[1..], sub) {
      var i :| OccursAt(s[1..], sub, i);
      ghost var inTail, inWhole := s[1..][i..i + |sub|], s[i + 1..i + 1 + |sub|];
      assert forall k :: 0 <= k < |sub| ==> inTail[k] == inWhole[k];
      assert OccursAt(s, sub, i + 1);
    }
    if HasSubstring(s, sub) {
      var i :| OccursAt(s, sub, i);
      assert i != 0;
      assert s[1..][i - 1..i - 1 + |sub|] == s[i..i + |sub|];
      assert OccursAt(s[1..], sub, i - 1);
    }
  }

  /** `sub in s`, computed by scanning `s` from the left; true exactly when `sub` occurs somewhere in `s`. */
  function Contains(s: string, sub: string): (b: bool)
    ensures b <==> HasSubstring(s, sub)
    decreases |s|
  {
    if |sub| > |s| then
      assert forall i :: !OccursAt(s, sub, i);
      false
    else if s[..|sub|] == sub then
      assert OccursAt(s, sub, 0);
      true
    else
      SubstringPastFirst(s, sub);
      Contains(s[1..], sub)
  }

  /** Python's lower-casing of one character, restricted to ASCII: only 'A'..'Z' change. */
  function LowerChar(c: char): char {
    if 'A' <= c <= 'Z' then (c as int + 32) as char else c
  }

  /** `s.lower()` on ASCII text: every character lower-cased, nothing added or dropped. */
  function Lower(s: string): (r: string)
    ensures |r| == |s|
    ensures forall i :: 0 <= i < |s| ==> r[i] == LowerChar(s[i])
  {
    if s == [] then [] else [LowerChar(s[0])] + Lower(s[1..])
  }

  /** The only characters that lower-case to an ASCII lower-case letter `c` are `c` itself and its upper-case form. */
  lemma LowerCharTo(c: char, lower: char)
    requires 'a' <= lower <= 'z'
    ensures LowerChar(c) == lower <==> (c == lower || c as int == lower as int - 32)
  {
  }

  /** `s[i..i+3]` spells "gpt" with any mix of upper- and lower-case letters. */
  predicate GptAt(s: string, i: int) {
    0 <= i && i + 3 <= |s|
    && (s[i] == 'g' || s[i] == 'G')
    && (s[i + 1] == 'p' || s[i + 1] == 'P')
    && (s[i + 2] == 't' || s[i + 2] == 'T')
  }

  /** Reference meaning of a case-insensitive "gpt" test. */
  ghost predicate MentionsGpt(s: string) {
    exists i :: GptAt(s, i)
  }

  /** `"gpt" in s.lower()` holds exactly when "gpt" occurs in `s` in some mix of cases. */
  lemma {:induction false} GptInLowerIffMentionsGpt(s: string)
    ensures Contains(Lower(s), "gpt") <==> MentionsGpt(s)
  {
    var l := Lower(s);
    forall i | 0 <= i && i + 3 <= |s|
      ensures OccursAt(l, "gpt", i) <==> GptAt(s, i)
    {
      LowerCharTo(s[i], 'g');
      LowerCharTo(s[i + 1], 'p');
      LowerCharTo(s[i + 2], 't');
      assert l[i..i + 3] == [l[i], l[i + 1], l[i + 2]];
    }
    if HasSubstring(l, "gpt") {
      var i :| OccursAt(l, "gpt", i);
      assert GptAt(s, i);
    }
    if MentionsGpt(s) {
      var i :| GptAt(s, i);
      assert OccursAt(l, "gpt", i);
    }
  }

  /**
   * `s.split([sep], 1)`: one part when `sep` does not occur, otherwise the text
   * before the first `sep` and everything after it.
   */
  function SplitOnce(s: string, sep: char): (parts: seq<string>)
    ensures |parts| == 1 || |parts| == 2
    ensures |parts| == 1 <==> sep !in s
    ensures |parts| == 1 ==> parts[0] == s
    ensures |parts| == 2 ==> sep !in parts[0] && parts[0] + [sep] + parts[1] == s
  {
    if s == [] then [s]
    else if s[0] == sep then [[], s[1..]]
    else
      var rest := SplitOnce(s[1..], sep);
      if |rest| == 1 then [s]
      else [[s[0]] + rest[0], rest[1]]
  }

  /** When `head` has no `sep` and `s` starts with `head` followed by `sep`, the split is at that `sep`. */
  lemma {:induction false} SplitOnceAfter(s: string, head: string, sep: char)
    requires sep !in head
    requires StartsWith(s, head + [sep])
    ensures SplitOnce(s, sep) == [head, s[|head| + 1..]]
    decreases |head|
  {
    if head == [] {
      assert s[0] == sep;
    } else {
      assert s[0] == head[0];
      assert s[1..][..|head|] == head[1..] + [sep];
      SplitOnceAfter(s[1..], head[1..], sep);
      assert [s[0]] + head[1..] == head;
    }
  }
}
