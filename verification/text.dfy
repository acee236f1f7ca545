/**
 * String primitives shared by every component: JavaScript's whitespace
 * class (`\s`, also the set `trim` removes), ASCII case mapping, prefix and
 * substring tests, trimming, whitespace tokenising, and `split`/`join` on
 * one separator character.
 *
 * Case mapping is ASCII only: the Unicode tables behind `toLowerCase`,
 * `toUpperCase` and `normalize("NFKD")` are not modelled.
 */
module Text {

  /** The characters matched by `\s` and removed by `String.prototype.trim`. */
  predicate IsSpace(c: char) {
    || c == ' ' || c == '\t' || c == '\n' || c == '\r'
    || c == '\U{B}' || c == '\U{C}' || c == '\U{A0}' || c == '\U{1680}'
    || ('\U{2000}' <= c <= '\U{200A}')
    || c == '\U{2028}' || c == '\U{2029}' || c == '\U{202F}' || c == '\U{205F}'
    || c == '\U{3000}' || c == '\U{FEFF}'
  }

  predicate NoSpace(s: string) {
    forall k :: 0 <= k < |s| ==> !IsSpace(s[k])
  }

  predicate Blank(s: string) {
    forall k :: 0 <= k < |s| ==> IsSpace(s[k])
  }

  predicate IsAsciiUpper(c: char) { 'A' <= c <= 'Z' }

  predicate IsAsciiLower(c: char) { 'a' <= c <= 'z' }

  predicate IsDigit(c: char) { '0' <= c <= '9' }

  /** `[a-z0-9]` */
  predicate IsLowerAlnum(c: char) { IsAsciiLower(c) || IsDigit(c) }

  function Lower(c: char): (r: char)
    ensures !IsAsciiUpper(r)
    ensures IsAsciiUpper(c) ==> IsAsciiLower(r)
    ensures !IsAsciiUpper(c) ==> r == c
  {
    if IsAsciiUpper(c) then (c as int + 32) as char else c
  }

  function Upper(c: char): (r: char)
    ensures !IsAsciiLower(r)
    ensures IsAsciiLower(c) ==> IsAsciiUpper(r) && Lower(r) == c
    ensures !IsAsciiLower(c) ==> r == c
  {
    if IsAsciiLower(c) then (c as int - 32) as char else c
  }

  /** `s.toLowerCase()`, restricted to ASCII letters. */
  function LowerStr(s: string): (r: string)
    ensures |r| == |s|
    ensures forall k :: 0 <= k < |s| ==> r[k] == Lower(s[k])
  {
    seq(|s|, k requires 0 <= k < |s| => Lower(s[k]))
  }

  lemma LowerStrIdempotent(s: string)
    ensures LowerStr(LowerStr(s)) == LowerStr(s)
  {
  }

  lemma LowerStrAppend(a: string, b: string)
    ensures LowerStr(a + b) == LowerStr(a) + LowerStr(b)
  {
  }

  /** `s.startsWith(p)` */
  predicate StartsWith(s: string, p: string) {
    p <= s
  }

  /** `sub` occurs in `s` starting at index `i`. */
  ghost predicate OccursAt(s: string, sub: string, i: int) {
    0 <= i && i + |sub| <= |s| && s[i..i + |sub|] == sub
  }

  /** `s.includes(sub)`, computed by trying every start position in turn. */
  function Contains(s: string, sub: string): bool
    decreases |s|
  {
    StartsWith(s, sub) || (|s| > 0 && Contains(s[1..], sub))
  }

  /** `Contains` agrees with the positional definition of a substring, both ways. */
  lemma {:induction false} ContainsIff(s: string, sub: string)
    ensures Contains(s, sub) <==> exists i :: OccursAt(s, sub, i)
    decreases |s|
  {
    if StartsWith(s, sub) {
      assert OccursAt(s, sub, 0);
    } else {
      assert !OccursAt(s, sub, 0);
      if |s| > 0 {
        ContainsIff(s[1..], sub);
        if Contains(s[1..], sub) {
          var i :| OccursAt(s[1..], sub, i);
          assert s[1..][i..i + |sub|] == s[i + 1..i + 1 + |sub|];
          assert OccursAt(s, sub, i + 1);
        } else {
          forall i | 1 <= i && i + |sub| <= |s|
            ensures !OccursAt(s, sub, i)
          {
            assert s[1..][i - 1..i - 1 + |sub|] == s[i..i + |sub|];
            assert !OccursAt(s[1..], sub, i - 1);
          }
        }
      }
    }
  }

  /** Every string contains itself, and a prefix is contained. */
  lemma PrefixIsContained(s: string, p: string)
    requires StartsWith(s, p)
    ensures Contains(s, p)
  {
  }

  /** Number of leading whitespace characters. */
  function LeadingSpaces(s: string): (n: nat)
    ensures n <= |s|
    ensures forall k :: 0 <= k < n ==> IsSpace(s[k])
    ensures n < |s| ==> !IsSpace(s[n])
    decreases |s|
  {
    if |s| == 0 || !IsSpace(s[0]) then 0 else 1 + LeadingSpaces(s[1..])
  }

  /** Number of leading non-whitespace characters. */
  function LeadingWord(s: string): (n: nat)
    ensures n <= |s|
    ensures forall k :: 0 <= k < n ==> !IsSpace(s[k])
    ensures n < |s| ==> IsSpace(s[n])
    decreases |s|
  {
    if |s| == 0 || IsSpace(s[0]) then 0 else 1 + LeadingWord(s[1..])
  }

  /** Number of trailing whitespace characters. */
  function TrailingSpaces(s: string): (n: nat)
    ensures n <= |s|
    ensures forall k :: |s| - n <= k < |s| ==> IsSpace(s[k])
    ensures n < |s| ==> !IsSpace(s[|s| - n - 1])
    decreases |s|
  {
    if |s| == 0 || !IsSpace(s[|s| - 1]) then 0 else 1 + TrailingSpaces(s[..|s| - 1])
  }

  /** `s.trim()` */
  function Trim(s: string): (r: string)
    ensures r == "" <==> Blank(s)
    ensures r != "" ==> !IsSpace(r[0]) && !IsSpace(r[|r| - 1])
    ensures |r| <= |s|
    ensures forall k :: 0 <= k < |r| ==> r[k] in s
    ensures LeadingSpaces(s) + |r| <= |s| && r == s[LeadingSpaces(s)..LeadingSpaces(s) + |r|]
    ensures forall k :: LeadingSpaces(s) + |r| <= k < |s| ==> IsSpace(s[k])
  {
    var a := LeadingSpaces(s);
    if a == |s| then ""
    else
      var t := s[a..];
      t[..|t| - TrailingSpaces(t)]
  }

  /** A string with no whitespace at either end is its own trim. */
  lemma TrimOfTrimmed(s: string)
    requires s == "" || (!IsSpace(s[0]) && !IsSpace(s[|s| - 1]))
    ensures Trim(s) == s
  {
  }

  lemma TrimIdempotent(s: string)
    ensures Trim(Trim(s)) == Trim(s)
  {
    TrimOfTrimmed(Trim(s));
  }

  /**
   * `s.split(/\s+/).filter(Boolean)`: the maximal runs of non-whitespace
   * characters, in order.
   */
  function Tokens(s: string): (r: seq<string>)
    ensures Words(r)
    ensures r == [] <==> Blank(s)
    decreases |s|
  {
    var a := LeadingSpaces(s);
    if a == |s| then []
    else
      var rest := s[a..];
      var w := LeadingWord(rest);
      var word := rest[..w];
      var tail := Tokens(rest[w..]);
      WordsCons(word, tail);
      [word] + tail
  }

  /** A non-empty string without whitespace is a single token. */
  lemma TokensOfWord(s: string)
    requires s != "" && NoSpace(s)
    ensures Tokens(s) == [s]
  {
    assert LeadingSpaces(s) == 0;
    assert LeadingWord(s) == |s|;
    assert s[0..] == s;
    assert s[0..][..|s|] == s;
    assert s[0..][|s|..] == "";
    assert Tokens("") == [];
  }

  lemma TokensSkipSpace(c: char, s: string)
    requires IsSpace(c)
    ensures Tokens([c] + s) == Tokens(s)
  {
    var t := [c] + s;
    assert t[1..] == s;
    var a := LeadingSpaces(s);
    assert LeadingSpaces(t) == 1 + a;
    if a < |s| {
      assert t[a + 1..] == s[a..];
      var rest := s[a..];
      var w := LeadingWord(rest);
      assert Tokens(t) == [rest[..w]] + Tokens(rest[w..]);
      assert Tokens(s) == [rest[..w]] + Tokens(rest[w..]);
    }
  }

  lemma TokensWordFirst(w: string, s: string)
    requires w != "" && NoSpace(w)
    requires s == "" || IsSpace(s[0])
    ensures Tokens(w + s) == [w] + Tokens(s)
  {
    var t := w + s;
    assert LeadingSpaces(t) == 0 by { assert t[0] == w[0]; }
    assert t[0..] == t;
    LeadingWordOf(w, s);
    assert t[..|w|] == w && t[|w|..] == s;
  }

  lemma {:induction false} LeadingWordOf(w: string, s: string)
    requires NoSpace(w)
    requires s == "" || IsSpace(s[0])
    ensures LeadingWord(w + s) == |w|
    decreases |w|
  {
    if |w| > 0 {
      assert (w + s)[1..] == w[1..] + s;
      LeadingWordOf(w[1..], s);
    } else {
      assert w + s == s;
    }
  }

  /** Non-empty words without white space: what `Tokens` returns. */
  predicate Words(ws: seq<string>) {
    forall i :: 0 <= i < |ws| ==> ws[i] != "" && NoSpace(ws[i])
  }

  lemma WordsCons(w: string, ws: seq<string>)
    requires w != "" && NoSpace(w) && Words(ws)
    ensures Words([w] + ws)
  {
    assert forall i :: 1 <= i < |[w] + ws| ==> ([w] + ws)[i] == ws[i - 1];
  }

  lemma TokensAfterWord(w: string, s: string, rest: string)
    requires w != "" && NoSpace(w) && s == w + " " + rest
    ensures Tokens(s) == [w] + Tokens(rest)
  {
    assert s == w + ([' '] + rest);
    TokensWordFirst(w, [' '] + rest);
    TokensSkipSpace(' ', rest);
  }

  /** Splitting words joined by single spaces gives the words back. */
  lemma {:induction false} TokensOfJoin(ws: seq<string>)
    requires |ws| >= 1 && Words(ws)
    ensures Tokens(Join(ws, ' ')) == ws
    decreases |ws|
  {
    if |ws| == 1 {
      TokensOfWord(ws[0]);
    } else {
      var rest := Join(ws[1..], ' ');
      assert Words(ws[1..]) by {
        forall i | 0 <= i < |ws[1..]| ensures ws[1..][i] != "" && NoSpace(ws[1..][i]) { assert ws[1..][i] == ws[i + 1]; }
      }
      TokensOfJoin(ws[1..]);
      assert Join(ws, ' ') == ws[0] + " " + rest;
      TokensAfterWord(ws[0], Join(ws, ' '), rest);
      assert ws == [ws[0]] + ws[1..];
    }
  }

  /** `s.split(c)` for a one-character separator: empty pieces are kept. */
  function Split(s: string, c: char): (r: seq<string>)
    ensures |r| >= 1
    ensures forall i :: 0 <= i < |r| ==> c !in r[i]
    decreases |s|
  {
    if |s| == 0 then [""]
    else
      var rest := Split(s[1..], c);
      if s[0] == c then [""] + rest
      else [[s[0]] + rest[0]] + rest[1..]
  }

  /** `parts.join(c)` */
  function Join(parts: seq<string>, c: char): string
    decreases |parts|
  {
    if |parts| == 0 then ""
    else if |parts| == 1 then parts[0]
    else parts[0] + [c] + Join(parts[1..], c)
  }

  /** Joining the pieces of a split gives back the original string. */
  lemma {:induction false} JoinSplit(s: string, c: char)
    ensures Join(Split(s, c), c) == s
    decreases |s|
  {
    if |s| > 0 {
      JoinSplit(s[1..], c);
      var rest := Split(s[1..], c);
      if s[0] == c {
        assert Split(s, c) == [""] + rest;
        assert ([""] + rest)[1..] == rest;
      } else {
        var r := Split(s, c);
        assert r == [[s[0]] + rest[0]] + rest[1..];
        if |rest| == 1 {
          assert Join(r, c) == [s[0]] + rest[0];
        } else {
          assert r[1..] == rest[1..];
          assert Join(rest, c) == rest[0] + [c] + Join(rest[1..], c);
        }
        assert s == [s[0]] + s[1..];
      }
    }
  }

  /** Splitting a join of separator-free pieces gives back the pieces. */
  lemma {:induction false} SplitJoin(parts: seq<string>, c: char)
    requires |parts| >= 1
    requires forall i :: 0 <= i < |parts| ==> c !in parts[i]
    ensures Split(Join(parts, c), c) == parts
    decreases |parts|, |parts[0]|
  {
    var p := parts[0];
    if |p| > 0 {
      var parts' := [p[1..]] + parts[1..];
      assert forall i :: 0 <= i < |parts'| ==> c !in parts'[i] by {
        forall i | 0 <= i < |parts'| ensures c !in parts'[i] {
          if i == 0 { assert forall x :: x in p[1..] ==> x in p; } else { assert parts'[i] == parts[i]; }
        }
      }
      SplitJoin(parts', c);
      assert parts'[1..] == parts[1..];
      var j := Join(parts, c);
      if |parts| == 1 {
        assert j == p;
        assert Join(parts', c) == p[1..];
      } else {
        assert j == p + [c] + Join(parts[1..], c);
        assert Join(parts', c) == p[1..] + [c] + Join(parts[1..], c);
      }
      assert j[0] == p[0] && j[1..] == Join(parts', c);
      assert p[0] != c by { assert p[0] in p; }
      assert [p[0]] + p[1..] == p;
      assert parts == [p] + parts[1..];
    } else if |parts| > 1 {
      SplitJoin(parts[1..], c);
      var j := Join(parts, c);
      assert j == [c] + Join(parts[1..], c);
      assert j[1..] == Join(parts[1..], c);
      assert parts == [""] + parts[1..];
    }
  }

  /** `s` with one leading occurrence of `p` removed, if present. */
  function StripPrefix(s: string, p: string): (r: string)
    ensures StartsWith(s, p) ==> p + r == s
    ensures !StartsWith(s, p) ==> r == s
  {
    if StartsWith(s, p) then s[|p|..] else s
  }
}
