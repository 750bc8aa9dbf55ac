/** The string operations target names go through: trimming, lower-casing, and SQLite's ASCII-only folding. */
module Text {

  datatype Option<+T> = None | Some(value: T)

  // The lower-case mapping of the non-ASCII runes is any table at all: nothing below depends on its entries.
  const UNICODE_LOWER: char -> char

  predicate IsSpace(c: char) {
    || c == ' ' || '\U{9}' <= c <= '\U{d}' || c == '\U{85}' || c == '\U{a0}' || c == '\U{1680}'
    || '\U{2000}' <= c <= '\U{200a}' || c == '\U{2028}' || c == '\U{2029}' || c == '\U{202f}'
    || c == '\U{205f}' || c == '\U{3000}'
  }

  // What Go takes for white space, by code point.
  lemma WhiteSpaceIs(c: char)
    ensures IsSpace(c) <==>
      c as int in {9, 10, 11, 12, 13, 32, 133, 160, 5760, 8192, 8193, 8194, 8195, 8196, 8197, 8198, 8199, 8200, 8201,
                   8202, 8232, 8233, 8239, 8287, 12288}
  {
  }

  function TrimLeft(s: string): string {
    if s != "" && IsSpace(s[0]) then TrimLeft(s[1..]) else s
  }

  function TrimRight(s: string): string {
    if s != "" && IsSpace(s[|s| - 1]) then TrimRight(s[..|s| - 1]) else s
  }

  // strings.TrimSpace
  function TrimSpace(s: string): string {
    TrimRight(TrimLeft(s))
  }

  // strings.TrimRight(s, "/")
  function TrimSlashes(s: string): string {
    if s != "" && s[|s| - 1] == '/' then TrimSlashes(s[..|s| - 1]) else s
  }

  // One letter of SQLite's NOCASE collation: only the 26 ASCII letters fold.
  function FoldAscii(c: char): char {
    if 'A' <= c <= 'Z' then (c as int + 32) as char else c
  }

  // One rune of strings.ToLower.
  function LowerRune(c: char): char {
    if (c as int) < 128 then FoldAscii(c) else UNICODE_LOWER(c)
  }

  function ToLower(s: string): string {
    seq(|s|, i requires 0 <= i < |s| => LowerRune(s[i]))
  }

  function NoCase(s: string): string {
    seq(|s|, i requires 0 <= i < |s| => FoldAscii(s[i]))
  }

  // normalizeName in the manager: the key a target is filed under.
  function Normalize(s: string): string {
    ToLower(TrimSpace(s))
  }

  lemma {:induction false} TrimLeftStarts(s: string)
    ensures TrimLeft(s) == "" || !IsSpace(TrimLeft(s)[0])
  {
    if s != "" && IsSpace(s[0]) { TrimLeftStarts(s[1..]); }
  }

  lemma {:induction false} TrimRightEnds(s: string)
    ensures TrimRight(s) == "" || !IsSpace(TrimRight(s)[|TrimRight(s)| - 1])
    ensures TrimRight(s) <= s
  {
    if s != "" && IsSpace(s[|s| - 1]) { TrimRightEnds(s[..|s| - 1]); }
  }

  lemma {:induction false} TrimLeftCuts(s: string) returns (i: nat)
    ensures i <= |s| && TrimLeft(s) == s[i..] && forall n :: 0 <= n < i ==> IsSpace(s[n])
  {
    i := 0;
    if s != "" && IsSpace(s[0]) {
      var j := TrimLeftCuts(s[1..]);
      i := j + 1;
      assert forall n :: 1 <= n < i ==> s[n] == s[1..][n - 1];
    }
  }

  lemma {:induction false} TrimRightCuts(s: string) returns (j: nat)
    ensures j <= |s| && TrimRight(s) == s[..j] && forall n :: j <= n < |s| ==> IsSpace(s[n])
  {
    j := |s|;
    if s != "" && IsSpace(s[|s| - 1]) {
      j := TrimRightCuts(s[..|s| - 1]);
      assert forall n :: j <= n < |s| - 1 ==> s[n] == s[..|s| - 1][n];
    }
  }

  // Trimming cuts off the white space at both ends, all of it and nothing else.
  lemma TrimIsExact(s: string) returns (i: nat, j: nat)
    ensures i <= j <= |s| && TrimSpace(s) == s[i..j]
    ensures forall n :: 0 <= n < i || j <= n < |s| ==> IsSpace(s[n])
    ensures i < j ==> !IsSpace(s[i]) && !IsSpace(s[j - 1])
  {
    i := TrimLeftCuts(s);
    var rest := s[i..];
    j := TrimRightCuts(rest);
    assert forall n :: j <= n < |rest| ==> s[i + n] == rest[n];
    forall n | i + j <= n < |s| ensures IsSpace(s[n]) { assert s[n] == rest[n - i]; }
    TrimLeftStarts(s);
    TrimRightEnds(rest);
    if j > 0 { assert rest[0] == s[i] && rest[..j][j - 1] == s[i + j - 1]; }
    j := i + j;
  }

  // So do slashes at the end of a URL.
  lemma {:induction false} TrimSlashesIsExact(s: string)
    ensures TrimSlashes(s) <= s && forall n :: |TrimSlashes(s)| <= n < |s| ==> s[n] == '/'
    ensures TrimSlashes(s) != "" ==> TrimSlashes(s)[|TrimSlashes(s)| - 1] != '/'
  {
    if s != "" && s[|s| - 1] == '/' { TrimSlashesIsExact(s[..|s| - 1]); }
  }

  // Lower case, where ASCII goes.
  lemma LowerCaseOfAscii()
    ensures ToLower("ABCDEFGHIJKLMNOPQRSTUVWXYZ") == "abcdefghijklmnopqrstuvwxyz"
    ensures ToLower("abcxyz0189 -_*@[`{") == "abcxyz0189 -_*@[`{"
    ensures NoCase("AZaz09@[`{\U{C4}") == "azaz09@[`{\U{C4}"
  {
  }

  // Trimming a trimmed name changes nothing, so the store's own trimming never moves a target to another key.
  lemma TrimIdempotent(s: string)
    ensures TrimSpace(TrimSpace(s)) == TrimSpace(s)
  {
    var left := TrimLeft(s);
    var t := TrimRight(left);
    TrimLeftStarts(s);
    TrimRightEnds(left);
    if t != "" {
      assert t[0] == left[0];
      assert TrimLeft(t) == t;
    }
  }

  // A name SQLite takes for a duplicate is one the manager takes for a duplicate (the converse fails beyond ASCII).
  lemma NoCaseRefinesLower(a: string, b: string)
    requires NoCase(a) == NoCase(b)
    ensures ToLower(a) == ToLower(b)
  {
    assert |NoCase(a)| == |a| && |NoCase(b)| == |b|;
    forall i | 0 <= i < |a| ensures LowerRune(a[i]) == LowerRune(b[i]) {
      assert NoCase(a)[i] == NoCase(b)[i];
    }
  }
}
