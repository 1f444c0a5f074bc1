/**
 Python string operations; letters other than the ASCII ones keep their case.
 */
module Strings {

  function LowerChar(c: char): char {
    if 'A' <= c <= 'Z' then (c as int + 32) as char else c
  }

  function Lower(s: string): string {
    seq(|s|, i requires 0 <= i < |s| => LowerChar(s[i]))
  }

  function Upper(s: string): string {
    seq(|s|, i requires 0 <= i < |s| => if 'a' <= s[i] <= 'z' then (s[i] as int - 32) as char else s[i])
  }

  function Replace(s: string, from: char, into: char): string {
    seq(|s|, i requires 0 <= i < |s| => if s[i] == from then into else s[i])
  }

  predicate Contains(s: string, part: string) {
    exists i | 0 <= i <= |s| :: part <= s[i..]
  }

  predicate EndsWith(s: string, part: string) {
    |part| <= |s| && s[|s| - |part|..] == part
  }

  /** `str.isspace` of a character. */
  predicate Space(c: char) {
    var n := c as int;
    || 0x09 <= n <= 0x0D || 0x1C <= n <= 0x20 || n == 0x85 || n == 0xA0 || n == 0x1680 || 0x2000 <= n <= 0x200A
    || n == 0x2028 || n == 0x2029 || n == 0x202F || n == 0x205F || n == 0x3000
  }

  predicate AllBlank(s: string) {
    forall i | 0 <= i < |s| :: Space(s[i])
  }

  function TrimLeft(s: string): string {
    if s != "" && AllBlank(s[..1]) then TrimLeft(s[1..]) else s
  }

  function TrimRight(s: string): string {
    if s != "" && AllBlank(s[|s| - 1..]) then TrimRight(s[..|s| - 1]) else s
  }

  /** `str.strip` */
  function Trim(s: string): string {
    TrimRight(TrimLeft(s))
  }

  lemma {:induction s} TrimsToNothing(s: string)
    requires AllBlank(s)
    ensures Trim(s) == ""
  {
    if s != "" {
      TrimsToNothing(s[1..]);
    }
  }

  /** `Trim` takes blanks away at both ends, all of them and nothing else. */
  lemma {:induction false} TrimIs(s: string) returns (i: nat, j: nat)
    ensures i <= j <= |s| && Trim(s) == s[i..j] && AllBlank(s[..i]) && AllBlank(s[j..])
    ensures Trim(s) != "" ==> !Space(Trim(s)[0]) && !Space(Trim(s)[|Trim(s)| - 1])
  {
    hide Space, TrimLeft, TrimRight;
    i := TrimLeftIs(s);
    var k := TrimRightIs(s[i..]);
    j := i + k;
    assert s[j..] == s[i..][k..] && s[i..j] == s[i..][..k];
  }

  lemma {:induction false} TrimLeftIs(s: string) returns (i: nat)
    ensures i <= |s| && TrimLeft(s) == s[i..] && AllBlank(s[..i]) && (i < |s| ==> !Space(s[i]))
  {
    hide Space;
    if s != "" && AllBlank(s[..1]) {
      var k := TrimLeftIs(s[1..]);
      i := k + 1;
      assert s[1..][k..] == s[i..] && s[..i] == s[..1] + s[1..][..k];
    } else {
      i := 0;
      if s != "" { assert !Space(s[..1][0]); }
    }
  }

  lemma {:induction false} TrimRightIs(s: string) returns (j: nat)
    ensures j <= |s| && TrimRight(s) == s[..j] && AllBlank(s[j..]) && (j > 0 ==> !Space(s[j - 1]))
    decreases |s|
  {
    hide Space, AllBlank;
    j := |s|;
    if s == "" {
      NoneBlank(s);
    } else {
      var n := |s| - 1;
      LastBlank(s);
      if AllBlank(s[n..]) {
        j := TrimRightIs(s[..n]);
        assert s[..n][..j] == s[..j];
        OneMoreBlank(s, j);
      } else {
        NoneBlank(s);
      }
    }
  }

  lemma NoneBlank(s: string)
    ensures AllBlank(s[|s|..]) && s[..|s|] == s
  {}

  lemma LastBlank(s: string)
    requires s != ""
    ensures AllBlank(s[|s| - 1..]) <==> Space(s[|s| - 1])
  {
    hide Space;
    assert s[|s| - 1..] == [s[|s| - 1]];
  }

  lemma OneMoreBlank(s: string, j: nat)
    requires s != "" && j <= |s| - 1 && AllBlank(s[..|s| - 1][j..]) && AllBlank(s[|s| - 1..])
    ensures AllBlank(s[j..])
  {
    hide Space;
    var a, b := s[..|s| - 1][j..], s[|s| - 1..];
    assert s[j..] == a + b;
    assert forall i :: 0 <= i < |a| ==> Space(a[i]);
    assert Space(b[0]);
  }

  /** Two texts have the same lower-case form exactly when they agree but for the case of letters. */
  lemma LowerAgrees(s: string, t: string)
    ensures Lower(s) == Lower(t) <==> |s| == |t| && forall i :: 0 <= i < |s| ==> SameLetter(s[i], t[i])
  {
    if Lower(s) == Lower(t) {
      forall i | 0 <= i < |s| ensures SameLetter(s[i], t[i]) {
        assert Lower(s)[i] == Lower(t)[i];
      }
    }
  }

  predicate SameLetter(a: char, b: char) {
    || a == b
    || ('a' <= a <= 'z' && 'A' <= b <= 'Z' && a as int - b as int == 32)
    || ('a' <= b <= 'z' && 'A' <= a <= 'Z' && b as int - a as int == 32)
  }
}
