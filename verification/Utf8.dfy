/** UTF-8 as byte sequences: the syntax of section 4 of RFC 3629. */
module Utf8 {

  type byte = x: int | 0 <= x < 256

  const NEWLINE: byte := 0x0A

  predicate Tail(s: seq<byte>, i: nat) {
    i < |s| && 0x80 <= s[i] <= 0xBF
  }

  predicate Within(s: seq<byte>, i: nat, lo: byte, hi: byte) {
    i < |s| && lo <= s[i] <= hi
  }

  /** The length of the character `s` starts with, 0 if there is none. */
  function CharLength(s: seq<byte>): (n: nat)
    ensures n <= 4 && n <= |s|
    ensures n > 1 ==> s[0] >= 0x80 && forall i :: 1 <= i < n ==> s[i] >= 0x80
  {
    if s == [] then 0
    else
      var b := s[0];
      if b <= 0x7F then 1
      else if 0xC2 <= b <= 0xDF then (if Tail(s, 1) then 2 else 0)
      else if b == 0xE0 then (if Within(s, 1, 0xA0, 0xBF) && Tail(s, 2) then 3 else 0)
      else if 0xE1 <= b <= 0xEC || 0xEE <= b <= 0xEF then (if Tail(s, 1) && Tail(s, 2) then 3 else 0)
      else if b == 0xED then (if Within(s, 1, 0x80, 0x9F) && Tail(s, 2) then 3 else 0)
      else if b == 0xF0 then (if Within(s, 1, 0x90, 0xBF) && Tail(s, 2) && Tail(s, 3) then 4 else 0)
      else if 0xF1 <= b <= 0xF3 then (if Tail(s, 1) && Tail(s, 2) && Tail(s, 3) then 4 else 0)
      else if b == 0xF4 then (if Within(s, 1, 0x80, 0x8F) && Tail(s, 2) && Tail(s, 3) then 4 else 0)
      else 0
  }

  predicate Valid(s: seq<byte>)
    decreases |s|
  {
    s == [] || (CharLength(s) > 0 && Valid(s[CharLength(s)..]))
  }

  /** What follows a character does not change where it ends. */
  lemma CharLengthPrefix(s: seq<byte>, t: seq<byte>)
    requires CharLength(s) > 0
    ensures CharLength(s + t) == CharLength(s)
  {
  }

  /** A valid text goes on validly after its first character. */
  lemma OneMoreChar(s: seq<byte>, t: seq<byte>, n: nat)
    requires 0 < n == CharLength(s + t) <= |s| && Valid(s[n..] + t)
    ensures Valid(s + t)
  {
    assert (s + t)[n..] == s[n..] + t;
  }

  lemma {:induction false} ValidConcat(a: seq<byte>, b: seq<byte>)
    requires Valid(a) && Valid(b)
    ensures Valid(a + b)
    decreases |a|
  {
    if a == [] {
      assert a + b == b;
    } else {
      var n := CharLength(a);
      CharLengthPrefix(a, b);
      ValidConcat(a[n..], b);
      OneMoreChar(a, b, n);
    }
  }

  lemma {:induction false} ValidBehindNewline(s: seq<byte>, i: nat)
    requires Valid(s) && i < |s| && s[i] == NEWLINE
    ensures Valid(s[i + 1..])
    decreases |s|
  {
    var n := CharLength(s);
    if i < n {
      assert i + 1 == n;
    } else {
      ValidBehindNewline(s[n..], i - n);
      assert s[n..][i - n + 1..] == s[i + 1..];
    }
  }

  /** A valid text up to some place, if what follows its first character is valid up to there. */
  lemma ValidUpTo(s: seq<byte>, n: nat, k: nat)
    requires 0 < n == CharLength(s) <= k <= |s| && Valid(s[n..][..k - n])
    ensures Valid(s[..k])
  {
    FirstCharAlone(s);
    ValidConcat(s[..n], s[n..][..k - n]);
    assert s[..k] == s[..n] + s[n..][..k - n];
  }

  lemma {:induction false} ValidUpToNewline(s: seq<byte>, i: nat)
    requires Valid(s) && i < |s| && s[i] == NEWLINE
    ensures Valid(s[..i + 1])
    decreases |s|
  {
    var n := CharLength(s);
    if i < n {
      assert i + 1 == n;
      FirstCharAlone(s);
    } else {
      var rest := s[n..];
      ValidUpToNewline(rest, i - n);
      ValidUpTo(s, n, i + 1);
    }
  }

  /** A newline byte is a whole character, so the text can be cut right after it. */
  lemma ValidAfterNewline(s: seq<byte>, i: nat)
    requires Valid(s) && i < |s| && s[i] == NEWLINE
    ensures Valid(s[i + 1..]) && Valid(s[..i + 1])
  {
    ValidBehindNewline(s, i);
    ValidUpToNewline(s, i);
  }

  lemma FirstCharAlone(s: seq<byte>)
    requires CharLength(s) > 0
    ensures Valid(s[..CharLength(s)])
  {
    var head := s[..CharLength(s)];
    assert CharLength(head) == CharLength(s);
    assert head[CharLength(head)..] == [];
  }
}
