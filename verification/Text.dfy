/** Strings as the domain sees them: sequences of code points with Unicode white space. */
module Text {

  /** The code points `unicode.IsSpace` accepts. */
  predicate IsSpace(c: char) {
    || c in {' ', '\t', '\n', '\r', '\U{0B}', '\U{0C}', '\U{85}', '\U{A0}'}
    || c in {'\U{1680}', '\U{2028}', '\U{2029}', '\U{202F}', '\U{205F}', '\U{3000}'}
    || '\U{2000}' <= c <= '\U{200A}'
  }

  lemma SpacesByCodePoint(c: char)
    ensures IsSpace(c) <==>
              || c as int in {0x09, 0x0A, 0x0B, 0x0C, 0x0D, 0x20, 0x85, 0xA0}
              || c as int in {0x1680, 0x2028, 0x2029, 0x202F, 0x205F, 0x3000}
              || 0x2000 <= c as int <= 0x200A
  {
  }

  predicate AllSpace(s: string) {
    forall k :: 0 <= k < |s| ==> IsSpace(s[k])
  }

  /** Neither end is white space. */
  predicate Trimmed(s: string) {
    s != "" ==> !IsSpace(s[0]) && !IsSpace(s[|s| - 1])
  }

  function TrimLeft(s: string): string {
    if s != "" && IsSpace(s[0]) then TrimLeft(s[1..]) else s
  }

  function TrimRight(s: string): string {
    if s != "" && IsSpace(s[|s| - 1]) then TrimRight(s[..|s| - 1]) else s
  }

  function TrimSpace(s: string): string {
    TrimRight(TrimLeft(s))
  }

  lemma {:induction false} TrimLeftCut(s: string) returns (i: nat)
    ensures i <= |s| && TrimLeft(s) == s[i..] && AllSpace(s[..i])
    ensures i < |s| ==> !IsSpace(s[i])
  {
    if s != "" && IsSpace(s[0]) {
      var j := TrimLeftCut(s[1..]);
      i := j + 1;
      assert s[i..] == s[1..][j..];
      assert s[..i] == [s[0]] + s[1..][..j];
    } else {
      i := 0;
    }
  }

  lemma {:induction false} TrimRightCut(s: string) returns (j: nat)
    ensures j <= |s| && TrimRight(s) == s[..j] && AllSpace(s[j..])
    ensures j > 0 ==> !IsSpace(s[j - 1])
  {
    if s != "" && IsSpace(s[|s| - 1]) {
      var short := s[..|s| - 1];
      j := TrimRightCut(short);
      assert s[..j] == short[..j];
      assert s[j..] == short[j..] + [s[|s| - 1]];
    } else {
      j := |s|;
    }
  }

  /** TrimSpace cuts out a trimmed slice that has only white space on both sides. */
  lemma TrimSpaceCut(s: string) returns (i: nat, j: nat)
    ensures i <= j <= |s| && TrimSpace(s) == s[i..j] && Trimmed(s[i..j])
    ensures AllSpace(s[..i]) && AllSpace(s[j..])
  {
    i := TrimLeftCut(s);
    var d := TrimRightCut(s[i..]);
    j := i + d;
    assert s[i..][..d] == s[i..j];
    assert s[i..][d..] == s[j..];
    if i < j {
      assert s[i..j][0] == s[i];
      assert s[i..j][j - i - 1] == s[i..][d - 1];
    }
  }

  /** No other text can be cut out that way. */
  lemma TrimSpaceIsTheOnlyCut(s: string, i: nat, j: nat)
    requires i <= j <= |s| && Trimmed(s[i..j]) && AllSpace(s[..i]) && AllSpace(s[j..])
    ensures TrimSpace(s) == s[i..j]
  {
    var k, m := TrimSpaceCut(s);
    var t := s[k..m];
    assert forall n :: 0 <= n < |s| && (n < k || n >= m) ==> IsSpace(s[n]) by {
      assert forall n :: 0 <= n < k ==> s[n] == s[..k][n];
      assert forall n :: m <= n < |s| ==> s[n] == s[m..][n - m];
    }
    assert forall n :: 0 <= n < |s| && (n < i || n >= j) ==> IsSpace(s[n]) by {
      assert forall n :: 0 <= n < i ==> s[n] == s[..i][n];
      assert forall n :: j <= n < |s| ==> s[n] == s[j..][n - j];
    }
    assert i < j ==> !IsSpace(s[i]) && !IsSpace(s[j - 1]);
    assert k < m ==> !IsSpace(s[k]) && !IsSpace(s[m - 1]);
  }

  /** White space is taken off both sides, and nothing else. */
  lemma PaddingIsTrimmed(left: string, core: string, right: string)
    requires forall c :: c in left || c in right ==> IsSpace(c)
    requires core != "" ==> !IsSpace(core[0]) && !IsSpace(core[|core| - 1])
    ensures TrimSpace(left + core + right) == core
  {
    var s := left + core + right;
    assert s[..|left|] == left && s[|left| + |core|..] == right && s[|left|..|left| + |core|] == core;
    TrimSpaceIsTheOnlyCut(s, |left|, |left| + |core|);
  }

  lemma TrimSpaceTrims(s: string)
    ensures Trimmed(TrimSpace(s))
  {
    var _, _ := TrimSpaceCut(s);
  }
}
