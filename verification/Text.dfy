/** Whitespace in byte strings. */
module Text {
  predicate IsSpace(c: char) {
    c == ' ' || '\t' <= c <= '\r'
  }

  predicate Blank(s: string) {
    forall i | 0 <= i < |s| :: IsSpace(s[i])
  }

  function Trim(s: string): string
    decreases |s|
  {
    if s != "" && IsSpace(s[0]) then Trim(s[1..])
    else if s != "" && IsSpace(s[|s| - 1]) then Trim(s[..|s| - 1])
    else s
  }

  lemma SpaceExactly(c: char)
    ensures IsSpace(c) <==> c in {' ', '\t', '\n', '\r', 0x0b as char, 0x0c as char}
  {
  }

  /** s[i..j] is s without the spaces around it. */
  predicate Within(s: string, i: nat, j: nat) {
    && i <= j <= |s| && Blank(s[..i]) && Blank(s[j..])
    && (if i == j then Blank(s) else !IsSpace(s[i]) && !IsSpace(s[j - 1]))
  }

  lemma WithinRest(s: string, i: nat, j: nat)
    requires s != "" && IsSpace(s[0]) && Within(s[1..], i, j)
    ensures Within(s, i + 1, j + 1) && s[i + 1..j + 1] == s[1..][i..j]
  {
    var rest := s[1..];
    assert forall k | 0 < k < |s| :: s[k] == rest[k - 1];
    assert forall k | 0 <= k < |rest[..i]| :: rest[k] == rest[..i][k];
    assert s[j + 1..] == rest[j..];
  }

  lemma WithinFront(s: string, i: nat, j: nat)
    requires s != "" && IsSpace(s[|s| - 1]) && Within(s[..|s| - 1], i, j)
    ensures Within(s, i, j) && s[i..j] == s[..|s| - 1][i..j]
  {
    var front := s[..|s| - 1];
    assert s[..i] == front[..i];
    assert s[j..] == front[j..] + [s[|s| - 1]];
  }

  /** Trimming removes the spaces around a text: what is left begins and ends with none, and what
      went is nothing else. */
  lemma {:induction false} TrimExactly(s: string)
    ensures exists i: nat, j: nat :: Within(s, i, j) && Trim(s) == s[i..j]
    decreases |s|
  {
    if s != "" && IsSpace(s[0]) {
      TrimExactly(s[1..]);
      var i: nat, j: nat :| Within(s[1..], i, j) && Trim(s[1..]) == s[1..][i..j];
      WithinRest(s, i, j);
    } else if s != "" && IsSpace(s[|s| - 1]) {
      TrimExactly(s[..|s| - 1]);
      var i: nat, j: nat :| Within(s[..|s| - 1], i, j) && Trim(s[..|s| - 1]) == s[..|s| - 1][i..j];
      WithinFront(s, i, j);
    } else {
      assert s[0..|s|] == s;
      assert Within(s, 0, |s|);
    }
  }
}
