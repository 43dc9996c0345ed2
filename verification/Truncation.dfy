/** Cutting text to a number of UTF-8 bytes: a backward search in the worker (jobs.rs) and a
    forward one for fetched documents (web_access.rs) both keep the longest prefix that fits. */
module Truncation {
  /** Bytes of a character in UTF-8 (section 3 of RFC 3629). */
  function Width(c: char): (n: nat)
    ensures 1 <= n <= 4
  {
    if c as int < 0x80 then 1 else if c as int < 0x800 then 2 else if c as int < 0x1_0000 then 3 else 4
  }

  function Bytes(s: string): nat {
    if s == "" then 0 else Bytes(s[..|s| - 1]) + Width(s[|s| - 1])
  }

  /** Some prefix of s ends at this byte. */
  predicate IsBoundary(s: string, at: nat) {
    exists n | 0 <= n <= |s| :: Bytes(s[..n]) == at
  }

  /** The longest prefix of at most `limit` bytes. */
  function Truncated(s: string, limit: nat): string {
    if Bytes(s) <= limit then s else Truncated(s[..|s| - 1], limit)
  }

  lemma {:induction false} BytesGrow(s: string, m: nat, n: nat)
    requires m <= n <= |s|
    ensures Bytes(s[..m]) + (n - m) <= Bytes(s[..n])
    decreases n
  {
    if m < n {
      BytesGrow(s, m, n - 1);
      assert s[..n][..n - 1] == s[..n - 1];
    }
  }

  /** The result fits, is a prefix, and no longer prefix fits. */
  lemma {:induction false} TruncatedIsLongest(s: string, limit: nat)
    ensures var r := Truncated(s, limit);
            r <= s && Bytes(r) <= limit && forall n | 0 <= n <= |s| && Bytes(s[..n]) <= limit :: n <= |r|
  {
    if Bytes(s) > limit {
      var front := s[..|s| - 1];
      TruncatedIsLongest(front, limit);
      assert s[..|s|] == s;
      forall n | 0 <= n <= |s| && Bytes(s[..n]) <= limit ensures n <= |Truncated(s, limit)| {
        if n < |s| { assert front[..n] == s[..n]; }
      }
    }
  }

  /** A prefix that fits while one character more does not is the result. */
  lemma TruncatedAt(s: string, limit: nat, n: nat)
    requires n <= |s| && Bytes(s[..n]) <= limit
    requires n < |s| ==> Bytes(s[..n + 1]) > limit
    ensures Truncated(s, limit) == s[..n]
  {
    TruncatedIsLongest(s, limit);
    var r := Truncated(s, limit);
    assert r == s[..|r|];
    if n < |r| { BytesGrow(s, n + 1, |r|); }
  }

  /** From the limit backwards to the first character boundary. */
  method TruncateTextToBytes(value: string, limit: nat)
    returns (r: string)
    ensures r == Truncated(value, limit)
  {
    if Bytes(value) <= limit { return value; }
    var boundary := limit;
    assert value[..0] == "";
    while !IsBoundary(value, boundary)
      invariant boundary <= limit
      invariant forall n | 0 <= n <= |value| && Bytes(value[..n]) <= limit :: Bytes(value[..n]) <= boundary
      decreases boundary
    {
      assert IsBoundary(value, 0) by { assert Bytes(value[..0]) == 0; }
      forall n | 0 <= n <= |value| && Bytes(value[..n]) <= limit ensures Bytes(value[..n]) <= boundary - 1 {
        assert Bytes(value[..n]) != boundary;
      }
      boundary := boundary - 1;
    }
    var n :| 0 <= n <= |value| && Bytes(value[..n]) == boundary;
    if n < |value| { BytesGrow(value, n, n + 1); }
    TruncatedAt(value, limit, n);
    return value[..n];
  }

  /** The last character that starts within the limit is where the text is cut. */
  method TruncateDocument(value: string, limit: nat)
    returns (r: string)
    ensures r == Truncated(value, limit)
  {
    if Bytes(value) <= limit { return value; }
    var cut, index, n := 0, 0, 0;
    assert value[..0] == "";
    while n < |value| && index <= limit
      invariant n <= |value| && index == Bytes(value[..n])
      invariant cut == if n == 0 then 0 else n - 1
      invariant Bytes(value[..cut]) <= limit
    {
      cut := n;
      assert value[..n + 1][..n] == value[..n];
      index := index + Width(value[n]);
      n := n + 1;
    }
    assert n == |value| ==> value[..n] == value;
    TruncatedAt(value, limit, cut);
    return value[..cut];
  }
}
