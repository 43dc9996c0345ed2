/** The exact-match edit of the source (jobs.rs, edit_source). */
module SourceEdits {
  import opened Wrappers
  import opened ToolCalls

  predicate OccursAt(s: string, p: string, at: int) {
    0 <= at && at + |p| <= |s| && s[at..at + |p|] == p
  }

  /** p occurs at `at`, and nowhere before it or after its end. */
  ghost predicate OnlyMatch(s: string, p: string, at: int) {
    && OccursAt(s, p, at)
    && (forall k | 0 <= k < at :: !OccursAt(s, p, k))
    && (forall k | at + |p| <= k :: !OccursAt(s, p, k))
  }

  lemma {:induction false} FindFromFinds(s: string, p: string, i: nat)
    requires p != "" && i <= |s|
    ensures var at := FindFrom(s, p, i);
            if at.Some? then i <= at.value && OccursAt(s, p, at.value) && forall k | i <= k < at.value :: !OccursAt(s, p, k)
            else forall k | i <= k :: !OccursAt(s, p, k)
    decreases |s| - i
  {
    if i + |p| <= |s| && s[i..i + |p|] != p {
      FindFromFinds(s, p, i + 1);
    }
  }

  lemma NothingCounted(s: string, p: string, i: nat)
    requires p != "" && i <= |s|
    ensures CountMatches(s, p, i) == 0 <==> forall k | i <= k :: !OccursAt(s, p, k)
  {
    FindFromFinds(s, p, i);
    var at := FindFrom(s, p, i);
    if at.Some? { assert OccursAt(s, p, at.value); }
  }

  /** One match, counted left to right without overlap, is an only match. */
  lemma OneMatch(s: string, p: string)
    requires p != ""
    ensures CountMatches(s, p, 0) == 1 <==> FindFrom(s, p, 0).Some? && OnlyMatch(s, p, FindFrom(s, p, 0).value)
  {
    FindFromFinds(s, p, 0);
    var at := FindFrom(s, p, 0);
    if at.Some? {
      NothingCounted(s, p, at.value + |p|);
      assert CountMatches(s, p, 0) == 1 + CountMatches(s, p, at.value + |p|);
    }
  }

  /** An edit is accepted exactly when the fragment has one match, and then replaces it. */
  lemma EditedExactly(source: string, oldText: string, newText: string, at: nat)
    requires oldText != ""
    ensures OnlyMatch(source, oldText, at) ==>
              EditedSource(source, oldText, newText) == Some(source[..at] + newText + source[at + |oldText|..])
    ensures EditedSource(source, oldText, newText).Some? ==>
              FindFrom(source, oldText, 0).Some? && OnlyMatch(source, oldText, FindFrom(source, oldText, 0).value)
  {
    OneMatch(source, oldText);
    FindFromFinds(source, oldText, 0);
    if OnlyMatch(source, oldText, at) {
      assert FindFrom(source, oldText, 0) == Some(at);
    }
  }

  /** Matches that overlap the first one are not counted: such a fragment is still accepted. */
  lemma OverlapIsAccepted(newText: string)
    ensures OccursAt("aaa", "aa", 0) && OccursAt("aaa", "aa", 1)
    ensures EditedSource("aaa", "aa", newText) == Some(newText + "a")
  {
    assert OnlyMatch("aaa", "aa", 0);
    EditedExactly("aaa", "aa", newText, 0);
    assert "aaa"[..0] + newText + "aaa"[2..] == newText + "a";
  }
}
