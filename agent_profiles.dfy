// The profile picker of the test-creation form: toggling a profile removes
// it when selected and adds it when fewer than five are selected.

module AgentProfiles {
  import opened Common
  import opened Schemas

  /** The most profiles a selection takes. */
  const MAX_SELECTED := 5

  /** The position of the first `x` in `s`, or -1 (`indexOf`). */
  method IndexOf(s: seq<BehavioralProfile>, x: BehavioralProfile) returns (idx: int)
    ensures -1 <= idx < |s|
    ensures idx == -1 <==> x !in s
    ensures idx >= 0 ==> s[idx] == x && x !in s[..idx]
  {
    idx := 0;
    while idx < |s|
      invariant 0 <= idx <= |s|
      invariant x !in s[..idx]
    {
      if s[idx] == x {
        return;
      }
      idx := idx + 1;
    }
    assert s[..idx] == s;
    idx := -1;
  }

  /** `current` is `s` with the first `x`, found at `i`, cut out. */
  predicate CutFirst(s: seq<BehavioralProfile>, x: BehavioralProfile, i: int, current: seq<BehavioralProfile>) {
    0 <= i < |s| && s[i] == x && x !in s[..i] && current == s[..i] + s[i + 1..]
  }

  /** What toggling promises about `current`, the selection after toggling `profile` in `selected`. */
  predicate Toggled(selected: seq<BehavioralProfile>, profile: BehavioralProfile, current: seq<BehavioralProfile>) {
    && (|selected| <= MAX_SELECTED ==> |current| <= MAX_SELECTED)
    && (NoDuplicates(selected) ==> NoDuplicates(current))
    && (NoDuplicates(selected) ==> (profile in current <==> profile !in selected && |selected| < MAX_SELECTED))
    && (forall p :: p != profile ==> (p in current <==> p in selected))
  }

  /**
   * The selection after toggling `profile`: its first occurrence is cut out
   * when it is selected; otherwise it is appended when fewer than five are
   * selected, and the selection is kept when five or more are. A selection
   * of at most five stays at most five, one without duplicates stays so,
   * and no other profile changes membership.
   */
  method Toggle(selected: seq<BehavioralProfile>, profile: BehavioralProfile) returns (current: seq<BehavioralProfile>)
    ensures profile in selected ==> exists i :: CutFirst(selected, profile, i, current)
    ensures profile !in selected && |selected| < MAX_SELECTED ==> current == selected + [profile]
    ensures profile !in selected && |selected| >= MAX_SELECTED ==> current == selected
    ensures Toggled(selected, profile, current)
  {
    current := selected;
    var idx := IndexOf(current, profile);
    if idx >= 0 {
      current := current[..idx] + current[idx + 1..];
      CutIsToggled(selected, idx);
      assert CutFirst(selected, profile, idx, current);
    } else if |current| < MAX_SELECTED {
      current := current + [profile];
      AppendIsToggled(selected, profile);
    }
  }

  lemma CutIsToggled(s: seq<BehavioralProfile>, i: int)
    requires 0 <= i < |s| && s[i] !in s[..i]
    ensures Toggled(s, s[i], s[..i] + s[i + 1..])
  {
    var r := s[..i] + s[i + 1..];
    assert |r| == |s| - 1;
    assert s == s[..i] + [s[i]] + s[i + 1..];
    if NoDuplicates(s) {
      forall a, b | 0 <= a < b < |r| ensures r[a] != r[b] {
        var a' := if a < i then a else a + 1;
        var b' := if b < i then b else b + 1;
        assert r[a] == s[a'] && r[b] == s[b'];
      }
      forall k | 0 <= k < |r| ensures r[k] != s[i] {
        assert r[k] == s[if k < i then k else k + 1];
      }
    }
  }

  lemma AppendIsToggled(s: seq<BehavioralProfile>, x: BehavioralProfile)
    requires x !in s && |s| < MAX_SELECTED
    ensures Toggled(s, x, s + [x])
  {
  }
}
