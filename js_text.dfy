/**
 * The two pieces of JavaScript string semantics the userscript relies on:
 * truthiness of a string-or-null value and `String.prototype.includes`.
 */
module JsText {
  import opened Wrappers

  /** JavaScript truthiness of a value that is a string or null: `null` and `""` are falsy. */
  predicate Truthy(u: Option<string>)
  {
    u.Some? && u.value != ""
  }

  /** `sub` occurs in `s` starting at index `i`. */
  predicate OccursAt(s: string, sub: string, i: nat)
  {
    i + |sub| <= |s| && s[i..i + |sub|] == sub
  }

  /** `s.includes(sub)`: a left-to-right scan for `sub`. */
  predicate Includes(s: string, sub: string)
    decreases |s|
  {
    |sub| <= |s| && (s[..|sub|] == sub || (|s| > 0 && Includes(s[1..], sub)))
  }

  /** The scan finds `sub` exactly when `sub` occurs somewhere in `s`. */
  lemma {:induction false} IncludesIff(s: string, sub: string)
    ensures Includes(s, sub) <==> exists i: nat :: OccursAt(s, sub, i)
    decreases |s|
  {
    if |sub| > |s| {
      assert forall i: nat :: !OccursAt(s, sub, i);
    } else if s[..|sub|] == sub {
      assert OccursAt(s, sub, 0);
    } else {
      IncludesIff(s[1..], sub);
      forall i: nat
        ensures OccursAt(s[1..], sub, i) <==> OccursAt(s, sub, i + 1)
      {
        if i + 1 + |sub| <= |s| {
          assert s[1..][i..i + |sub|] == s[i + 1..i + 1 + |sub|];
        }
      }
      if exists i: nat :: OccursAt(s, sub, i) {
        var i: nat :| OccursAt(s, sub, i);
        assert i != 0;
        assert OccursAt(s[1..], sub, i - 1);
      }
    }
  }

  /** In a string whose only `c` is at index `k` (or that has none, `k == |s|`), a piece starting with `c` can only occur at `k`. */
  lemma IncludesAtOnly(s: string, c: char, k: nat, sub: string)
    requires forall i :: 0 <= i < |s| ==> (s[i] == c <==> i == k)
    requires |sub| > 0 && sub[0] == c
    ensures Includes(s, sub) <==> OccursAt(s, sub, k)
  {
    IncludesIff(s, sub);
    forall i: nat | OccursAt(s, sub, i) ensures i == k {
      assert s[i] == s[i..i + |sub|][0];
    }
  }
}
