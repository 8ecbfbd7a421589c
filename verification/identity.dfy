/**
 * Principals as the pages see them: objects that may be distinct instances yet
 * name the same participant. Every comparison the pages make goes through the
 * canonical `toString()` form, never through object identity.
 */
module Identity {
  import opened Common

  /** A Principal object: `instance` tells JavaScript objects apart, `text` is its `toString()`. */
  datatype Principal = Principal(instance: nat, text: string)

  /** `list.some((x) => x.toString() === p.toString())`: a linear scan by canonical text. */
  function ContainsText(list: seq<Principal>, p: Principal): (b: bool)
    ensures b <==> exists i :: 0 <= i < |list| && list[i].text == p.text
  {
    if list == [] then false
    else list[0].text == p.text || ContainsText(list[1..], p)
  }

  /**
   * The pattern `caller ? list.some((x) => x.toString() === caller.toString()) : false`
   * shared by `isMember`, `isFollowing`, `isLiked`.
   */
  function HeldBy(list: seq<Principal>, caller: Option<Principal>): (b: bool)
    ensures b <==> caller.Some? && exists i :: 0 <= i < |list| && list[i].text == caller.value.text
  {
    if caller.None? then false else ContainsText(list, caller.value)
  }

  /** `a?.toString() === b?.toString()` for two possibly absent principals. */
  predicate SameText(a: Option<Principal>, b: Option<Principal>) {
    (a.None? && b.None?) || (a.Some? && b.Some? && a.value.text == b.value.text)
  }

  /**
   * Membership ignores which instance represents a participant: two principals
   * with the same canonical text are members of exactly the same lists.
   */
  lemma {:induction false} ContainsTextCanonical(list: seq<Principal>, p: Principal, q: Principal)
    requires p.text == q.text
    ensures ContainsText(list, p) == ContainsText(list, q)
  {
    if list != [] {
      ContainsTextCanonical(list[1..], p, q);
    }
  }

  /** Adding a principal with the caller's text makes the caller a holder. */
  lemma HeldAfterAppend(list: seq<Principal>, caller: Principal, added: Principal)
    requires added.text == caller.text
    ensures HeldBy(list + [added], Some(caller))
  {
    assert (list + [added])[|list|] == added;
  }
}
