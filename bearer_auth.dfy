/**
 * The `Authorization` header check every route handler starts with:
 * `if (!authHeader?.startsWith('Bearer ')) ...; const token = authHeader.split('Bearer ')[1];`
 * followed by `verifyIdToken(token)`. Token verification is the parameter `verify`,
 * which maps a token to the uid it was issued for, or to `None` when the token is rejected.
 */
module BearerAuth {
  import opened Wrappers
  import opened Text

  const Scheme: string := "Bearer "

  predicate StartsWith(s: string, prefix: string) {
    |prefix| <= |s| && s[..|prefix|] == prefix
  }

  /** The first occurrence of `pat` in `s` at or after `from`, as `split` searches. */
  function FindFrom(s: string, pat: string, from: nat): (r: Option<nat>)
    decreases |s| - from
    ensures r.Some? ==> from <= r.value && OccursAt(s, pat, r.value)
    ensures r.Some? ==> forall k: nat :: from <= k < r.value ==> !OccursAt(s, pat, k)
    ensures r.None? ==> forall k: nat :: from <= k ==> !OccursAt(s, pat, k)
  {
    if from + |pat| > |s| then None
    else if OccursAt(s, pat, from) then Some(from)
    else FindFrom(s, pat, from + 1)
  }

  /**
   * The bearer token of an `Authorization` header: `None` when the header is missing or does
   * not start with `Bearer `; otherwise the text after the scheme, up to the next `Bearer `.
   */
  function Token(header: Option<string>): (t: Option<string>)
    ensures t.None? <==> header.None? || !StartsWith(header.value, Scheme)
  {
    if header.None? || !StartsWith(header.value, Scheme) then None
    else
      var h := header.value;
      match FindFrom(h, Scheme, |Scheme|)
      case Some(k) => Some(h[|Scheme|..k])
      case None => Some(h[|Scheme|..])
  }

  /**
   * The token is the start of what follows the scheme, holds no `Bearer ` of its own, and is
   * all of it when no second `Bearer ` follows.
   */
  lemma TokenIsFirstSegment(h: string)
    requires StartsWith(h, Scheme)
    ensures var t := Token(Some(h)).value;
      var rest := h[|Scheme|..];
      && StartsWith(rest, t)
      && !Contains(t, Scheme)
      && (!Contains(rest, Scheme) ==> t == rest)
  {
    var t := Token(Some(h)).value;
    var rest := h[|Scheme|..];
    var found := FindFrom(h, Scheme, |Scheme|);
    forall k: nat | OccursAt(t, Scheme, k) ensures false {
      assert OccursAt(h, Scheme, |Scheme| + k);
    }
    if !Contains(rest, Scheme) {
      if found.Some? {
        assert OccursAt(rest, Scheme, found.value - |Scheme|);
      }
    }
  }

  /** A client that sends `Bearer ${token}` has `token` read back exactly when it holds no `Bearer `. */
  lemma TokenRoundTrip(t: string)
    ensures Token(Some(Scheme + t)) == Some(t) <==> !Contains(t, Scheme)
  {
    var h := Scheme + t;
    assert h[..|Scheme|] == Scheme;
    assert h[|Scheme|..] == t;
    TokenIsFirstSegment(h);
  }

  /** What the authentication prologue of a handler found. */
  datatype Caller = NoBearer | Rejected | Verified(uid: string)

  function Authenticate(header: Option<string>, verify: string -> Option<string>): (c: Caller)
    ensures c.NoBearer? <==> Token(header).None?
    ensures c.Verified? ==> verify(Token(header).value) == Some(c.uid)
    ensures c.Rejected? ==> verify(Token(header).value).None?
  {
    match Token(header)
    case None => NoBearer
    case Some(t) =>
      match verify(t)
      case None => Rejected
      case Some(uid) => Verified(uid)
  }
}
