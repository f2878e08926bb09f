/** Row identities: a namespace prefix and the digest of an encoded tuple. The
    digest is a parameter; where distinct tuples must get distinct rows it is
    required to be injective, which is what SHA-256 is relied on for. */
module Identity {
  import opened Text

  ghost predicate Injective(digest: string -> string) {
    forall a, b :: digest(a) == digest(b) ==> a == b
  }

  const ACCOUNT_WRITE := "account-write:"
  const CALL := "call:"
  const DELIVERY := "delivery:"
  const PROVIDER_COMMIT := "provider_commit:"

  /** SQL `id LIKE 'account-write:%'`. */
  predicate IsAccountWriteId(id: string) {
    ACCOUNT_WRITE <= id
  }

  function AccountWriteId(digest: string -> string, workspaceId: string, actorId: string, requestId: string): string {
    ACCOUNT_WRITE + digest("[" + QuoteAll([workspaceId, actorId, requestId]) + "]")
  }

  function CallId(digest: string -> string, workspaceId: string, requestId: string): string {
    CALL + digest(Trim(workspaceId) + [NUL] + Trim(requestId))
  }

  function DeliveryId(digest: string -> string, messageId: string): string {
    DELIVERY + digest(Trim(messageId))
  }

  function ProviderCommitId(digest: string -> string, taskId: string, token: nat, index: nat): string {
    PROVIDER_COMMIT + digest(taskId + [NUL] + (Decimal(token) + [NUL] + Decimal(index)))
  }

  /** Row ids derived from a workspace and a key; both are trimmed. */
  function OwnerId(digest: string -> string, prefix: string, workspaceId: string, key: string): string {
    prefix + digest(Trim(workspaceId) + [NUL] + Trim(key))
  }

  lemma OwnerIdInjective(digest: string -> string, prefix: string, w: string, key: string, key': string)
    requires Injective(digest) && OwnerId(digest, prefix, w, key) == OwnerId(digest, prefix, w, key')
    ensures Trim(key) == Trim(key')
  {
    PrefixedInjective(prefix, digest(Trim(w) + [NUL] + Trim(key)), digest(Trim(w) + [NUL] + Trim(key')));
    PrefixedInjective(Trim(w) + [NUL], Trim(key), Trim(key'));
  }

  lemma PrefixedInjective(p: string, x: string, y: string)
    requires p + x == p + y
    ensures x == y
  {
    assert x == (p + x)[|p|..] && y == (p + y)[|p|..];
  }

  /** Whatever the digest computes, the three ledgers never share a row. */
  lemma NamespacesDisjoint(a: string, c: string, d: string)
    ensures IsAccountWriteId(ACCOUNT_WRITE + a)
    ensures !IsAccountWriteId(CALL + c) && !IsAccountWriteId(DELIVERY + d)
    ensures CALL + c != DELIVERY + d
  {
    assert (CALL + c)[0] == 'c' && (DELIVERY + d)[0] == 'd';
  }

  /** One account-write row serves one (workspace, actor, RequestID), for any text in them. */
  lemma AccountWriteIdInjective(digest: string -> string, w: string, a: string, r: string, w': string, a': string, r': string)
    requires Injective(digest)
    requires AccountWriteId(digest, w, a, r) == AccountWriteId(digest, w', a', r')
    ensures w == w' && a == a' && r == r'
  {
    var x, y := [w, a, r], [w', a', r'];
    PrefixedInjective(ACCOUNT_WRITE, digest("[" + QuoteAll(x) + "]"), digest("[" + QuoteAll(y) + "]"));
    assert "[" + QuoteAll(x) + "]" == "[" + (QuoteAll(x) + "]");
    assert "[" + QuoteAll(y) + "]" == "[" + (QuoteAll(y) + "]");
    PrefixedInjective("[", QuoteAll(x) + "]", QuoteAll(y) + "]");
    QuoteAllPrefixFree(x, "]", y, "]");
    assert x[0] == y[0] && x[1] == y[1] && x[2] == y[2];
  }

  function CallText(w: string, r: string): string {
    Trim(w) + [NUL] + Trim(r)
  }

  /** The hashed text can be cut at another NUL into two trimmed parts. */
  predicate CutsElsewhere(w: string, r: string) {
    exists i :: 0 <= i < |CallText(w, r)| && i != |Trim(w)| && CutsAt(CallText(w, r), i)
  }

  predicate CutsAt(text: string, i: nat)
    requires i < |text|
  {
    text[i] == NUL && Trimmed(text[..i]) && Trimmed(text[i + 1..])
  }

  lemma SameCallText(digest: string -> string, w: string, r: string, w': string, r': string)
    requires Injective(digest) && CallId(digest, w', r') == CallId(digest, w, r)
    ensures CallText(w', r') == CallText(w, r)
  {
    PrefixedInjective(CALL, digest(CallText(w', r')), digest(CallText(w, r)));
  }

  lemma CutOfCall(w: string, r: string)
    ensures var s := CallText(w, r); |Trim(w)| < |s| && CutsAt(s, |Trim(w)|) && s[..|Trim(w)|] == Trim(w) && s[|Trim(w)| + 1..] == Trim(r)
  {
    TrimIsTrimmed(w);
    TrimIsTrimmed(r);
  }

  /** A call whose text cuts in one place only shares its id with no other call. */
  lemma OnlyCutIsOwn(digest: string -> string, w: string, r: string, w': string, r': string)
    requires Injective(digest) && !CutsElsewhere(w, r) && CallId(digest, w', r') == CallId(digest, w, r)
    ensures Trim(w') == Trim(w) && Trim(r') == Trim(r)
  {
    SameCallText(digest, w, r, w', r');
    CutOfCall(w', r');
    CutOfCall(w, r);
    assert CutsAt(CallText(w, r), |Trim(w')|);
  }

  /** A call row serves one trimmed (workspace, RequestID) exactly when its text cannot be cut
      at another NUL into two trimmed parts. */
  lemma CallIdIsUniqueIff(digest: string -> string, w: string, r: string)
    requires Injective(digest)
    ensures (forall w', r' :: CallId(digest, w', r') == CallId(digest, w, r) ==> Trim(w') == Trim(w) && Trim(r') == Trim(r)) <==> !CutsElsewhere(w, r)
  {
    if CutsElsewhere(w, r) {
      var s := CallText(w, r);
      var i :| 0 <= i < |s| && i != |Trim(w)| && CutsAt(s, i);
      TrimmedIsFixed(s[..i]);
      TrimmedIsFixed(s[i + 1..]);
      assert s == s[..i] + [NUL] + s[i + 1..];
      assert CallId(digest, s[..i], s[i + 1..]) == CallId(digest, w, r);
    } else {
      forall w', r' | CallId(digest, w', r') == CallId(digest, w, r) ensures Trim(w') == Trim(w) && Trim(r') == Trim(r) {
        OnlyCutIsOwn(digest, w, r, w', r');
      }
    }
  }

  /** In particular a call whose trimmed parts hold no NUL has its own row. */
  lemma CallIdWithoutNul(digest: string -> string, w: string, r: string, w': string, r': string)
    requires Injective(digest) && NUL !in Trim(w) && NUL !in Trim(r)
    ensures CallId(digest, w', r') == CallId(digest, w, r) <==> Trim(w') == Trim(w) && Trim(r') == Trim(r)
  {
    if CallId(digest, w', r') == CallId(digest, w, r) {
      OnlyCutIsOwn(digest, w, r, w', r');
    }
  }

  /** With a NUL in the workspace the call row is shared: the separator is not escaped. */
  lemma CallIdSharedThroughNul(digest: string -> string)
    ensures CallId(digest, ['a', NUL, 'b'], "c") == CallId(digest, "a", ['b', NUL, 'c'])
  {
    TrimmedIsFixed(['a', NUL, 'b']);
    TrimmedIsFixed("c");
    TrimmedIsFixed("a");
    TrimmedIsFixed(['b', NUL, 'c']);
    assert ['a', NUL, 'b'] + [NUL] + "c" == "a" + [NUL] + ['b', NUL, 'c'];
  }

  /** An outbox row serves one (task, fencing token, index): numerals hold no NUL,
      so the tuple can be read back from the right whatever the row id holds. */
  lemma ProviderCommitIdInjective(digest: string -> string, t: string, n: nat, i: nat, t': string, n': nat, i': nat)
    requires Injective(digest)
    requires ProviderCommitId(digest, t, n, i) == ProviderCommitId(digest, t', n', i')
    ensures t == t' && n == n' && i == i'
  {
    var x, y := Decimal(n) + [NUL] + Decimal(i), Decimal(n') + [NUL] + Decimal(i');
    PrefixedInjective(PROVIDER_COMMIT, digest(t + [NUL] + x), digest(t' + [NUL] + y));
    var a, b := t + [NUL] + Decimal(n), t' + [NUL] + Decimal(n');
    assert t + [NUL] + x == a + [NUL] + Decimal(i);
    assert t' + [NUL] + y == b + [NUL] + Decimal(i');
    SplitAtLast(a, Decimal(i), b, Decimal(i'), NUL);
    SplitAtLast(t, Decimal(n), t', Decimal(n'), NUL);
    DecimalInjective(n, n');
    DecimalInjective(i, i');
  }
}
