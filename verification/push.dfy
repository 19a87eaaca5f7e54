/** `Storage.Push` and `Storage.push` (storage/consul/consul.go): replaying a
    change set against the KV store, one call per change, stopping at the
    first failure without undoing what was already applied. The store is a
    map from key to value; whether a call fails is decided outside the model. */
module ConsulPush {
  import opened Results
  import opened Changes
  import Consul

  type Store = map<string, string>

  /** The outcome of the n-th store call (0-based): the error it returns, if
      any. The network and the Consul server stand behind it. */
  type Replies = nat -> Option<string>

  /** One successful `push`: Add and Update put the new value under the key,
      Remove deletes the key. */
  function Apply(store: Store, ch: KVChange): (r: Store)
    ensures ch.key in r <==> ch.After().Some?
    ensures ch.key in r ==> r[ch.key] == ch.After().value
    ensures forall k :: k != ch.key ==> (k in r <==> k in store) && (k in r ==> r[k] == store[k])
  {
    match ch
    case Add(k, v) => store[k := v]
    case Update(k, _, v) => store[k := v]
    case Remove(k, _) => store - {k}
  }

  /** The store after every change of `cs` has been applied, in order: the
      last change decides whether its key is present and with which value. */
  function ApplyAll(store: Store, cs: seq<KVChange>): (r: Store)
    ensures |cs| == 0 ==> r == store
    ensures |cs| > 0 ==> (cs[|cs| - 1].key in r <==> cs[|cs| - 1].After().Some?)
    ensures |cs| > 0 && cs[|cs| - 1].key in r ==> r[cs[|cs| - 1].key] == cs[|cs| - 1].After().value
    decreases |cs|
  {
    if |cs| == 0 then store else Apply(ApplyAll(store, cs[..|cs| - 1]), cs[|cs| - 1])
  }

  /** A key the store did not hold is present after the changes only if some
      Add or Update put it there. */
  lemma {:induction false} ApplyAllNewKeys(store: Store, cs: seq<KVChange>, k: string)
    requires k in ApplyAll(store, cs) && k !in store
    ensures exists i :: 0 <= i < |cs| && cs[i].key == k && cs[i].After().Some?
    decreases |cs|
  {
    var n := |cs| - 1;
    if cs[n].key == k {
      assert cs[n].After().Some?;
    } else {
      ApplyAllNewKeys(store, cs[..n], k);
      var i :| 0 <= i < n && cs[..n][i].key == k && cs[..n][i].After().Some?;
      assert cs[i] == cs[..n][i];
    }
  }

  /** `Push`: the changes are applied strictly in order and the first store
      error is returned as is. On success the store is the fold of all
      changes; on a failure at change i exactly the changes before i have
      been applied, and every earlier call succeeded. */
  method Push(store: Store, cs: seq<KVChange>, replies: Replies) returns (final: Store, err: Option<string>)
    ensures err.None? ==> final == ApplyAll(store, cs) && forall i :: 0 <= i < |cs| ==> replies(i).None?
    ensures err.Some? ==>
              exists i :: 0 <= i < |cs| && replies(i) == err && final == ApplyAll(store, cs[..i])
                          && forall j :: 0 <= j < i ==> replies(j).None?
  {
    final := store;
    var i := 0;
    while i < |cs|
      invariant 0 <= i <= |cs|
      invariant final == ApplyAll(store, cs[..i])
      invariant forall j :: 0 <= j < i ==> replies(j).None?
    {
      var reply := replies(i);
      if reply.Some? {
        return final, reply;
      }
      assert cs[..i + 1][..i] == cs[..i];
      final := Apply(final, cs[i]);
      i := i + 1;
    }
    assert cs[..|cs|] == cs;
    return final, None;
  }

  /** Applying a concatenation is applying its halves one after the other. */
  lemma {:induction false} ApplyAllAppend(store: Store, a: seq<KVChange>, b: seq<KVChange>)
    ensures ApplyAll(store, a + b) == ApplyAll(ApplyAll(store, a), b)
    decreases |b|
  {
    if |b| == 0 {
      assert a + b == a;
    } else {
      var ab := a + b;
      var init := b[..|b| - 1];
      assert ab[..|ab| - 1] == a + init;
      assert ab[|ab| - 1] == b[|b| - 1];
      ApplyAllAppend(store, a, init);
      ApplyAllSnoc(store, ab);
      ApplyAllSnoc(ApplyAll(store, a), b);
    }
  }

  /** One step of `ApplyAll`'s recursion, stated apart so that callers need
      not unfold its definition. */
  lemma ApplyAllSnoc(store: Store, cs: seq<KVChange>)
    requires |cs| > 0
    ensures ApplyAll(store, cs) == Apply(ApplyAll(store, cs[..|cs| - 1]), cs[|cs| - 1])
  {
  }

  /** Nothing else changes: a key no change mentions keeps its presence and
      its value. */
  lemma {:induction false} ApplyAllUntouched(store: Store, cs: seq<KVChange>, k: string)
    requires forall i :: 0 <= i < |cs| ==> cs[i].key != k
    ensures k in ApplyAll(store, cs) <==> k in store
    ensures k in store ==> ApplyAll(store, cs)[k] == store[k]
    decreases |cs|
  {
    if |cs| > 0 {
      ApplyAllUntouched(store, cs[..|cs| - 1], k);
    }
  }

  /** The last change to a key decides it: after it the key holds the change's
      new value, or is absent if the change is a Remove. */
  lemma {:induction false} ApplyAllLastWriteWins(store: Store, cs: seq<KVChange>, i: nat)
    requires i < |cs|
    requires forall j :: i < j < |cs| ==> cs[j].key != cs[i].key
    ensures cs[i].Remove? ==> cs[i].key !in ApplyAll(store, cs)
    ensures !cs[i].Remove? ==> cs[i].key in ApplyAll(store, cs) && ApplyAll(store, cs)[cs[i].key] == cs[i].newVal
    decreases |cs|
  {
    if i < |cs| - 1 {
      ApplyAllLastWriteWins(store, cs[..|cs| - 1], i);
    }
  }

  /** A successful push of a change set with distinct keys realises it: each
      key ends up as its change says, and every other key is untouched. */
  lemma PushRealisesChanges(store: Store, cs: seq<KVChange>, k: string)
    requires forall i, j :: 0 <= i < j < |cs| ==> cs[i].key != cs[j].key
    ensures forall i :: 0 <= i < |cs| && cs[i].key == k ==>
              (cs[i].Remove? ==> k !in ApplyAll(store, cs))
              && (!cs[i].Remove? ==> k in ApplyAll(store, cs) && ApplyAll(store, cs)[k] == cs[i].newVal)
    ensures (forall i :: 0 <= i < |cs| ==> cs[i].key != k) ==>
              (k in ApplyAll(store, cs) <==> k in store) && (k in store ==> ApplyAll(store, cs)[k] == store[k])
  {
  }

  /** Pushing the result of `getChanges` leaves the ignored subtree alone:
      any key an ignored path is a prefix of keeps its presence and value. */
  lemma IgnoredKeysUntouched(store: Store, raw: seq<ConsulChange>, key: string, ignoreVal: string, k: string)
    requires Consul.IsPathIgnored(k, Consul.IgnoredPaths(raw, ignoreVal))
    ensures var out := Consul.GetChanges(Ok(raw), key, ignoreVal).value;
            (k in ApplyAll(store, out) <==> k in store)
            && (k in store ==> ApplyAll(store, out)[k] == store[k])
  {
    var out := Consul.GetChanges(Ok(raw), key, ignoreVal).value;
    forall i | 0 <= i < |out|
      ensures out[i].key != k
    {
      assert out[i] in out;
    }
    ApplyAllUntouched(store, out, k);
  }
}
