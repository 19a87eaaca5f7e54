/** The Consul storage backend (storage/consul/consul.go): construction of the
    storage with its ignore marker, and `getChanges`, which turns the raw
    change list into the typed change set with ignored keys filtered out. */
module Consul {
  import opened Results
  import opened Seqs
  import opened Changes
  import opened Urls

  /** The desired value that marks a key, and every key it is a prefix of,
      as managed outside this tool. */
  const DefaultIgnoreVal: string := "_ignore"

  /** The fields of `api.Config` that `New` sets. */
  datatype ClientConfig = ClientConfig(address: string, scheme: string, token: string)

  /** `Storage`: the KV client (represented by its configuration) and the ignore marker. */
  datatype Storage = Storage(client: ClientConfig, ignoreVal: string)

  /** `api.NewClient`, outside the model: the error it fails with, if any. */
  type ClientFactory = ClientConfig -> Option<string>

  /** The message for an address `url.Parse` rejects; `shown` is the text
      printed where the address belongs. */
  function AddressError(shown: string, cause: string): string
  {
    Wrap("parsing Consul address " + shown + " failed", cause)
  }

  /** The client configuration for a parsed address: host, scheme and the
      `token` query parameter. */
  function AddressConfig(u: Url, urls: UrlParser): ClientConfig
  {
    ClientConfig(u.host, u.scheme, Get(Query(u, urls), "token"))
  }

  /** The body of `New` with the text printed for an unparsable address left
      as a parameter; `New` and `NewAsWritten` differ only there. */
  function Construct(addr: string, urls: UrlParser, newClient: ClientFactory, shown: string): Result<Storage>
  {
    if addr != "" && urls.parse(addr).Err? then
      Err(AddressError(shown, urls.parse(addr).msg))
    else
      var cfg := if addr == "" then ClientConfig("", "", "") else AddressConfig(urls.parse(addr).value, urls);
      var requested := if addr == "" then "" else Get(Query(urls.parse(addr).value, urls), "ignore");
      match newClient(cfg)
      case Some(e) => Err(Wrap("creating Consul client failed", e))
      case None => Ok(Storage(cfg, if requested == "" then DefaultIgnoreVal else requested))
  }

  /** `New`, with the address named in the parse-failure message. The ignore
      marker of a constructed storage is never empty: it is the `ignore`
      query parameter when that is non-empty, and `DefaultIgnoreVal` otherwise
      (in particular when no address is given). */
  function New(addr: string, urls: UrlParser, newClient: ClientFactory): (r: Result<Storage>)
    ensures r.Ok? ==> r.value.ignoreVal != ""
    ensures addr == "" && r.Ok? ==> r.value == Storage(ClientConfig("", "", ""), DefaultIgnoreVal)
    ensures addr != "" && r.Ok? ==>
              urls.parse(addr).Ok?
              && var u := urls.parse(addr).value;
                 var requested := Get(Query(u, urls), "ignore");
                 && r.value.client == AddressConfig(u, urls)
                 && (requested != "" ==> r.value.ignoreVal == requested)
                 && (requested == "" ==> r.value.ignoreVal == DefaultIgnoreVal)
    ensures addr != "" && urls.parse(addr).Err? ==> r == Err(AddressError(addr, urls.parse(addr).msg))
    ensures (addr == "" || urls.parse(addr).Ok?) ==>
              var cfg := if addr == "" then ClientConfig("", "", "") else AddressConfig(urls.parse(addr).value, urls);
              (r.Err? <==> newClient(cfg).Some?)
              && (r.Err? ==> r.msg == Wrap("creating Consul client failed", newClient(cfg).value))
  {
    Construct(addr, urls, newClient, addr)
  }

  /** `New` as written: the `:=` on consul.go:41 declares a new `addr` that
      shadows the string, so the error message formats the nil `*url.URL`
      that `url.Parse` returns on failure, which Go's `fmt` prints as "<nil>". */
  function NewAsWritten(addr: string, urls: UrlParser, newClient: ClientFactory): (r: Result<Storage>)
    ensures addr != "" && urls.parse(addr).Err? ==> r == Err(AddressError("<nil>", urls.parse(addr).msg))
    ensures addr == "" || urls.parse(addr).Ok? ==> r == New(addr, urls, newClient)
  {
    Construct(addr, urls, newClient, "<nil>")
  }

  /** The discrepancy: for the address ":8500" (a port without a scheme, which
      `url.Parse` rejects with "missing protocol scheme") the message as
      written says "<nil>" where the corrected one names the address. The
      address still appears inside the cause, since `url.Parse`'s error
      quotes its input; only the message's own slot for it is wrong. */
  lemma NewAsWrittenPrintsNil(urls: UrlParser, newClient: ClientFactory)
    requires urls.parse(":8500").Err?
    ensures NewAsWritten(":8500", urls, newClient)
            == Err("parsing Consul address <nil> failed: " + urls.parse(":8500").msg)
    ensures New(":8500", urls, newClient)
            == Err("parsing Consul address :8500 failed: " + urls.parse(":8500").msg)
    ensures NewAsWritten(":8500", urls, newClient) != New(":8500", urls, newClient)
  {
    var e := urls.parse(":8500").msg;
    var asWritten := "parsing Consul address <nil> failed: " + e;
    var intended := "parsing Consul address :8500 failed: " + e;
    assert asWritten[23] == '<' && intended[23] == ':';
  }

  /** A raw change whose desired value is the (non-empty) ignore marker: it
      is a directive, not data (consul.go:140-143). */
  predicate Marked(c: ConsulChange, ignoreVal: string)
  {
    ignoreVal != "" && c.newVal == ignoreVal
  }

  /** A raw change that reaches the action switch: it is not marked, and when
      a key is requested it is that key (consul.go:140-147). */
  predicate Selected(c: ConsulChange, key: string, ignoreVal: string)
  {
    !Marked(c, ignoreVal) && (key == "" || key == c.key)
  }

  /** `ignoredPaths` after the first loop of `getChanges`: the keys of the
      marked changes, in order. The requested key plays no part. */
  function IgnoredPaths(cs: seq<ConsulChange>, ignoreVal: string): (ps: seq<string>)
    ensures |ps| <= |cs|
    ensures forall p :: p in ps <==> exists i :: 0 <= i < |cs| && Marked(cs[i], ignoreVal) && cs[i].key == p
    decreases |cs|
  {
    if |cs| == 0 then []
    else
      var c := cs[|cs| - 1];
      IgnoredPaths(cs[..|cs| - 1], ignoreVal) + (if Marked(c, ignoreVal) then [c.key] else [])
  }

  /** The positions of the raw changes that reach the action switch and
      convert to `ch`. */
  function Origins(cs: seq<ConsulChange>, key: string, ignoreVal: string, ch: KVChange): set<int>
  {
    set i | 0 <= i < |cs| && Selected(cs[i], key, ignoreVal) && Convert(cs[i]) == Some(ch)
  }

  /** Extending the raw list by one change adds its position to the origins
      of its conversion, and nothing else. */
  lemma OriginsSnoc(cs: seq<ConsulChange>, key: string, ignoreVal: string, ch: KVChange)
    requires |cs| > 0
    ensures var n := |cs| - 1;
            var last := Selected(cs[n], key, ignoreVal) && Convert(cs[n]) == Some(ch);
            |Origins(cs, key, ignoreVal, ch)|
              == |Origins(cs[..n], key, ignoreVal, ch)| + (if last then 1 else 0)
  {
    var n := |cs| - 1;
    var before := Origins(cs[..n], key, ignoreVal, ch);
    var all := Origins(cs, key, ignoreVal, ch);
    var hit := Selected(cs[n], key, ignoreVal) && Convert(cs[n]) == Some(ch);
    assert n !in before;
    assert all == before + (if hit then {n} else {}) by {
      forall i
        ensures i in all <==> i in before + (if hit then {n} else {})
      {
        if 0 <= i < n {
          assert cs[..n][i] == cs[i];
        }
      }
    }
  }

  /** What one raw change contributes to `kvChanges`: its conversion when it
      is selected and its action is known, nothing otherwise. */
  function Pick(c: ConsulChange, key: string, ignoreVal: string): (kvs: seq<KVChange>)
    ensures |kvs| <= 1
    ensures forall ch :: ch in kvs <==> Selected(c, key, ignoreVal) && Convert(c) == Some(ch)
  {
    if Selected(c, key, ignoreVal) && Convert(c).Some? then [Convert(c).value] else []
  }

  /** `kvChanges` after the first loop of `getChanges`: the selected changes
      whose action is known, converted, in input order. */
  function Collected(cs: seq<ConsulChange>, key: string, ignoreVal: string): (kvs: seq<KVChange>)
    ensures |kvs| <= |cs|
    ensures forall ch :: ch in kvs <==>
              exists i :: 0 <= i < |cs| && Selected(cs[i], key, ignoreVal) && Convert(cs[i]) == Some(ch)
    decreases |cs|
  {
    if |cs| == 0 then []
    else Collected(cs[..|cs| - 1], key, ignoreVal) + Pick(cs[|cs| - 1], key, ignoreVal)
  }

  /** Each typed change occurs in `Collected` as many times as there are raw
      changes that yield it. */
  lemma {:induction false} CollectedCounts(cs: seq<ConsulChange>, key: string, ignoreVal: string)
    ensures forall ch :: multiset(Collected(cs, key, ignoreVal))[ch] == |Origins(cs, key, ignoreVal, ch)|
    decreases |cs|
  {
    if |cs| == 0 {
      forall ch
        ensures |Origins(cs, key, ignoreVal, ch)| == 0
      {
        assert Origins(cs, key, ignoreVal, ch) == {};
      }
    } else {
      CollectedCounts(cs[..|cs| - 1], key, ignoreVal);
      forall ch
        ensures multiset(Collected(cs, key, ignoreVal))[ch] == |Origins(cs, key, ignoreVal, ch)|
      {
        OriginsSnoc(cs, key, ignoreVal, ch);
      }
    }
  }

  /** The collected changes follow the raw order: those of an earlier part of
      the list come before those of a later part. */
  lemma {:induction false} CollectedAppend(a: seq<ConsulChange>, b: seq<ConsulChange>, key: string, ignoreVal: string)
    ensures Collected(a + b, key, ignoreVal) == Collected(a, key, ignoreVal) + Collected(b, key, ignoreVal)
    decreases |b|
  {
    if |b| == 0 {
      assert a + b == a;
    } else {
      var init := b[..|b| - 1];
      assert (a + b)[..|a + b| - 1] == a + init;
      CollectedAppend(a, init, key, ignoreVal);
      CollectedSnoc(a + b, key, ignoreVal);
      CollectedSnoc(b, key, ignoreVal);
    }
  }

  /** One step of `Collected`'s recursion, stated apart so that callers need
      not unfold its definition. */
  lemma CollectedSnoc(cs: seq<ConsulChange>, key: string, ignoreVal: string)
    requires |cs| > 0
    ensures Collected(cs, key, ignoreVal) == Collected(cs[..|cs| - 1], key, ignoreVal) + Pick(cs[|cs| - 1], key, ignoreVal)
  {
  }

  /** `isPathIgnored`: some ignored path is a plain string prefix of `path`. */
  function IsPathIgnored(path: string, ignoredPaths: seq<string>): (ignored: bool)
    ensures ignored <==> exists i :: 0 <= i < |ignoredPaths| && HasPrefix(path, ignoredPaths[i])
    decreases |ignoredPaths|
  {
    if |ignoredPaths| == 0 then false
    else HasPrefix(path, ignoredPaths[0]) || IsPathIgnored(path, ignoredPaths[1..])
  }

  /** The second loop of `getChanges`: the changes whose key no ignored path
      is a prefix of, in their original order. */
  function Unignored(kvs: seq<KVChange>, ignoredPaths: seq<string>): (out: seq<KVChange>)
    ensures forall ch :: ch in out <==> ch in kvs && !IsPathIgnored(ch.key, ignoredPaths)
    ensures IsSubsequence(out, kvs)
    decreases |kvs|
  {
    if |kvs| == 0 then []
    else
      var ch := kvs[|kvs| - 1];
      var kept := Unignored(kvs[..|kvs| - 1], ignoredPaths);
      if IsPathIgnored(ch.key, ignoredPaths) then kept
      else
        assert (kept + [ch])[..|kept|] == kept;
        kept + [ch]
  }

  /** Each change occurs in `Unignored` as often as in its input when its
      key is not ignored, and not at all otherwise. */
  lemma {:induction false} UnignoredCounts(kvs: seq<KVChange>, ignoredPaths: seq<string>)
    ensures forall ch :: multiset(Unignored(kvs, ignoredPaths))[ch] ==
              if IsPathIgnored(ch.key, ignoredPaths) then 0 else multiset(kvs)[ch]
    decreases |kvs|
  {
    if |kvs| > 0 {
      UnignoredCounts(kvs[..|kvs| - 1], ignoredPaths);
      assert kvs == kvs[..|kvs| - 1] + [kvs[|kvs| - 1]];
    }
  }

  /** `getChanges` on the result of `consul.GetChanges`: an error is passed
      through; otherwise a change survives exactly when it comes from a
      selected raw change with a known action and no ignored path is a
      prefix of its key, each as often as raw changes yield it, and the
      survivors keep their relative order. */
  function GetChanges(raw: Result<seq<ConsulChange>>, key: string, ignoreVal: string): (r: Result<seq<KVChange>>)
    ensures raw.Err? ==> r == Err(raw.msg)
    ensures raw.Ok? ==> r.Ok?
    ensures raw.Ok? ==> forall ch :: ch in r.value <==>
              (exists i :: 0 <= i < |raw.value| && Selected(raw.value[i], key, ignoreVal) && Convert(raw.value[i]) == Some(ch))
              && !IsPathIgnored(ch.key, IgnoredPaths(raw.value, ignoreVal))
    ensures raw.Ok? ==>
              forall ch :: multiset(r.value)[ch] ==
                if IsPathIgnored(ch.key, IgnoredPaths(raw.value, ignoreVal)) then 0
                else |Origins(raw.value, key, ignoreVal, ch)|
    ensures raw.Ok? ==> IsSubsequence(r.value, Collected(raw.value, key, ignoreVal))
  {
    match raw
    case Err(e) => Err(e)
    case Ok(cs) =>
      CollectedCounts(cs, key, ignoreVal);
      UnignoredCounts(Collected(cs, key, ignoreVal), IgnoredPaths(cs, ignoreVal));
      Ok(Unignored(Collected(cs, key, ignoreVal), IgnoredPaths(cs, ignoreVal)))
  }

  /** The first loop of `getChanges`: records the keys of marked changes as
      ignored paths and converts the selected ones. */
  method CollectChanges(cs: seq<ConsulChange>, key: string, ignoreVal: string)
    returns (ignoredPaths: seq<string>, kvChanges: seq<KVChange>)
    ensures ignoredPaths == IgnoredPaths(cs, ignoreVal)
    ensures kvChanges == Collected(cs, key, ignoreVal)
  {
    ignoredPaths := [];
    kvChanges := [];
    for i := 0 to |cs|
      invariant ignoredPaths == IgnoredPaths(cs[..i], ignoreVal)
      invariant kvChanges == Collected(cs[..i], key, ignoreVal)
    {
      var c := cs[i];
      assert cs[..i + 1][..i] == cs[..i];
      if ignoreVal != "" && c.newVal == ignoreVal {
        ignoredPaths := ignoredPaths + [c.key];
        continue;
      }
      if key != "" && key != c.key {
        continue;
      }
      match c.action {
        case ConsulAdd => kvChanges := kvChanges + [Add(c.key, c.newVal)];
        case ConsulRemove => kvChanges := kvChanges + [Remove(c.key, c.val)];
        case ConsulUpdate => kvChanges := kvChanges + [Update(c.key, c.val, c.newVal)];
        case OtherAction(_) =>
      }
    }
    assert cs[..|cs|] == cs;
  }

  /** The second loop of `getChanges`: keeps the changes whose key is not
      ignored. */
  method DropIgnored(kvChanges: seq<KVChange>, ignoredPaths: seq<string>) returns (notIgnored: seq<KVChange>)
    ensures notIgnored == Unignored(kvChanges, ignoredPaths)
  {
    notIgnored := [];
    for j := 0 to |kvChanges|
      invariant notIgnored == Unignored(kvChanges[..j], ignoredPaths)
    {
      assert kvChanges[..j + 1][..j] == kvChanges[..j];
      if IsPathIgnored(kvChanges[j].key, ignoredPaths) {
        continue;
      }
      notIgnored := notIgnored + [kvChanges[j]];
    }
    assert kvChanges[..|kvChanges|] == kvChanges;
  }

  /** `getChanges` as the source computes it: an upstream error is returned,
      otherwise the two loops run one after the other. */
  method ComputeChanges(raw: Result<seq<ConsulChange>>, key: string, ignoreVal: string)
    returns (r: Result<seq<KVChange>>)
    ensures r == GetChanges(raw, key, ignoreVal)
  {
    if raw.Err? {
      return Err(raw.msg);
    }
    var ignoredPaths, kvChanges := CollectChanges(raw.value, key, ignoreVal);
    var notIgnored := DropIgnored(kvChanges, ignoredPaths);
    return Ok(notIgnored);
  }

  /** A marked change never yields a change, its key is recorded as ignored,
      and no surviving change has a key it is a prefix of (so not its own key
      either). This holds whatever key is requested: ignored paths are
      collected before the key filter runs. */
  lemma MarkedKeySuppressed(cs: seq<ConsulChange>, key: string, ignoreVal: string, i: nat)
    requires i < |cs| && Marked(cs[i], ignoreVal)
    ensures cs[i].key in IgnoredPaths(cs, ignoreVal)
    ensures forall ch :: ch in GetChanges(Ok(cs), key, ignoreVal).value ==> !HasPrefix(ch.key, cs[i].key)
  {
  }

  /** With a key requested, every change returned is for that key. */
  lemma RequestedKeyOnly(cs: seq<ConsulChange>, key: string, ignoreVal: string)
    requires key != ""
    ensures forall ch :: ch in GetChanges(Ok(cs), key, ignoreVal).value ==> ch.key == key
  {
  }

  /** With no key requested the key filter removes nothing: every unmarked
      change with a known action whose key is not ignored is returned. */
  lemma NoKeyKeepsAll(cs: seq<ConsulChange>, ignoreVal: string, i: nat)
    requires i < |cs| && !Marked(cs[i], ignoreVal) && Convert(cs[i]).Some?
    requires !IsPathIgnored(cs[i].key, IgnoredPaths(cs, ignoreVal))
    ensures Convert(cs[i]).value in GetChanges(Ok(cs), "", ignoreVal).value
  {
  }

  /** With an empty ignore marker nothing is ignored: the result is every
      selected change, converted, in input order. */
  lemma {:induction false} EmptyMarkerIgnoresNothing(cs: seq<ConsulChange>, key: string)
    ensures IgnoredPaths(cs, "") == []
    ensures GetChanges(Ok(cs), key, "") == Ok(Collected(cs, key, ""))
    decreases |cs|
  {
    if |cs| > 0 {
      EmptyMarkerIgnoresNothing(cs[..|cs| - 1], key);
    }
    UnignoredNoPaths(Collected(cs, key, ""));
  }

  /** Filtering against no ignored paths keeps every change. */
  lemma {:induction false} UnignoredNoPaths(kvs: seq<KVChange>)
    ensures Unignored(kvs, []) == kvs
    decreases |kvs|
  {
    if |kvs| > 0 {
      UnignoredNoPaths(kvs[..|kvs| - 1]);
      assert kvs[..|kvs| - 1] + [kvs[|kvs| - 1]] == kvs;
    }
  }

  /** The prefix test is not aware of path segments: an ignore marker on
      "a/b" also suppresses a change to the sibling key "a/bc", even when
      "a/bc" is the requested key. */
  lemma PrefixNotSegmentAware()
    ensures IsPathIgnored("a/bc", ["a/b"])
    ensures GetChanges(Ok([ConsulChange(ConsulUpdate, "a/b", "x", DefaultIgnoreVal),
                           ConsulChange(ConsulAdd, "a/bc", "", "v")]), "a/bc", DefaultIgnoreVal)
            == Ok([])
  {
    var cs := [ConsulChange(ConsulUpdate, "a/b", "x", DefaultIgnoreVal), ConsulChange(ConsulAdd, "a/bc", "", "v")];
    assert IgnoredPaths(cs, DefaultIgnoreVal) == ["a/b"] by {
      assert cs[..1] == [cs[0]];
      assert cs[..1][..0] == [];
    }
    assert HasPrefix("a/bc", "a/b");
    var kvs := Collected(cs, "a/bc", DefaultIgnoreVal);
    assert Add("a/bc", "v") in kvs;
  }

  /** A marker on a key absent from the store still suppresses the Add that
      would create it. */
  lemma MarkerOnNewKeySuppressesAdd()
    ensures GetChanges(Ok([ConsulChange(ConsulAdd, "key2", "", DefaultIgnoreVal)]), "", DefaultIgnoreVal) == Ok([])
  {
  }

  /** With a storage built by `New` the marker check is always active: a raw
      change carrying the storage's marker suppresses its key's subtree. */
  lemma ConstructedStorageSuppressesMarked(addr: string, urls: UrlParser, newClient: ClientFactory, st: Storage,
                                           cs: seq<ConsulChange>, key: string, i: nat)
    requires New(addr, urls, newClient) == Ok(st)
    requires i < |cs| && cs[i].newVal == st.ignoreVal
    ensures forall ch :: ch in GetChanges(Ok(cs), key, st.ignoreVal).value ==> !HasPrefix(ch.key, cs[i].key)
  {
    MarkedKeySuppressed(cs, key, st.ignoreVal, i);
  }
}
