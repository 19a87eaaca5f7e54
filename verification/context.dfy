/** The command context (cmd/casper/context.go): `newContext` and its
    functional options, and the `withSources` option, which classifies the
    source descriptors given on the command line. */
module CasperContext {
  import opened Results
  import opened Sources
  import opened FailFast

  /** The context fields this model follows: the config path and the source
      list handed to the multi-sourcer (unset until `withSources` succeeds). */
  datatype Context = Context(path: string, source: Option<seq<Getter>>)

  /** What a functional option leaves behind: the context as it updated it,
      and the error it returned, if any. */
  datatype Applied = Applied(ctx: Context, err: Option<string>)

  /** A functional option, `func(*context) error`. */
  type ContextOption = Context -> Applied

  /** The loop of `newContext`: options run left to right on the context the
      earlier ones produced; the first error ends the loop. */
  function RunOptions(c: Context, opts: seq<ContextOption>): (r: Result<Context>)
    ensures r.Err? ==> exists i, d :: 0 <= i < |opts| && opts[i](d).err == Some(r.msg)
    decreases |opts|
  {
    if |opts| == 0 then Ok(c)
    else
      var a := opts[0](c);
      if a.err.Some? then
        assert opts[0](c).err == Some(a.err.value);
        Err(a.err.value)
      else
        assert forall i :: 0 <= i < |opts| - 1 ==> opts[1..][i] == opts[i + 1];
        RunOptions(a.ctx, opts[1..])
  }

  /** Options that never return an error let the loop run to the end; this
      follows from `RunOptions` naming the option behind any error. */
  lemma OptionsThatNeverFailSucceed(c: Context, opts: seq<ContextOption>)
    requires forall i, d :: 0 <= i < |opts| ==> opts[i](d).err.None?
    ensures RunOptions(c, opts).Ok?
  {
  }

  /** `newContext`: a context holding only the path, then every option. */
  function NewContext(path: string, opts: seq<ContextOption>): (r: Result<Context>)
    ensures opts == [] ==> r == Ok(Context(path, None))
  {
    RunOptions(Context(path, None), opts)
  }

  /** Running `a + b` is running `a`, then `b` on its context; if `a` fails,
      `b` plays no part in the result. */
  lemma {:induction false} OptionsRunLeftToRight(c: Context, a: seq<ContextOption>, b: seq<ContextOption>)
    ensures RunOptions(c, a + b) == match RunOptions(c, a)
                                    case Ok(c') => RunOptions(c', b)
                                    case Err(e) => Err(e)
    decreases |a|
  {
    if |a| == 0 {
      assert a + b == b;
    } else {
      assert (a + b)[0] == a[0];
      assert (a + b)[1..] == a[1..] + b;
      var x := a[0](c);
      if x.err.None? {
        OptionsRunLeftToRight(x.ctx, a[1..], b);
      }
    }
  }

  /** The first option that fails decides the result: `newContext` returns
      its error and no context, and the options after it are not run, so
      replacing them changes nothing. */
  lemma FirstOptionErrorAborts(path: string, opts: seq<ContextOption>, i: nat, c: Context, rest: seq<ContextOption>)
    requires i < |opts|
    requires RunOptions(Context(path, None), opts[..i]) == Ok(c)
    requires opts[i](c).err.Some?
    ensures NewContext(path, opts) == Err(opts[i](c).err.value)
    ensures NewContext(path, opts[..i + 1] + rest) == Err(opts[i](c).err.value)
  {
    var init := Context(path, None);
    assert RunOptions(c, [opts[i]]) == Err(opts[i](c).err.value);
    assert opts[..i + 1] == opts[..i] + [opts[i]];
    OptionsRunLeftToRight(init, opts[..i], [opts[i]]);
    OptionsRunLeftToRight(init, opts[..i + 1], rest);
    assert opts == opts[..i + 1] + opts[i + 1..];
    OptionsRunLeftToRight(init, opts[..i + 1], opts[i + 1..]);
  }

  /** One iteration of `withSources`: a parse error is wrapped with the
      descriptor; a descriptor without a scheme must contain '=' and then
      becomes a config source whose raw query is the whole descriptor; any
      scheme other than `config` and `file` is rejected by name. */
  function SourceStep(s: string, env: Env): (r: Result<Getter>)
    ensures env.urls.parse(s).Err? ==> r == Err(Wrap("parsing source " + s + " failed", env.urls.parse(s).msg))
    ensures env.urls.parse(s).Ok? && env.urls.parse(s).value.scheme == "" ==>
              && ('=' !in s ==> r == Err("invalid source: " + s))
              && ('=' in s ==> r == GetConfigSource(DefaultConfigUrl(s), env.urls))
    ensures env.urls.parse(s).Ok? && env.urls.parse(s).value.scheme != "" ==>
              var u := env.urls.parse(s).value;
              && (Lookup(u.scheme).None? ==> r == Err("invalid source format " + u.scheme))
              && (Lookup(u.scheme).Some? ==> r == GetSourcer(Lookup(u.scheme).value, u, env))
  {
    match env.urls.parse(s)
    case Err(e) => Err(Wrap("parsing source " + s + " failed", e))
    case Ok(parsed) =>
      if parsed.scheme == "" && '=' !in s then Err("invalid source: " + s)
      else
        var u := if parsed.scheme == "" then DefaultConfigUrl(s) else parsed;
        match Lookup(u.scheme)
        case None => Err("invalid source format " + u.scheme)
        case Some(kind) => GetSourcer(kind, u, env)
  }

  function SourceStepFn(env: Env): string -> Result<Getter>
  {
    s => SourceStep(s, env)
  }

  /** The `sourceList` `withSources` builds: one getter per descriptor, in
      descriptor order; the first failing descriptor's error otherwise. */
  function SourceList(descs: seq<string>, env: Env): (r: Result<seq<Getter>>)
    ensures r.Ok? ==> |r.value| == |descs|
                      && forall i :: 0 <= i < |descs| ==> SourceStep(descs[i], env) == Ok(r.value[i])
    ensures r.Err? ==> exists i :: 0 <= i < |descs| && SourceStep(descs[i], env) == Err(r.msg)
                                   && forall j :: 0 <= j < i ==> SourceStep(descs[j], env).Ok?
  {
    MapAll(descs, SourceStepFn(env))
  }

  /** `c.withSources(descs)`: on failure the context is left as it was, its
      source still unset; on success the source is the getter list. */
  function ApplySources(c: Context, descs: seq<string>, env: Env): (a: Applied)
    ensures a.err.Some? <==> SourceList(descs, env).Err?
    ensures a.err.Some? ==> a.ctx == c && a.err.value == SourceList(descs, env).msg
    ensures a.err.None? ==> a.ctx == c.(source := Some(SourceList(descs, env).value))
  {
    match SourceList(descs, env)
    case Err(e) => Applied(c, Some(e))
    case Ok(gs) => Applied(c.(source := Some(gs)), None)
  }

  /** The `withSources` option. */
  function WithSources(descs: seq<string>, env: Env): ContextOption
  {
    c => ApplySources(c, descs, env)
  }

  /** `withSources` is stricter than `getMultiSourcer`: whatever it accepts,
      `getMultiSourcer` turns into the same getter, and the only descriptors
      it rejects that `getMultiSourcer` accepts have no scheme and no '='. */
  lemma SourceStepStricterThanMultiSourcer(s: string, env: Env)
    ensures SourceStep(s, env).Ok? ==> MultiSourcerStep(s, env) == SourceStep(s, env)
    ensures SourceStep(s, env).Err? && MultiSourcerStep(s, env).Ok? <==>
              env.urls.parse(s).Ok? && env.urls.parse(s).value.scheme == "" && '=' !in s
  {
  }

  /** Lifted to descriptor lists: when `withSources` accepts a list,
      `getMultiSourcer` produces the same getters. */
  lemma SourceListAgreesWithMultiSourcer(descs: seq<string>, env: Env)
    requires SourceList(descs, env).Ok?
    ensures GetMultiSourcer(descs, env) == SourceList(descs, env)
  {
    var gs := SourceList(descs, env).value;
    forall i | 0 <= i < |descs|
      ensures MultiSourcerStep(descs[i], env) == Ok(gs[i])
    {
      SourceStepStricterThanMultiSourcer(descs[i], env);
    }
    var m := GetMultiSourcer(descs, env);
    assert m.Ok?;
    assert m.value == gs;
  }

  /** The descriptor "key:val" parses with scheme "key", so `newContext`
      with `withSources(["key:val"])` fails with "invalid source format key"
      and returns no context. */
  lemma KeyColonValRejected(path: string, env: Env)
    requires env.urls.parse("key:val").Ok? && env.urls.parse("key:val").value.scheme == "key"
    ensures NewContext(path, [WithSources(["key:val"], env)]) == Err("invalid source format key")
  {
  }

  /** A descriptor without a scheme and without '=' is rejected by
      `withSources` but accepted by `getMultiSourcer` as a config source. */
  lemma BareWordRejectedOnlyByContext(s: string, env: Env)
    requires env.urls.parse(s).Ok? && env.urls.parse(s).value.scheme == "" && '=' !in s
    ensures SourceList([s], env) == Err("invalid source: " + s)
    ensures GetMultiSourcer([s], env).Ok?
  {
  }
}
