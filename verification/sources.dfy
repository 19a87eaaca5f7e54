/** Source descriptors (cmd/casper/sources.go): the error type for malformed
    sources, the `config` and `file` getters, and `getMultiSourcer`, which
    turns a list of descriptors into the ordered list of getters it merges. */
module Sources {
  import opened Results
  import opened Seqs
  import opened Urls
  import opened FailFast

  /** `configScheme`: inline `key=value` query pairs. */
  const ConfigScheme: string := "config"

  /** The scheme of a file source; its format comes from the extension. */
  const FileScheme: string := "file"

  /** The message of `errSourceFormat`. */
  const ErrSourceFormat: string := "Sources invalid format"

  const SourceDefinitionPrefix: string := "Invalid source definition: "

  /** `sourceFormatError`: a description and an optional underlying error. */
  datatype SourceFormatError = SourceFormatError(msg: string, err: Option<string>)

  /** `sourceFormatError.Error()`: the fixed prefix and the description,
      followed by " (Err:<cause>)" exactly when there is an underlying error. */
  function FormatErrorMessage(e: SourceFormatError): (s: string)
    ensures HasPrefix(s, SourceDefinitionPrefix + e.msg)
    ensures e.err.None? <==> |s| == |SourceDefinitionPrefix + e.msg|
    ensures e.err.Some? ==> s[|SourceDefinitionPrefix + e.msg|..] == " (Err:" + e.err.value + ")"
  {
    var s := SourceDefinitionPrefix + e.msg;
    if e.err.Some? then s + " (Err:" + e.err.value + ")" else s
  }

  /** The entries of the `sourceTypes` table. */
  datatype SourceKind = ConfigKind | FileKind

  /** What a getter hands to the multi-sourcer: the inline body of a config
      source, or the path and format of a file source. */
  datatype Getter = ConfigGetter(body: map<string, BodyValue>) | FileGetter(path: string, format: string)

  /** The values a config body (`map[string]interface{}`) holds: a single
      query value, or the whole list of a key's values. */
  datatype BodyValue = One(value: string) | Many(values: seq<string>)

  /** The outcome of `os.Open(path)` followed by `source.NewFileSource(r, format)`. */
  datatype FileOutcome = Loaded | OpenFailed(cause: string) | DecodeFailed(cause: string)

  /** File access and decoding, outside the model: path and format to outcome. */
  type FileLoader = (string, string) -> FileOutcome

  /** Everything outside the model a descriptor's resolution depends on. */
  datatype Env = Env(urls: UrlParser, load: FileLoader)

  /** The `sourceTypes` table: only `config` and `file` have a getter. */
  function Lookup(scheme: string): (kind: Option<SourceKind>)
    ensures kind.Some? <==> scheme == ConfigScheme || scheme == FileScheme
    ensures kind == Some(ConfigKind) <==> scheme == ConfigScheme
  {
    if scheme == ConfigScheme then Some(ConfigKind)
    else if scheme == FileScheme then Some(FileKind)
    else None
  }

  /** The URL a descriptor without a scheme stands for: the `config` scheme
      with the whole descriptor as its raw query. */
  function DefaultConfigUrl(s: string): (u: Url)
    ensures u.scheme == ConfigScheme && u.rawQuery == s
  {
    Url(ConfigScheme, "", "", s)
  }

  /** The reference for the body `getConfigSource` builds: every query key
      with the first of its values. */
  function ConfigBody(q: Values): (body: map<string, string>)
    ensures body.Keys == q.Keys
    ensures forall k :: k in body ==> body[k] == q[k][0]
  {
    map k | k in q :: q[k][0]
  }

  /** One pass of the loop in `getConfigSource`, as written: a key with
      several values first stores the whole list, then its first value. */
  function StoreEntry(body: map<string, BodyValue>, k: string, v: ValueList): map<string, BodyValue>
  {
    (if |v| > 1 then body[k := Many(v)] else body)[k := One(v[0])]
  }

  /** The list-valued store is dead: a pass for a key with several values
      leaves the same body as storing just the first value, and the list is
      never seen. */
  lemma ConfigBodyDropsLaterValues(body: map<string, BodyValue>, k: string, v: ValueList)
    requires |v| > 1
    ensures StoreEntry(body, k, v) == body[k := One(v[0])]
    ensures StoreEntry(body, k, v)[k] != Many(v)
  {
  }

  /** The loop of `getConfigSource`, visiting the query's keys in any order
      (Go's map iteration order is unspecified). Whatever the order, the body
      holds every query key with its first value and no list. */
  method BuildConfigBody(q: Values) returns (body: map<string, BodyValue>)
    ensures body.Keys == q.Keys
    ensures forall k :: k in body ==> body[k] == One(ConfigBody(q)[k])
  {
    body := map[];
    var todo := q.Keys;
    while todo != {}
      invariant todo <= q.Keys
      invariant body.Keys == q.Keys - todo
      invariant forall k :: k in body ==> body[k] == One(q[k][0])
      decreases |todo|
    {
      var k :| k in todo;
      var v := q[k];
      body := StoreEntry(body, k, v);
      todo := todo - {k};
    }
  }

  /** `getConfigSource`: never fails; the body holds every key of the URL's
      query with its first value, and no list value survives. */
  function GetConfigSource(u: Url, urls: UrlParser): (r: Result<Getter>)
    ensures r.Ok? && r.value.ConfigGetter?
    ensures r.value.body.Keys == Query(u, urls).Keys
    ensures forall k :: k in r.value.body ==> r.value.body[k].One? && r.value.body[k].value == Query(u, urls)[k][0]
  {
    var q := Query(u, urls);
    Ok(ConfigGetter(map k | k in q :: One(ConfigBody(q)[k])))
  }

  /** `getConfigSource` as the source computes it: the loop builds exactly the
      body `GetConfigSource` describes. */
  method ComputeConfigSource(u: Url, urls: UrlParser) returns (r: Result<Getter>)
    ensures r == GetConfigSource(u, urls)
  {
    var q := Query(u, urls);
    var body := BuildConfigBody(q);
    assert body == map k | k in q :: One(ConfigBody(q)[k]);
    return Ok(ConfigGetter(body));
  }

  /** The format `getFileSource` derives from a path, the last element of
      splitting it at '.': the text after the last '.', a suffix of the path
      without a '.', preceded by a '.' unless it is the whole path, which it
      is exactly when the path has no '.'. */
  function FileFormat(path: string): (format: string)
    ensures '.' !in format
    ensures |format| <= |path| && path[|path| - |format|..] == format
    ensures |format| < |path| ==> path[|path| - |format| - 1] == '.'
    ensures '.' !in path <==> format == path
  {
    var parts := Split(path, '.');
    JoinEndsWithLast(parts, '.');
    parts[|parts| - 1]
  }

  /** `getFileSource`: the host part of the URL is the path, the format is
      taken from it; an open failure is returned as is, a decoding failure is
      wrapped in a `sourceFormatError`. */
  function GetFileSource(u: Url, load: FileLoader): (r: Result<Getter>)
    ensures var outcome := load(u.hostname, FileFormat(u.hostname));
            && (r.Ok? <==> outcome.Loaded?)
            && (r.Ok? ==> r.value == FileGetter(u.hostname, FileFormat(u.hostname)))
            && (outcome.OpenFailed? ==> r == Err(outcome.cause))
            && (outcome.DecodeFailed? ==>
                  r == Err(FormatErrorMessage(SourceFormatError("unable to create file source", Some(outcome.cause)))))
  {
    var path := u.hostname;
    var format := FileFormat(path);
    match load(path, format)
    case OpenFailed(e) => Err(e)
    case DecodeFailed(e) => Err(FormatErrorMessage(SourceFormatError("unable to create file source", Some(e))))
    case Loaded => Ok(FileGetter(path, format))
  }

  /** Calls the getter the `sourceTypes` table holds for `kind`. */
  function GetSourcer(kind: SourceKind, u: Url, env: Env): Result<Getter>
  {
    match kind
    case ConfigKind => GetConfigSource(u, env.urls)
    case FileKind => GetFileSource(u, env.load)
  }

  /** One iteration of `getMultiSourcer`: a parse error is returned as is; a
      descriptor without a scheme becomes a config source whether or not it
      contains '='; any scheme other than `config` and `file` fails with
      `errSourceFormat`. */
  function MultiSourcerStep(s: string, env: Env): (r: Result<Getter>)
    ensures env.urls.parse(s).Err? ==> r == Err(env.urls.parse(s).msg)
    ensures env.urls.parse(s).Ok? && env.urls.parse(s).value.scheme == "" ==>
              r == GetConfigSource(DefaultConfigUrl(s), env.urls)
    ensures env.urls.parse(s).Ok? && env.urls.parse(s).value.scheme != "" ==>
              var u := env.urls.parse(s).value;
              && (Lookup(u.scheme).None? ==> r == Err(ErrSourceFormat))
              && (Lookup(u.scheme).Some? ==> r == GetSourcer(Lookup(u.scheme).value, u, env))
  {
    match env.urls.parse(s)
    case Err(e) => Err(e)
    case Ok(parsed) =>
      var u := if parsed.scheme == "" then DefaultConfigUrl(s) else parsed;
      match Lookup(u.scheme)
      case None => Err(ErrSourceFormat)
      case Some(kind) => GetSourcer(kind, u, env)
  }

  function MultiSourcerStepFn(env: Env): string -> Result<Getter>
  {
    s => MultiSourcerStep(s, env)
  }

  /** `getMultiSourcer` up to the merge: one getter per descriptor, in
      descriptor order; the first failing descriptor's error otherwise. */
  function GetMultiSourcer(srcs: seq<string>, env: Env): (r: Result<seq<Getter>>)
    ensures r.Ok? ==> |r.value| == |srcs|
                      && forall i :: 0 <= i < |srcs| ==> MultiSourcerStep(srcs[i], env) == Ok(r.value[i])
    ensures r.Err? ==> exists i :: 0 <= i < |srcs| && MultiSourcerStep(srcs[i], env) == Err(r.msg)
                                   && forall j :: 0 <= j < i ==> MultiSourcerStep(srcs[j], env).Ok?
  {
    MapAll(srcs, MultiSourcerStepFn(env))
  }
}
