/** The parts of Go's `net/url` the source relies on. Parsing itself
    (`url.Parse`, the scheme syntax of section 3.1 of RFC 3986, and
    `url.ParseQuery`) is outside the model: a `UrlParser` supplies it. */
module Urls {
  import opened Results

  /** The values of one query key. `url.ParseQuery` only creates a key
      together with a value, so the list is never empty. */
  type ValueList = vs: seq<string> | |vs| > 0 witness [""]

  /** `url.Values`: each query key with its values in order of appearance. */
  type Values = map<string, ValueList>

  /** The fields of a parsed `url.URL` that the source reads: `Scheme`,
      `Host`, the result of `Hostname()` and `RawQuery`. */
  datatype Url = Url(scheme: string, host: string, hostname: string, rawQuery: string)

  /** `url.Parse` and `url.ParseQuery`, supplied from outside the model. */
  datatype UrlParser = UrlParser(parse: string -> Result<Url>, parseQuery: string -> Values)

  /** `u.Query()`. */
  function Query(u: Url, urls: UrlParser): Values
  {
    urls.parseQuery(u.rawQuery)
  }

  /** `url.Values.Get`: the first value of the key, or "" when it is absent. */
  function Get(q: Values, key: string): string
  {
    if key in q then q[key][0] else ""
  }
}
