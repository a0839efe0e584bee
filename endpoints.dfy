/**
 * The fixed table of logical endpoints and `parseTargetURL`, which turns a
 * request path `/<endpoint>/<rest>` into the upstream URL `<base>/<rest>`.
 */
module Endpoints {
  import opened Wrappers
  import opened Text

  /** `ENDPOINTS`: logical endpoint name to upstream base URL. */
  const Endpoints: map<string, string> := map[
    "jitoNY" := "https://ny.mainnet.block-engine.jito.wtf",
    "jitoTOKIO" := "https://tokyo.mainnet.block-engine.jito.wtf",
    "jitoSLC" := "https://slc.mainnet.block-engine.jito.wtf",
    "jitoAMSTERDAM" := "https://amsterdam.mainnet.block-engine.jito.wtf",
    "jitoFRANKFURT" := "https://frankfurt.mainnet.block-engine.jito.wtf",
    "jitoLONDON" := "https://london.mainnet.block-engine.jito.wtf"
  ]

  datatype ParseError = UnknownEndpoint(key: string)

  /** `strings.TrimPrefix(path, "/")`: at most one leading slash goes. */
  function TrimLeadingSlash(path: string): string {
    if |path| > 0 && path[0] == '/' then path[1..] else path
  }

  /** `strings.SplitN(s, "/", 2)`: the text before the first slash, and the rest if there is a slash. */
  function SplitFirst(s: string): (parts: seq<string>)
    ensures 1 <= |parts| <= 2
    ensures '/' !in parts[0]
    ensures |parts| == 1 <==> '/' !in s
    ensures |parts| == 1 ==> parts[0] == s
    ensures |parts| == 2 ==> s == parts[0] + "/" + parts[1]
  {
    var i := IndexOf(s, '/');
    if i == |s| then [s]
    else
      assert s == s[..i] + "/" + s[i + 1..];
      [s[..i], s[i + 1..]]
  }

  /** The endpoint key of a path: the text up to the first slash after one leading slash. */
  function KeyOf(path: string): (key: string)
    ensures '/' !in key
  {
    SplitFirst(TrimLeadingSlash(path))[0]
  }

  /**
   * `parseTargetURL`: the key is the text up to the first slash after one leading
   * slash is removed; an unknown key is an error; otherwise the base URL followed
   * by `/` and whatever came after that slash (just `/` when there was none).
   */
  function ParseTargetURL(path: string): (r: Result<string, ParseError>)
    ensures r.Success? <==> KeyOf(path) in Endpoints
    ensures r.Failure? ==> r.error == UnknownEndpoint(KeyOf(path))
    ensures r.Success? ==> Endpoints[KeyOf(path)] + "/" <= r.value
  {
    var parts := SplitFirst(TrimLeadingSlash(path));
    var key := parts[0];
    if key !in Endpoints then
      Failure(UnknownEndpoint(key))
    else
      var remainingPath := if |parts| > 1 then "/" + parts[1] else "/";
      assert Endpoints[key] + "/" <= Endpoints[key] + remainingPath;
      Success(Endpoints[key] + remainingPath)
  }

  lemma SplitAtKey(key: string, rest: string)
    requires '/' !in key
    ensures SplitFirst(key + "/" + rest) == [key, rest]
  {
    var s := key + "/" + rest;
    assert s[|key|] == '/';
    assert forall j :: 0 <= j < |key| ==> s[j] == key[j];
    assert IndexOf(s, '/') == |key|;
    assert s[..|key|] == key && s[|key| + 1..] == rest;
  }

  /** `/K/rest` goes to the base URL of K followed by `/rest`; `/K/` to the base URL and `/`. */
  lemma TargetOfKeyAndRest(key: string, rest: string)
    requires '/' !in key
    ensures ParseTargetURL("/" + key + "/" + rest) ==
              if key in Endpoints then Success(Endpoints[key] + "/" + rest)
              else Failure(UnknownEndpoint(key))
  {
    var path := "/" + key + "/" + rest;
    assert TrimLeadingSlash(path) == key + "/" + rest;
    SplitAtKey(key, rest);
    if key in Endpoints {
      assert Endpoints[key] + ("/" + rest) == Endpoints[key] + "/" + rest;
    }
  }

  /** `/K` goes to the base URL of K followed by `/`. */
  lemma TargetOfKeyAlone(key: string)
    requires '/' !in key
    ensures ParseTargetURL("/" + key) ==
              if key in Endpoints then Success(Endpoints[key] + "/")
              else Failure(UnknownEndpoint(key))
  {
    assert TrimLeadingSlash("/" + key) == key;
  }

  /** A path without a leading slash is read as if it had one: only one slash is ever stripped. */
  lemma LeadingSlashOptional(path: string)
    requires path == [] || path[0] != '/'
    ensures ParseTargetURL(path) == ParseTargetURL("/" + path)
  {
    assert TrimLeadingSlash("/" + path) == path;
  }

  /** The empty key names no endpoint: `""`, `"/"` and every `"//x"` are rejected. */
  lemma EmptyKeyRejected(rest: string)
    ensures ParseTargetURL("") == Failure(UnknownEndpoint(""))
    ensures ParseTargetURL("/") == Failure(UnknownEndpoint(""))
    ensures ParseTargetURL("//" + rest) == Failure(UnknownEndpoint(""))
  {
    assert "" !in Endpoints;
    TargetOfKeyAlone("");
    assert "/" + "" == "/";
    TargetOfKeyAndRest("", rest);
    assert "/" + "" + "/" + rest == "//" + rest;
  }
}
