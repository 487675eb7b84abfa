/** The server configuration as the exported initialisation function of
    lib/odata.ts normalises it: a page-size default, the OData prefix taken
    from the mount path, a protocol-version default, and the choice of the
    handler set for that version. */
module ServerConfig {

  import opened Values
  import opened StringSplit
  import opened VersionRouter

  /** A snapshot of the fields of a configuration object. */
  datatype ConfigValue = ConfigValue(
    maxpagesize: Option<int>,
    path: Option<string>,
    odataPrefix: Option<string>,
    odataversion: Option<string>)

  /** The object literal `{}`. */
  const EmptyConfig := ConfigValue(None, None, None, None)

  /** The options object handed to the initialisation function. The function
      keeps a reference to it and writes its defaults into it in place. */
  class Options {
    var maxpagesize: Option<int>
    var path: Option<string>
    var odataPrefix: Option<string>
    var odataversion: Option<string>

    constructor (v: ConfigValue)
      ensures Value() == v
    {
      maxpagesize := v.maxpagesize;
      path := v.path;
      odataPrefix := v.odataPrefix;
      odataversion := v.odataversion;
    }

    function Value(): ConfigValue
      reads this
    {
      ConfigValue(maxpagesize, path, odataPrefix, odataversion)
    }
  }

  /** `if (!maxpagesize) maxpagesize = ODATA_MAXPAGESIZE`, with the
      constant passed in as `fallback`. */
  function DefaultMaxPageSize(m: Option<int>, fallback: int): (r: Option<int>)
    ensures IsTruthyNumber(m) ==> r == m
    ensures !IsTruthyNumber(m) ==> r == Some(fallback)
    ensures fallback != 0 ==> IsTruthyNumber(r)
  {
    if IsTruthyNumber(m) then m else Some(fallback)
  }

  /** `path.split('/')[1]`: the second '/'-separated segment of the mount
      path, `undefined` when the path holds no '/'. */
  function OdataPrefix(path: string): (r: Option<string>)
    ensures r.Some? <==> '/' in path
    ensures r.Some? ==> '/' !in r.value && r.value in Split(path, '/')
  {
    var parts := Split(path, '/');
    if |parts| > 1 then Some(parts[1]) else None
  }

  /** The prefix is the segment after the first '/': for a mount path
      "/odata" or "/odata/rest" it is "odata", and for a path without a
      leading slash such as "api/odata" it is the second segment. */
  lemma {:induction false} PrefixIsSecondSegment(first: string, seg: string, rest: string)
    requires '/' !in first && '/' !in seg
    ensures OdataPrefix(first + "/" + seg) == Some(seg)
    ensures OdataPrefix(first + "/" + seg + "/" + rest) == Some(seg)
  {
    SplitWithoutSeparator(seg, '/');
    SplitAfterPiece(first, '/', seg);
    SplitAfterPiece(seg, '/', rest);
    SplitAfterPiece(first, '/', seg + "/" + rest);
    assert first + "/" + seg + "/" + rest == first + ['/'] + (seg + ['/'] + rest);
  }

  /** `if (!odataversion) odataversion = "4"`. */
  function DefaultVersion(v: Option<string>): (r: Option<string>)
    ensures IsTruthyString(r)
    ensures IsTruthyString(v) ==> r == v
    ensures r != v ==> r == Some("4")
  {
    if IsTruthyString(v) then v else Some("4")
  }

  /** The version test `=== "4"` / `=== "2"`; any other value selects no
      handler set (the source only logs it). */
  function SelectVersion(v: Option<string>): (r: Option<ODataVersion>)
    ensures r == Some(V4) <==> v == Some("4")
    ensures r == Some(V2) <==> v == Some("2")
  {
    if v == Some("4") then Some(V4)
    else if v == Some("2") then Some(V2)
    else None
  }

  /** What initialisation leaves in the configuration object, and which
      handler set it selects; reading `path` of `undefined` throws. */
  datatype InitStep =
    | Normalized(config: ConfigValue, selected: Option<ODataVersion>)
    | PathTypeError(config: ConfigValue)

  /** The field updates of lib/odata.ts:29-49 on a configuration `c`. The
      page size is defaulted before the path is read, so it is defaulted
      even when reading the path throws. */
  function Initialize(c: ConfigValue, fallback: int): (r: InitStep)
    ensures r.PathTypeError? <==> c.path.None?
    ensures r.config.path == c.path
    ensures r.config.maxpagesize == DefaultMaxPageSize(c.maxpagesize, fallback)
    ensures fallback != 0 ==> IsTruthyNumber(r.config.maxpagesize)
    ensures IsTruthyNumber(c.maxpagesize) ==> r.config.maxpagesize == c.maxpagesize
    ensures r.PathTypeError? ==>
              r.config.odataPrefix == c.odataPrefix && r.config.odataversion == c.odataversion
    ensures r.Normalized? ==>
              && IsTruthyString(r.config.odataversion)
              && r.config.odataPrefix == OdataPrefix(c.path.value)
              && (IsTruthyString(c.odataversion) ==> r.config.odataversion == c.odataversion)
              && r.config.odataversion == DefaultVersion(c.odataversion)
              && r.selected == SelectVersion(r.config.odataversion)
    ensures r.Normalized? ==>
              (r.selected == Some(V4) <==> !IsTruthyString(c.odataversion) || c.odataversion == Some("4"))
    ensures r.Normalized? ==> (r.selected == Some(V2) <==> c.odataversion == Some("2"))
  {
    var c1 := c.(maxpagesize := DefaultMaxPageSize(c.maxpagesize, fallback));
    match c.path
    case None => PathTypeError(c1)
    case Some(p) =>
      var c2 := c1.(odataPrefix := OdataPrefix(p));
      var c3 := c2.(odataversion := DefaultVersion(c2.odataversion));
      Normalized(c3, SelectVersion(c3.odataversion))
  }

  /** Initialising again with an already initialised configuration changes
      nothing and selects the same handler set. */
  lemma InitializeIdempotent(c: ConfigValue, fallback: int)
    ensures Initialize(Initialize(c, fallback).config, fallback) == Initialize(c, fallback)
  {
  }
}
