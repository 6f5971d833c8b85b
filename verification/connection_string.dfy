/**
 * The asyncpg connection URL the manager builds from a configuration dict,
 * and a reference reading of such URLs back into their five parts.
 */
module ConnectionString {
  import opened Wrappers
  import opened PyValues

  /** A connection configuration dict (`Dict[str, Any]`). */
  type Config = map<string, Value>

  const Scheme: string := "postgresql+asyncpg://"

  /** The keys the URL template reads, in the order the f-string evaluates them. */
  const KeyOrder: seq<string> := ["username", "password", "host", "port", "database"]

  /** The five rendered fields of a connection URL. */
  datatype UrlParts = UrlParts(username: string, password: string, host: string, port: string, database: string)

  /** The URL template: scheme, then `user:password@host:port/database`. */
  function Render(p: UrlParts): string {
    Scheme + (p.username + ":" + (p.password + "@" + (p.host + ":" + (p.port + "/" + p.database))))
  }

  predicate HasAllKeys(cfg: Config) {
    forall i :: 0 <= i < |KeyOrder| ==> KeyOrder[i] in cfg
  }

  /** The fields of `cfg` as the f-string prints them. */
  function FormattedParts(cfg: Config): UrlParts
    requires HasAllKeys(cfg)
  {
    assert KeyOrder[0] in cfg && KeyOrder[1] in cfg && KeyOrder[2] in cfg;
    assert KeyOrder[3] in cfg && KeyOrder[4] in cfg;
    UrlParts(Format(cfg["username"]), Format(cfg["password"]), Format(cfg["host"]),
             Format(cfg["port"]), Format(cfg["database"]))
  }

  /**
   * `_build_connection_string`: the URL, or the `KeyError` of the first key
   * the template reads that is missing from `cfg`.
   */
  function Build(cfg: Config): (r: Result<string, string>)
    ensures r.Success? <==> HasAllKeys(cfg)
    ensures r.Success? ==> r.value == Render(FormattedParts(cfg))
    ensures r.Failure? ==>
      exists j :: 0 <= j < |KeyOrder| && KeyOrder[j] == r.error && r.error !in cfg &&
        forall i :: 0 <= i < j ==> KeyOrder[i] in cfg
  {
    assert KeyOrder[0] == "username" && KeyOrder[1] == "password" && KeyOrder[2] == "host";
    assert KeyOrder[3] == "port" && KeyOrder[4] == "database";
    if "username" !in cfg then Failure("username")
    else if "password" !in cfg then Failure("password")
    else if "host" !in cfg then Failure("host")
    else if "port" !in cfg then Failure("port")
    else if "database" !in cfg then Failure("database")
    else
      Success(Render(FormattedParts(cfg)))
  }

  /** Splits `s` at the first occurrence of `sep`. */
  function SplitAt(s: string, sep: char): (r: Option<(string, string)>)
    ensures r.None? <==> sep !in s
    ensures r.Some? ==> sep !in r.value.0 && s == r.value.0 + [sep] + r.value.1
  {
    if |s| == 0 then None
    else if s[0] == sep then Some(([], s[1..]))
    else
      match SplitAt(s[1..], sep)
      case None => None
      case Some((a, b)) => Some(([s[0]] + a, b))
  }

  /**
   * Reads a URL of the template's shape back into its parts, taking each
   * delimiter at its first occurrence.
   */
  function Parse(url: string): (r: Option<UrlParts>)
    ensures r.Some? ==> Render(r.value) == url
  {
    if |url| < |Scheme| || url[..|Scheme|] != Scheme then None
    else
      match SplitAt(url[|Scheme|..], ':')
      case None => None
      case Some((user, r1)) =>
        match SplitAt(r1, '@')
        case None => None
        case Some((password, r2)) =>
          match SplitAt(r2, ':')
          case None => None
          case Some((host, r3)) =>
            match SplitAt(r3, '/')
            case None => None
            case Some((port, database)) =>
              assert url == Scheme + url[|Scheme|..];
              Some(UrlParts(user, password, host, port, database))
  }

  /** The parts contain no delimiter that would be taken for an earlier one. */
  predicate Unambiguous(p: UrlParts) {
    ':' !in p.username && '@' !in p.password && ':' !in p.host && '/' !in p.port
  }

  lemma {:induction false} SplitAtFirst(a: string, sep: char, b: string)
    requires sep !in a
    ensures SplitAt(a + [sep] + b, sep) == Some((a, b))
  {
    var s := a + [sep] + b;
    if |a| == 0 {
      assert s == [sep] + b;
      assert s[1..] == b;
    } else {
      assert s[0] == a[0];
      assert s[1..] == a[1..] + [sep] + b;
      SplitAtFirst(a[1..], sep, b);
      assert [a[0]] + a[1..] == a;
    }
  }

  /** Rendering then reading back recovers the parts when none holds a later delimiter. */
  lemma ParseRender(p: UrlParts)
    requires Unambiguous(p)
    ensures Parse(Render(p)) == Some(p)
  {
    var url := Render(p);
    var r3 := p.port + "/" + p.database;
    var r2 := p.host + ":" + r3;
    var r1 := p.password + "@" + r2;
    var rest := p.username + ":" + r1;
    assert url == Scheme + rest;
    assert url[..|Scheme|] == Scheme;
    assert url[|Scheme|..] == rest;
    SplitAtFirst(p.username, ':', r1);
    SplitAtFirst(p.password, '@', r2);
    SplitAtFirst(p.host, ':', r3);
    SplitAtFirst(p.port, '/', p.database);
  }

  /** An int port never renders with a '/', so it cannot swallow the database name. */
  lemma IntPortHasNoSlash(i: int)
    ensures '/' !in Format(Int(i))
  {
    var r := Format(Int(i));
    assert forall k :: 0 <= k < |r| ==> IsDigit(r[k]) || r[k] == '-';
  }

  /**
   * The URL built from a complete configuration reads back as the configured
   * fields, provided no field holds a later delimiter.
   */
  lemma BuildRoundTrip(cfg: Config)
    requires HasAllKeys(cfg)
    requires Unambiguous(FormattedParts(cfg))
    ensures Build(cfg).Success?
    ensures Parse(Build(cfg).value) == Some(FormattedParts(cfg))
  {
    ParseRender(FormattedParts(cfg));
  }

  /**
   * With an int port, the port can never be mistaken for part of the
   * database name, so only the credentials and host need to be free of
   * delimiters for the URL to read back as the configured fields.
   */
  lemma BuildRoundTripIntPort(cfg: Config)
    requires HasAllKeys(cfg)
    requires "port" in cfg && cfg["port"].Int?
    requires var p := FormattedParts(cfg);
      ':' !in p.username && '@' !in p.password && ':' !in p.host
    ensures Build(cfg).Success?
    ensures Parse(Build(cfg).value) == Some(FormattedParts(cfg))
  {
    IntPortHasNoSlash(cfg["port"].i);
    BuildRoundTrip(cfg);
  }

  /**
   * Two complete configurations that differ only in their int port give
   * different URLs, provided the other fields hold no later delimiter.
   */
  lemma BuildDistinguishesIntPorts(cfg: Config, port: int)
    requires HasAllKeys(cfg)
    requires "port" in cfg && cfg["port"].Int? && cfg["port"].i != port
    requires var p := FormattedParts(cfg);
      ':' !in p.username && '@' !in p.password && ':' !in p.host
    ensures Build(cfg) != Build(cfg["port" := Int(port)])
  {
    var other := cfg["port" := Int(port)];
    assert KeyOrder[3] == "port";
    assert HasAllKeys(other);
    BuildRoundTripIntPort(cfg);
    BuildRoundTripIntPort(other);
    if Build(cfg) == Build(other) {
      assert FormattedParts(cfg).port == FormattedParts(other).port;
      IntToStringInjective(cfg["port"].i, port);
      assert false;
    }
  }

  /**
   * Credentials are inserted without escaping: a password holding '@' and a
   * host holding '@' can render the same URL.
   */
  lemma RenderNotInjective()
    ensures exists p: UrlParts, q: UrlParts :: p != q && Render(p) == Render(q)
  {
    var p := UrlParts("a", "b@c", "d", "5432", "app");
    var q := UrlParts("a", "b", "c@d", "5432", "app");
    assert p.password != q.password;
    assert Render(p) == Render(q);
  }

  /** An empty configuration fails on the first key the template reads. */
  lemma EmptyConfigMissesUsername()
    ensures Build(map[]) == Failure("username")
  {
  }
}
