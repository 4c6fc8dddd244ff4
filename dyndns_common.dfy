/** What the two dynamic-DNS updaters (dyndns.go and dyndns/dyndns.go) share:
    the four settings read from the environment at start-up, the list of
    those left empty and its error message, Go's `net.IP` as far as it is
    compared and printed, and the results of the calls to the outside
    (the ip-api.com lookup and the dyndns client's `Update`). */
module DynDnsCommon {
  import opened Wrappers
  import opened Text

  /** DYNDNS_DOMAIN, DYNDNS_SERVER, DYNDNS_USERNAME and DYNDNS_PASSWORD. */
  datatype Config = Config(domain: string, server: string, username: string, password: string)

  const SettingNames: seq<string> := ["DYNDNS_DOMAIN", "DYNDNS_SERVER", "DYNDNS_USERNAME", "DYNDNS_PASSWORD"]

  function SettingValues(cfg: Config): (values: seq<string>)
    ensures |values| == |SettingNames|
  {
    [cfg.domain, cfg.server, cfg.username, cfg.password]
  }

  /** The names whose value is empty, in their original order. */
  function Unset(names: seq<string>, values: seq<string>): (r: seq<string>)
    requires |names| == |values|
    ensures |r| <= |names|
    decreases |names|
  {
    if names == [] then []
    else
      var n := |names| - 1;
      Unset(names[..n], values[..n]) + (if values[n] == "" then [names[n]] else [])
  }

  /** `sub` can be obtained from `s` by deleting elements. */
  predicate IsSubsequence(sub: seq<string>, s: seq<string>)
    decreases |s|
  {
    if sub == [] then true
    else if s == [] then false
    else
      (sub[|sub| - 1] == s[|s| - 1] && IsSubsequence(sub[..|sub| - 1], s[..|s| - 1]))
      || IsSubsequence(sub, s[..|s| - 1])
  }

  /** The unset list keeps the order of the names. */
  lemma {:induction false} UnsetKeepsOrder(names: seq<string>, values: seq<string>)
    requires |names| == |values|
    ensures IsSubsequence(Unset(names, values), names)
    decreases |names|
  {
    if names != [] {
      var n := |names| - 1;
      var rest := Unset(names[..n], values[..n]);
      UnsetKeepsOrder(names[..n], values[..n]);
      if values[n] == "" {
        assert Unset(names, values) == rest + [names[n]];
        assert (rest + [names[n]])[..|rest|] == rest;
      } else {
        assert Unset(names, values) == rest;
        if rest != [] {
          assert IsSubsequence(rest, names[..n]);
        }
      }
    }
  }

  /** A name is listed exactly when some position holds it with an empty value. */
  lemma {:induction false} UnsetMembers(names: seq<string>, values: seq<string>, x: string)
    requires |names| == |values|
    ensures x in Unset(names, values) <==> exists i :: 0 <= i < |names| && names[i] == x && values[i] == ""
    decreases |names|
  {
    if names != [] {
      var n := |names| - 1;
      UnsetMembers(names[..n], values[..n], x);
      if exists i :: 0 <= i < |names| && names[i] == x && values[i] == "" {
        var i :| 0 <= i < |names| && names[i] == x && values[i] == "";
        if i < n {
          assert names[..n][i] == x && values[..n][i] == "";
        }
      }
      if exists i :: 0 <= i < n && names[..n][i] == x && values[..n][i] == "" {
        var i :| 0 <= i < n && names[..n][i] == x && values[..n][i] == "";
        assert names[i] == x && values[i] == "";
      }
    }
  }

  /** A setting is listed exactly when it is empty, and the list keeps the fixed order. */
  lemma UnsetExactlyEmpty(cfg: Config)
    ensures "DYNDNS_DOMAIN" in Unset(SettingNames, SettingValues(cfg)) <==> cfg.domain == ""
    ensures "DYNDNS_SERVER" in Unset(SettingNames, SettingValues(cfg)) <==> cfg.server == ""
    ensures "DYNDNS_USERNAME" in Unset(SettingNames, SettingValues(cfg)) <==> cfg.username == ""
    ensures "DYNDNS_PASSWORD" in Unset(SettingNames, SettingValues(cfg)) <==> cfg.password == ""
    ensures IsSubsequence(Unset(SettingNames, SettingValues(cfg)), SettingNames)
  {
    var values := SettingValues(cfg);
    UnsetKeepsOrder(SettingNames, values);
    UnsetAt(values, 0);
    UnsetAt(values, 1);
    UnsetAt(values, 2);
    UnsetAt(values, 3);
  }

  /** The setting at position `k` is listed exactly when its value is empty. */
  lemma UnsetAt(values: seq<string>, k: nat)
    requires |values| == 4 && k < 4
    ensures SettingNames[k] in Unset(SettingNames, values) <==> values[k] == ""
  {
    UnsetMembers(SettingNames, values, SettingNames[k]);
  }

  /** The check both `Run` functions start with: one `append` per empty
      setting, tested in the fixed order domain, server, username, password. */
  method UnsetSettings(cfg: Config) returns (unset: seq<string>)
    ensures unset == Unset(SettingNames, SettingValues(cfg))
  {
    ghost var names, values := SettingNames, SettingValues(cfg);
    assert names[..0] == [] && values[..0] == [];
    unset := [];
    if cfg.domain == "" {
      unset := unset + ["DYNDNS_DOMAIN"];
    }
    assert names[..1][..0] == names[..0] && values[..1][..0] == values[..0];
    assert unset == Unset(names[..1], values[..1]);
    if cfg.server == "" {
      unset := unset + ["DYNDNS_SERVER"];
    }
    assert names[..2][..1] == names[..1] && values[..2][..1] == values[..1];
    assert unset == Unset(names[..2], values[..2]);
    if cfg.username == "" {
      unset := unset + ["DYNDNS_USERNAME"];
    }
    assert names[..3][..2] == names[..2] && values[..3][..2] == values[..2];
    assert unset == Unset(names[..3], values[..3]);
    if cfg.password == "" {
      unset := unset + ["DYNDNS_PASSWORD"];
    }
    assert names[..4] == names && values[..4] == values;
    assert names[..4][..3] == names[..3] && values[..4][..3] == values[..3];
  }

  function ConfigError(unset: seq<string>): string {
    "environment variables " + Join(unset, ", ") + " must be set"
  }

  /** The configuration error names every empty setting. */
  lemma ConfigErrorNamesEach(cfg: Config, name: string)
    requires name in Unset(SettingNames, SettingValues(cfg))
    ensures Contains(ConfigError(Unset(SettingNames, SettingValues(cfg))), name)
  {
    var unset := Unset(SettingNames, SettingValues(cfg));
    var i :| 0 <= i < |unset| && unset[i] == name;
    JoinContainsEach(unset, ", ", i);
    ContainsExtend("environment variables ", Join(unset, ", "), name);
    var k :| OccursAt("environment variables " + Join(unset, ", "), name, k);
    assert OccursAt(ConfigError(unset), name, k);
  }

  /** Go's `net.IP`: `None` is nil, an address is held as its `String()` form. */
  type IP = Option<string>

  /** `ip.String()`, which prints a nil address as "<nil>". */
  function IPString(ip: IP): string {
    match ip
    case None => "<nil>"
    case Some(text) => text
  }

  /** `net.ParseIP` given as an input, except that the empty string is always nil. */
  function ParseIP(parse: string -> IP, s: string): (ip: IP)
    ensures s == "" ==> ip == None
  {
    if s == "" then None else parse(s)
  }

  /** The ip-api.com lookup: the GET fails, the body cannot be read, or the
      body's `query` field (empty if the body is not the expected JSON). */
  datatype Lookup = GetFailed(err: string) | ReadFailed(err: string) | Found(query: string)

  /** The dyndns client's `Update(domain, nil)`: an address with nil error,
      an address with the `NoChange` error, or any other error. */
  datatype UpdateResult = Updated(ip: IP) | NoChange(ip: IP) | UpdateFailed(err: string)

  const UnchangedError: string := "server says IP is unchanged"
}
