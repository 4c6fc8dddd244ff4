/** The dynamic-DNS updater of the `dyndns` package (dyndns/dyndns.go):
    `Run` with a cached public address `lastKnownPublicIP` that starts nil
    and lives only in memory. */
module DynDnsPkg {
  import opened Wrappers
  import opened Text
  import opened DynDnsCommon

  /** Everything `Run` learns from outside, in the order it asks: the error
      of the UDP dial to 8.8.8.8:80 (if any), the ip-api.com lookup and the
      dyndns server's answer. */
  datatype Outside = Outside(dial: Option<string>, lookup: Lookup, update: UpdateResult)

  /** The result and the new `lastKnownPublicIP`. */
  datatype Outcome = Outcome(err: Option<string>, last: IP)

  /** The error of a refused update names the user, the server and the domain. */
  function UpdateError(cfg: Config, err: string): (r: string)
    ensures HasPrefix(r, "can't update dyndns for " + cfg.username + "@" + cfg.server + " to " + cfg.domain)
  {
    var head := "can't update dyndns for " + cfg.username + "@" + cfg.server + " to " + cfg.domain;
    assert (head + ": " + err)[..|head|] == head;
    head + ": " + err
  }

  /** Run, as a function of the cached address before the call. */
  function RunOutcome(version: string, cfg: Config, last: IP, out: Outside): (o: Outcome)
    ensures o.last == last || (out.update.Updated? && o.last == out.update.ip)
                           || (out.update.NoChange? && o.last == out.update.ip)
  {
    if version == "development" then Outcome(None, last)
    else
      var unset := Unset(SettingNames, SettingValues(cfg));
      if |unset| > 0 then Outcome(Some(ConfigError(unset)), last)
      else if out.dial.Some? then Outcome(Some("can't check current IP: " + out.dial.value), last)
      else match out.lookup
        case GetFailed(e) => Outcome(Some("can't get external IP: " + e), last)
        case ReadFailed(e) => Outcome(Some("can't read external IP: " + e), last)
        case Found(localAddr) =>
          if localAddr == IPString(last) then Outcome(None, last)
          else match out.update
            case NoChange(ip) => Outcome(Some(UnchangedError), ip)
            case UpdateFailed(e) => Outcome(Some(UpdateError(cfg, e)), last)
            case Updated(ip) => Outcome(None, ip)
  }

  /** The package-level state of dyndns/dyndns.go. */
  class Updater {
    var lastKnownPublicIP: IP

    /** The package starts with no cached address. */
    constructor ()
      ensures lastKnownPublicIP == None
    {
      lastKnownPublicIP := None;
    }

    /** Run. */
    method Run(version: string, cfg: Config, out: Outside) returns (err: Option<string>)
      modifies this
      ensures Outcome(err, lastKnownPublicIP) == RunOutcome(version, cfg, old(lastKnownPublicIP), out)
    {
      if version == "development" {
        return None;
      }
      var unset := UnsetSettings(cfg);
      if |unset| > 0 {
        return Some(ConfigError(unset));
      }
      if out.dial.Some? {
        return Some("can't check current IP: " + out.dial.value);
      }
      var localAddr;
      match out.lookup {
        case GetFailed(e) => return Some("can't get external IP: " + e);
        case ReadFailed(e) => return Some("can't read external IP: " + e);
        case Found(query) => localAddr := query;
      }
      if localAddr == IPString(lastKnownPublicIP) {
        return None;
      }
      match out.update {
        case NoChange(ip) =>
          lastKnownPublicIP := ip;
          return Some(UnchangedError);
        case UpdateFailed(e) =>
          return Some(UpdateError(cfg, e));
        case Updated(ip) =>
          lastKnownPublicIP := ip;
          err := None;
      }
    }
  }

  // ---- Properties of Run ----

  /** In development `Run` returns nil and keeps its cache. */
  lemma DevelopmentSkips(cfg: Config, last: IP, out: Outside)
    ensures RunOutcome("development", cfg, last, out) == Outcome(None, last)
  {
  }

  /** With a setting empty, the error names every empty setting and the cache is kept. */
  lemma MissingSettingsReported(version: string, cfg: Config, last: IP, out: Outside, name: string)
    requires version != "development"
    requires name in Unset(SettingNames, SettingValues(cfg))
    ensures var o := RunOutcome(version, cfg, last, out);
            && o == Outcome(Some(ConfigError(Unset(SettingNames, SettingValues(cfg)))), last)
            && Contains(o.err.value, name)
  {
    ConfigErrorNamesEach(cfg, name);
  }

  /** Whatever the server would answer, an address equal to the cached one is not sent. */
  lemma UnchangedAddressSkips(version: string, cfg: Config, last: IP, out: Outside)
    requires version != "development" && Unset(SettingNames, SettingValues(cfg)) == []
    requires out.dial == None && out.lookup == Found(IPString(last))
    ensures RunOutcome(version, cfg, last, out) == Outcome(None, last)
  {
  }

  /** The answers of the dyndns server to a changed address. */
  lemma UpdateAnswers(version: string, cfg: Config, last: IP, out: Outside)
    requires version != "development" && Unset(SettingNames, SettingValues(cfg)) == []
    requires out.dial == None && out.lookup.Found? && out.lookup.query != IPString(last)
    ensures var o := RunOutcome(version, cfg, last, out);
            && (out.update.Updated? ==> o == Outcome(None, out.update.ip))
            && (out.update.NoChange? ==> o == Outcome(Some(UnchangedError), out.update.ip))
            && (out.update.UpdateFailed? ==>
                  && o.last == last && o.err.Some?
                  && HasPrefix(o.err.value, "can't update dyndns for " + cfg.username + "@" + cfg.server + " to " + cfg.domain))
  {
  }

  /** A nil cache never matches a looked-up address other than "<nil>": the
      first successful lookup of a fresh process always reaches the server. */
  lemma {:induction false} FirstRunReachesServer(version: string, cfg: Config, out: Outside)
    requires version != "development" && Unset(SettingNames, SettingValues(cfg)) == []
    requires out.dial == None && out.lookup.Found? && out.lookup.query != "<nil>"
    ensures RunOutcome(version, cfg, None, out).last == (if out.update.UpdateFailed? then None else out.update.ip)
  {
    UpdateAnswers(version, cfg, None, out);
  }

  /** After the server accepted an address equal to the lookup, the same
      lookup is skipped on the next call, whatever the server would say. */
  lemma {:induction false} SecondRunSkips(version: string, cfg: Config, last: IP, out: Outside, again: Outside)
    requires version != "development" && Unset(SettingNames, SettingValues(cfg)) == []
    requires out.dial == None && out.lookup.Found? && out.lookup.query != IPString(last)
    requires out.update.Updated? && IPString(out.update.ip) == out.lookup.query
    requires again.dial == None && again.lookup == out.lookup
    ensures var first := RunOutcome(version, cfg, last, out);
            RunOutcome(version, cfg, first.last, again) == Outcome(None, first.last)
  {
    UpdateAnswers(version, cfg, last, out);
    UnchangedAddressSkips(version, cfg, out.update.ip, again);
  }
}
