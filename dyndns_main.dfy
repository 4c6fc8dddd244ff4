/** The dynamic-DNS updater of the main package (dyndns.go): `runDynDNS`
    with the cached public address `lastKnownPublicIP`, which is loaded from
    the newest row of the `ip_addresses` table when it is nil, compared with
    the address ip-api.com reports, and replaced (after an insert into the
    table) when the dyndns server accepts an update or says nothing changed. */
module DynDnsMain {
  import opened Wrappers
  import opened Text
  import opened DynDnsCommon

  /** What `row.Scan` on the newest-address query gives: an address, the
      "no rows" error, or another error from the database. */
  datatype Scan = Row(text: string) | NoRows | ScanFailed(err: string)

  /** The newest address of a table whose rows are in insertion order (the
      `created_at` order); `failure` is an error of the database itself,
      which is reported whatever the table holds. */
  function NewestRow(rows: seq<string>, failure: Option<string>): (r: Scan)
    ensures r.ScanFailed? <==> failure.Some?
    ensures r.NoRows? <==> failure.None? && rows == []
    ensures r.Row? ==> |rows| > 0 && r.text == rows[|rows| - 1]
  {
    if failure.Some? then ScanFailed(failure.value)
    else if rows == [] then NoRows
    else Row(rows[|rows| - 1])
  }

  /** The `ip_addresses` table: the stored addresses, oldest first. */
  class IpAddresses {
    var rows: seq<string>

    constructor ()
      ensures rows == []
    {
      rows := [];
    }

    /** `db.QueryRow(selectIPSQL)` followed by `row.Scan`. */
    method SelectNewest(failure: Option<string>) returns (r: Scan)
      ensures r == NewestRow(rows, failure)
    {
      if failure.Some? {
        return ScanFailed(failure.value);
      }
      if |rows| == 0 {
        return NoRows;
      }
      r := Row(rows[|rows| - 1]);
    }

    /** `db.Exec(insertIPSQL, ip)`: the row is added unless the database fails. */
    method Insert(ip: string, failure: Option<string>) returns (err: Option<string>)
      modifies this
      ensures err == failure
      ensures failure.None? ==> rows == old(rows) + [ip]
      ensures failure.Some? ==> rows == old(rows)
    {
      err := failure;
      if failure.None? {
        rows := rows + [ip];
      }
    }
  }

  /** Everything `runDynDNS` learns from outside, in the order it asks:
      the ip-api.com lookup, the database's error on the select (if any),
      `net.ParseIP`, the dyndns server's answer and the database's error on
      the insert (if any). */
  datatype Outside = Outside(lookup: Lookup, scanFailure: Option<string>, parse: string -> IP,
                             update: UpdateResult, insertFailure: Option<string>)

  /** The result and the new state after one call: the error (`None` for
      nil), `lastKnownPublicIP` and the table. */
  datatype Outcome = Outcome(err: Option<string>, last: IP, rows: seq<string>)

  /** The error of a refused update names the domain. */
  function UpdateError(domain: string, err: string): (r: string)
    ensures HasPrefix(r, "can't update DNS for " + domain)
  {
    var head := "can't update DNS for " + domain;
    assert (head + ": " + err)[..|head|] == head;
    head + ": " + err
  }

  /** The address compared with the lookup: the cached one if there is one,
      otherwise the newest stored one (nil if the table is empty or the
      stored text does not parse). */
  function Load(last: IP, rows: seq<string>, failure: Option<string>, parse: string -> IP): (r: Result<IP>)
    ensures last.Some? ==> r == Success(last)
    ensures r.Failure? <==> last == None && failure.Some?
    ensures last == None && failure == None && rows == [] ==> r == Success(None)
    ensures last == None && failure == None && rows != [] ==> r == Success(ParseIP(parse, rows[|rows| - 1]))
  {
    if last.Some? then Success(last)
    else match NewestRow(rows, failure)
      case ScanFailed(e) => Failure(e)
      case NoRows => Success(ParseIP(parse, ""))
      case Row(text) => Success(ParseIP(parse, text))
  }

  /** The end of a successful or `NoChange` update: insert the address,
      then cache it, then return `result`; a failed insert returns its error
      and leaves the cache as it was. */
  function Record(ip: IP, known: IP, rows: seq<string>, insertFailure: Option<string>, result: Option<string>): (o: Outcome)
    ensures insertFailure.Some? ==> o.last == known && o.rows == rows
    ensures insertFailure.None? ==> o == Outcome(result, ip, rows + [IPString(ip)])
  {
    match insertFailure
    case Some(e) => Outcome(Some("can't insert IP into database: " + e), known, rows)
    case None => Outcome(result, ip, rows + [IPString(ip)])
  }

  /** runDynDNS, step by step, as a function of the state before the call.
      The cache is only ever replaced by what was just stored: a call that
      inserts a row inserts the new cached address, printed. */
  function DynDnsOutcome(version: string, cfg: Config, last: IP, rows: seq<string>, out: Outside): (o: Outcome)
    ensures o.rows == rows || o.rows == rows + [IPString(o.last)]
  {
    if version == "development" then Outcome(None, last, rows)
    else
      var unset := Unset(SettingNames, SettingValues(cfg));
      if |unset| > 0 then Outcome(Some(ConfigError(unset)), last, rows)
      else match out.lookup
        case GetFailed(e) => Outcome(Some("can't get external IP: " + e), last, rows)
        case ReadFailed(e) => Outcome(Some("can't read external IP: " + e), last, rows)
        case Found(localAddr) =>
          match Load(last, rows, out.scanFailure, out.parse)
          case Failure(e) => Outcome(Some("can't bring IP from database to memory: " + e), last, rows)
          case Success(known) =>
            if localAddr == IPString(known) then Outcome(None, known, rows)
            else match out.update
              case UpdateFailed(e) => Outcome(Some(UpdateError(cfg.domain, e)), known, rows)
              case NoChange(ip) => Record(ip, known, rows, out.insertFailure, Some(UnchangedError))
              case Updated(ip) => Record(ip, known, rows, out.insertFailure, None)
  }

  /** The package-level state of dyndns.go. */
  class Updater {
    var lastKnownPublicIP: IP

    constructor ()
      ensures lastKnownPublicIP == None
    {
      lastKnownPublicIP := None;
    }

    /** runDynDNS. */
    method RunDynDns(version: string, cfg: Config, db: IpAddresses, out: Outside) returns (err: Option<string>)
      modifies this, db
      ensures Outcome(err, lastKnownPublicIP, db.rows) ==
              DynDnsOutcome(version, cfg, old(lastKnownPublicIP), old(db.rows), out)
    {
      if version == "development" {
        return None;
      }
      var unset := UnsetSettings(cfg);
      if |unset| > 0 {
        return Some(ConfigError(unset));
      }
      var localAddr;
      match out.lookup {
        case GetFailed(e) => return Some("can't get external IP: " + e);
        case ReadFailed(e) => return Some("can't read external IP: " + e);
        case Found(query) => localAddr := query;
      }
      if lastKnownPublicIP == None {
        var row := db.SelectNewest(out.scanFailure);
        var ipStr := "";
        match row {
          case ScanFailed(e) => return Some("can't bring IP from database to memory: " + e);
          case NoRows =>
          case Row(text) => ipStr := text;
        }
        lastKnownPublicIP := ParseIP(out.parse, ipStr);
      }
      if localAddr == IPString(lastKnownPublicIP) {
        return None;
      }
      match out.update {
        case UpdateFailed(e) =>
          err := Some(UpdateError(cfg.domain, e));
        case NoChange(ip) =>
          err := db.Insert(IPString(ip), out.insertFailure);
          if err.Some? {
            return Some("can't insert IP into database: " + err.value);
          }
          lastKnownPublicIP := ip;
          err := Some(UnchangedError);
        case Updated(ip) =>
          err := db.Insert(IPString(ip), out.insertFailure);
          if err.Some? {
            return Some("can't insert IP into database: " + err.value);
          }
          lastKnownPublicIP := ip;
      }
    }
  }

  // ---- Properties of runDynDNS ----

  /** In development nothing is checked, fetched, stored or cached. */
  lemma DevelopmentSkips(cfg: Config, last: IP, rows: seq<string>, out: Outside)
    ensures DynDnsOutcome("development", cfg, last, rows, out) == Outcome(None, last, rows)
  {
  }

  /** With a setting empty, the error names every empty setting and nothing
      else happens; with all four set, no configuration error arises. */
  lemma MissingSettingsReported(version: string, cfg: Config, last: IP, rows: seq<string>, out: Outside, name: string)
    requires version != "development"
    requires name in Unset(SettingNames, SettingValues(cfg))
    ensures var o := DynDnsOutcome(version, cfg, last, rows, out);
            && o == Outcome(Some(ConfigError(Unset(SettingNames, SettingValues(cfg)))), last, rows)
            && Contains(o.err.value, name)
  {
    ConfigErrorNamesEach(cfg, name);
  }

  /** An address equal to the cached (or freshly loaded) one is not sent to
      the dyndns server: nil, nothing inserted, the loaded address cached. */
  lemma UnchangedAddressSkips(cfg: Config, last: IP, rows: seq<string>, out: Outside, version: string)
    requires version != "development" && Unset(SettingNames, SettingValues(cfg)) == []
    requires out.lookup.Found?
    requires Load(last, rows, out.scanFailure, out.parse).Success?
    requires out.lookup.query == IPString(Load(last, rows, out.scanFailure, out.parse).value)
    ensures DynDnsOutcome(version, cfg, last, rows, out) ==
            Outcome(None, Load(last, rows, out.scanFailure, out.parse).value, rows)
  {
  }

  /** The answers of the dyndns server to a changed address: success inserts
      and caches the address and returns nil; `NoChange` inserts and caches
      it too but returns the "unchanged" error; any other error names the
      domain and stores nothing; a failed insert leaves the cache alone. */
  lemma UpdateAnswers(cfg: Config, last: IP, rows: seq<string>, out: Outside, version: string)
    requires version != "development" && Unset(SettingNames, SettingValues(cfg)) == []
    requires out.lookup.Found?
    requires Load(last, rows, out.scanFailure, out.parse).Success?
    requires out.lookup.query != IPString(Load(last, rows, out.scanFailure, out.parse).value)
    ensures var known := Load(last, rows, out.scanFailure, out.parse).value;
            var o := DynDnsOutcome(version, cfg, last, rows, out);
            && (out.update.Updated? && out.insertFailure.None? ==>
                  o == Outcome(None, out.update.ip, rows + [IPString(out.update.ip)]))
            && (out.update.NoChange? && out.insertFailure.None? ==>
                  o == Outcome(Some(UnchangedError), out.update.ip, rows + [IPString(out.update.ip)]))
            && (out.update.UpdateFailed? ==>
                  o.last == known && o.rows == rows && o.err.Some? && HasPrefix(o.err.value, "can't update DNS for " + cfg.domain))
            && (!out.update.UpdateFailed? && out.insertFailure.Some? ==>
                  o.last == known && o.rows == rows && o.err.Some?)
  {
  }

  /** After a successful update whose address is the one looked up, asking
      again with the same lookup sends nothing to the server. */
  lemma {:induction false} SecondRunSkips(version: string, cfg: Config, last: IP, rows: seq<string>, out: Outside, again: Outside)
    requires version != "development" && Unset(SettingNames, SettingValues(cfg)) == []
    requires out.lookup.Found? && out.update.Updated? && out.insertFailure.None?
    requires IPString(out.update.ip) == out.lookup.query && out.update.ip.Some?
    requires Load(last, rows, out.scanFailure, out.parse).Success?
    requires out.lookup.query != IPString(Load(last, rows, out.scanFailure, out.parse).value)
    requires again.lookup == out.lookup
    ensures var first := DynDnsOutcome(version, cfg, last, rows, out);
            DynDnsOutcome(version, cfg, first.last, first.rows, again) == Outcome(None, first.last, first.rows)
  {
    var first := DynDnsOutcome(version, cfg, last, rows, out);
    UpdateAnswers(cfg, last, rows, out, version);
    assert first.last == out.update.ip;
    assert Load(first.last, first.rows, again.scanFailure, again.parse) == Success(first.last);
  }
}
