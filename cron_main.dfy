/** The job scheduler of the main package (cron.go): the environment taken
    from the version string, the static table of jobs with their intervals
    per environment, and `startCron`, which in development launches every
    table entry once and then starts a dispatcher with no entries. */
module CronMain {
  import opened Wrappers
  import opened Text
  import opened Jobs

  datatype Environment = Production | Development

  const Minutely: string := "@every 1m"
  const Hourly: string := "@every 1h"
  /** Second 0, minute 0, hour 5, on February 31st: a date that never comes. */
  const Never: string := "0 0 5 31 2 ?"

  /** A job of the table. The job's function is identified by its name; what
      it returns is an input of `StartCron`. */
  datatype CronSpec = CronSpec(name: string, intervals: map<Environment, string>, enabled: bool)

  const Crons: seq<CronSpec> := [
    CronSpec("calendar", map[Development := Minutely, Production := "0 0 * * *"], false),
    CronSpec("dyndns", map[Development := Never, Production := "0 * * * *"], true),
    CronSpec("selfupdate", map[Development := Minutely, Production := "0 2 * * *"], true),
    CronSpec("speedtest", map[Development := Never, Production := "0 5 * * *"], true)
  ]

  /** Only the exact string "development" selects development; everything else,
      the empty string included, is production. */
  function ResolveEnvironment(version: string): (env: Environment)
    ensures env == Development <==> version == "development"
    ensures env == Production <==> version != "development"
  {
    if version != "development" then Production else Development
  }

  function Names(table: seq<CronSpec>): (names: seq<string>)
    ensures |names| == |table|
    ensures forall i {:trigger names[i]} :: 0 <= i < |table| ==> names[i] == table[i].name
  {
    if table == [] then [] else [table[0].name] + Names(table[1..])
  }

  /** Every entry has an interval for both environments, and the names are distinct. */
  lemma CronsTableWellFormed()
    ensures forall i :: 0 <= i < |Crons| ==> Development in Crons[i].intervals && Production in Crons[i].intervals
    ensures Distinct(Names(Crons))
    ensures Names(Crons) == ["calendar", "dyndns", "selfupdate", "speedtest"]
  {
  }

  /** startCron. `run` gives what each job's function returns when launched.
      In development every table entry is launched once, in table order,
      whatever its `enabled` flag; then the dispatcher is started without a
      single registered entry, and the result is nil in every case. */
  method StartCron(version: string, run: string -> Option<string>) returns (err: Option<string>, events: seq<Event>)
    ensures err == None
    ensures ResolveEnvironment(version) == Development ==> events == Launches(Names(Crons), run) + [DispatcherStarted]
    ensures ResolveEnvironment(version) == Production ==> events == [DispatcherStarted]
  {
    var environment := Development;
    if version != "development" {
      environment := Production;
    }
    events := [];
    if environment == Development {
      for i := 0 to |Crons|
        invariant |events| == i
        invariant forall k :: 0 <= k < i ==> events[k] == Launched(Invocation(Crons[k].name, run(Crons[k].name)))
      {
        var cronDef := Crons[i];
        events := events + [Launched(Invocation(cronDef.name, run(cronDef.name)))];
      }
      assert events == Launches(Names(Crons), run);
    }
    events := events + [DispatcherStarted];
    err := None;
  }

  /** In development each table entry, the disabled calendar job included, is
      launched exactly once; in production nothing is launched; never is
      anything registered for recurring runs. */
  lemma {:induction false} StartCronLaunchCounts(version: string, run: string -> Option<string>, i: nat)
    requires i < |Crons|
    ensures var events := if ResolveEnvironment(version) == Development
                          then Launches(Names(Crons), run) + [DispatcherStarted]
                          else [DispatcherStarted];
            && LaunchCount(events, Crons[i].name) == (if version == "development" then 1 else 0)
            && RegistrationCount(events, Crons[i].name) == 0
  {
    CronsTableWellFormed();
    var name := Crons[i].name;
    assert Names(Crons)[i] == name;
    assert LaunchCount([DispatcherStarted], name) == 0 && RegistrationCount([DispatcherStarted], name) == 0;
    if version == "development" {
      LaunchesOncePerName(Names(Crons), run, i);
      CountsOfConcat(Launches(Names(Crons), run), [DispatcherStarted], name);
    }
  }

  /** The calendar job is disabled, yet in development it is the first launch. */
  lemma DisabledCalendarLaunched(run: string -> Option<string>)
    ensures !Crons[0].enabled && Crons[0].name == "calendar"
    ensures Launches(Names(Crons), run)[0] == Launched(Invocation("calendar", run("calendar")))
  {
  }

  // ---- The `never` schedule ----

  predicate IsLeap(year: int) {
    year % 4 == 0 && (year % 100 != 0 || year % 400 == 0)
  }

  function DaysIn(year: int, month: int): nat
    requires 1 <= month <= 12
  {
    if month == 2 then (if IsLeap(year) then 29 else 28)
    else if month == 4 || month == 6 || month == 9 || month == 11 then 30
    else 31
  }

  predicate IsDate(year: int, month: int, day: int) {
    1 <= month <= 12 && 1 <= day <= DaysIn(year, month)
  }

  /** A plain field admits a value: a wildcard, or the value in decimal. */
  predicate FieldAdmits(field: string, value: nat) {
    field == "*" || field == "?" || ParseNat(field) == Some(value)
  }

  /** The six fields, in the order documented at cron.go:28-29, are second,
      minute, hour, day-of-month, month and day-of-week; a date can only fire
      if fields 4 and 5 admit its day and month. */
  predicate AdmitsDate(spec: string, month: nat, day: nat) {
    var fields := Split(spec, ' ');
    |fields| == 6 && FieldAdmits(fields[3], day) && FieldAdmits(fields[4], month)
  }

  lemma NeverFields()
    ensures Split(Never, ' ') == ["0", "0", "5", "31", "2", "?"]
  {
    var fields := ["0", "0", "5", "31", "2", "?"];
    assert Join(fields, " ") == Never;
    SplitJoin(fields, ' ');
  }

  lemma NeverDayAndMonth()
    ensures ParseNat("31") == Some(31) && ParseNat("2") == Some(2)
  {
    assert "31"[..1] == "3" && "3"[..0] == "" && "2"[..0] == "";
    assert DecimalValue("3") == 3;
    assert DecimalValue("31") == 31;
    assert DecimalValue("2") == 2;
  }

  lemma FebruaryIsShort(year: int)
    ensures DaysIn(year, 2) <= 29
  {
  }

  /** No calendar date is matched by the `never` specification. */
  lemma NeverMatchesNoDate(year: int, month: nat, day: nat)
    requires IsDate(year, month, day)
    ensures !AdmitsDate(Never, month, day)
  {
    NeverFields();
    NeverDayAndMonth();
    FebruaryIsShort(year);
    var fields := Split(Never, ' ');
    assert fields[3] == "31" && fields[4] == "2";
    assert "31" != "*" && "31" != "?" && "2" != "*" && "2" != "?";
    assert FieldAdmits(fields[3], day) ==> day == 31;
    assert FieldAdmits(fields[4], month) ==> month == 2;
  }
}
