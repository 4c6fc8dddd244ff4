/** The job scheduler of the `cron` package (cron/cron.go): a table of job
    definitions with one interval each; `Start` launches every definition once
    in development, then registers each with the dispatcher in table order,
    stopping at the first registration the dispatcher refuses. */
module CronPkg {
  import opened Wrappers
  import opened Jobs

  /** The interval development mode means to use. */
  const Minutely: string := "@every 1m"

  datatype CronDefinition = CronDefinition(name: string, interval: string)

  const Funcs: seq<CronDefinition> := [
    CronDefinition("calendar", "0 0 0 * * *"),
    CronDefinition("dyndns", "0 * * * * *"),
    CronDefinition("selfupdate", "0 0 2 * * *"),
    CronDefinition("speedtest", "0 0 5 * * *")
  ]

  function DefinitionNames(table: seq<CronDefinition>): (names: seq<string>)
    ensures |names| == |table|
    ensures forall i {:trigger names[i]} :: 0 <= i < |table| ==> names[i] == table[i].name
  {
    if table == [] then [] else [table[0].name] + DefinitionNames(table[1..])
  }

  lemma FuncsNamesDistinct()
    ensures Distinct(DefinitionNames(Funcs))
  {
  }

  /** The position of the first definition whose interval `addFunc` refuses
      (`addFunc` gives the dispatcher's parse error for a schedule expression). */
  function FirstRefused(table: seq<CronDefinition>, addFunc: string -> Option<string>): (r: Option<nat>)
    ensures r.None? <==> forall i :: 0 <= i < |table| ==> addFunc(table[i].interval).None?
    ensures r.Some? ==> r.value < |table| && addFunc(table[r.value].interval).Some?
    ensures r.Some? ==> forall i :: 0 <= i < r.value ==> addFunc(table[i].interval).None?
  {
    if table == [] then None
    else if addFunc(table[0].interval).Some? then Some(0)
    else match FirstRefused(table[1..], addFunc)
      case None => None
      case Some(k) => Some(k + 1)
  }

  /** One recurring registration per definition, in order, with the definition's own interval. */
  function Registrations(table: seq<CronDefinition>): (r: seq<Event>)
    ensures |r| == |table|
    ensures forall i {:trigger r[i]} :: 0 <= i < |table| ==> r[i] == Registered(Entry(table[i].interval, table[i].name))
  {
    if table == [] then [] else [Registered(Entry(table[0].interval, table[0].name))] + Registrations(table[1..])
  }

  function StartError(name: string, parseErr: string): string {
    "cannot start " + name + " cron: " + parseErr
  }

  /** What `Start` does, given the jobs' results and the dispatcher's verdict on each interval. */
  ghost predicate StartOutcome(table: seq<CronDefinition>, version: string, run: string -> Option<string>,
                               addFunc: string -> Option<string>, err: Option<string>, events: seq<Event>)
  {
    var launches := if version == "development" then Launches(DefinitionNames(table), run) else [];
    match FirstRefused(table, addFunc)
    case None => err == None && events == launches + Registrations(table) + [DispatcherStarted]
    case Some(k) =>
      && err == Some(StartError(table[k].name, addFunc(table[k].interval).value))
      && events == launches + Registrations(table[..k])
  }

  /** The development loop of `Start`: one immediate launch per definition, in
      table order.  It sets `interval` on its loop copy only, which is lost. */
  method LaunchEach(funcs: seq<CronDefinition>, run: string -> Option<string>) returns (events: seq<Event>)
    ensures events == Launches(DefinitionNames(funcs), run)
  {
    events := [];
    for i := 0 to |funcs|
      invariant events == Launches(DefinitionNames(funcs[..i]), run)
    {
      var cronDef := funcs[i];
      cronDef := cronDef.(interval := Minutely);  // the range copy, never written back
      events := events + [Launched(Invocation(cronDef.name, run(cronDef.name)))];
      assert DefinitionNames(funcs[..i + 1]) == DefinitionNames(funcs[..i]) + [funcs[i].name];
    }
    assert funcs[..|funcs|] == funcs;
  }

  /** The registration loop of `Start`: `c.AddFunc` per definition, in table
      order, with the table's interval, returning at the first refusal with
      an error naming that job. */
  method RegisterEach(funcs: seq<CronDefinition>, addFunc: string -> Option<string>)
    returns (err: Option<string>, events: seq<Event>)
    ensures FirstRefused(funcs, addFunc).None? ==> err == None && events == Registrations(funcs)
    ensures FirstRefused(funcs, addFunc).Some? ==>
              var k := FirstRefused(funcs, addFunc).value;
              err == Some(StartError(funcs[k].name, addFunc(funcs[k].interval).value)) && events == Registrations(funcs[..k])
  {
    events := [];
    for i := 0 to |funcs|
      invariant events == Registrations(funcs[..i])
      invariant forall k :: 0 <= k < i ==> addFunc(funcs[k].interval).None?
    {
      var cronDef := funcs[i];
      var parseErr := addFunc(cronDef.interval);
      if parseErr.Some? {
        err := Some(StartError(cronDef.name, parseErr.value));
        assert FirstRefused(funcs, addFunc) == Some(i);
        return;
      }
      events := events + [Registered(Entry(cronDef.interval, cronDef.name))];
      assert Registrations(funcs[..i + 1]) == Registrations(funcs[..i]) + [Registered(Entry(funcs[i].interval, funcs[i].name))];
    }
    assert funcs[..|funcs|] == funcs;
    err := None;
  }

  /** Start. In development each definition is launched once, before any
      registration; the registrations use the table's intervals in every
      environment.  The first refused registration ends `Start` with an error
      naming that job: later definitions are not registered and the
      dispatcher is not started.  Otherwise the dispatcher is started and
      the result is nil. */
  method Start(version: string, run: string -> Option<string>, addFunc: string -> Option<string>)
    returns (err: Option<string>, events: seq<Event>)
    ensures StartOutcome(Funcs, version, run, addFunc, err, events)
  {
    events := [];
    if version == "development" {
      events := LaunchEach(Funcs, run);
    }
    var registrations;
    err, registrations := RegisterEach(Funcs, addFunc);
    events := events + registrations;
    if err.Some? {
      return;
    }
    events := events + [DispatcherStarted];
  }

  /** Registration stops at the first refused definition: every earlier
      definition is registered exactly once, it and every later one not at all. */
  lemma {:induction false} RegistrationStopsAtFirstRefusal(table: seq<CronDefinition>, k: nat, j: nat)
    requires Distinct(DefinitionNames(table))
    requires k <= |table| && j < |table|
    ensures RegistrationCount(Registrations(table[..k]), table[j].name) == (if j < k then 1 else 0)
    ensures LaunchCount(Registrations(table[..k]), table[j].name) == 0
    decreases k
  {
    if k > 0 {
      var prefix := table[..k - 1];
      assert table[..k] == prefix + [table[k - 1]];
      var regs := Registrations(prefix);
      var last := Registered(Entry(table[k - 1].interval, table[k - 1].name));
      assert Registrations(table[..k]) == regs + [last];
      CountsOfConcat(regs, [last], table[j].name);
      assert [last][1..] == [];
      assert DefinitionNames(table)[j] == table[j].name && DefinitionNames(table)[k - 1] == table[k - 1].name;
      RegistrationStopsAtFirstRefusal(table, k - 1, j);
    }
  }

  /** With all registrations accepted every job is registered once; with job
      k refused, exactly the jobs before k are; in development every job is
      launched once. */
  lemma StartRegistrationCounts(table: seq<CronDefinition>, version: string, run: string -> Option<string>,
                                addFunc: string -> Option<string>, err: Option<string>, events: seq<Event>, j: nat)
    requires Distinct(DefinitionNames(table))
    requires StartOutcome(table, version, run, addFunc, err, events)
    requires j < |table|
    ensures err.None? <==> FirstRefused(table, addFunc).None?
    ensures RegistrationCount(events, table[j].name) ==
            (match FirstRefused(table, addFunc) case None => 1 case Some(k) => if j < k then 1 else 0)
    ensures LaunchCount(events, table[j].name) == (if version == "development" then 1 else 0)
  {
    var name := table[j].name;
    var launches := if version == "development" then Launches(DefinitionNames(table), run) else [];
    assert DefinitionNames(table)[j] == name;
    if version == "development" {
      LaunchesOncePerName(DefinitionNames(table), run, j);
    } else {
      assert LaunchCount(launches, name) == 0 && RegistrationCount(launches, name) == 0;
    }
    match FirstRefused(table, addFunc)
    case None =>
      RegistrationStopsAtFirstRefusal(table, |table|, j);
      assert table[..|table|] == table;
      CountsOfConcat(launches, Registrations(table), name);
      CountsOfConcat(launches + Registrations(table), [DispatcherStarted], name);
      assert LaunchCount([DispatcherStarted], name) == 0 && RegistrationCount([DispatcherStarted], name) == 0;
    case Some(k) =>
      RegistrationStopsAtFirstRefusal(table, k, j);
      CountsOfConcat(launches, Registrations(table[..k]), name);
  }

  // ---- Development intervals (see the findings in the README) ----

  /** As written: with every registration accepted, development registers the
      calendar job with its production interval "0 0 0 * * *", not with `Minutely`. */
  lemma DevelopmentKeepsTableIntervals(run: string -> Option<string>, addFunc: string -> Option<string>,
                                       err: Option<string>, events: seq<Event>)
    requires forall spec :: addFunc(spec) == None
    requires StartOutcome(Funcs, "development", run, addFunc, err, events)
    ensures events[|Funcs|] == Registered(Entry("0 0 0 * * *", "calendar"))
    ensures events[|Funcs|].entry.spec != Minutely
  {
    assert FirstRefused(Funcs, addFunc) == None;
    var launches := Launches(DefinitionNames(Funcs), run);
    assert events == launches + Registrations(Funcs) + [DispatcherStarted];
    assert events[|Funcs|] == Registrations(Funcs)[0];
  }

  /** The interval the log line "using 1m intervals" announces: `Minutely` in
      development, the table's own interval otherwise. */
  function IntendedInterval(version: string, def: CronDefinition): (spec: string)
    ensures version == "development" ==> spec == Minutely
    ensures version != "development" ==> spec == def.interval
  {
    if version == "development" then Minutely else def.interval
  }

  /** The registrations the development loop was evidently meant to produce. */
  function IntendedRegistrations(version: string, table: seq<CronDefinition>): (r: seq<Event>)
    ensures |r| == |table|
    ensures forall i :: 0 <= i < |table| ==> r[i].Registered? && r[i].entry.job == table[i].name
    ensures version == "development" ==> forall i :: 0 <= i < |r| ==> r[i].entry.spec == Minutely
    ensures version != "development" ==> r == Registrations(table)
  {
    if table == [] then []
    else [Registered(Entry(IntendedInterval(version, table[0]), table[0].name))] + IntendedRegistrations(version, table[1..])
  }
}
