/** What both schedulers (cron.go and cron/cron.go) do with a job, seen from
    outside: which runs they launch, which recurring entries they register
    with the robfig dispatcher, and what a finished run leads to.  A job's
    function is given as its result: the error it returns, `None` for nil. */
module Jobs {
  import opened Wrappers
  import opened Text

  /** One run of a job's function and the error it returned. */
  datatype Invocation = Invocation(job: string, err: Option<string>)

  /** A recurring registration: the schedule expression and the job it runs. */
  datatype Entry = Entry(spec: string, job: string)

  /** One observable step of a scheduler start-up, in program order. */
  datatype Event =
    | Launched(run: Invocation)   // a `go func() { ... }()` fired immediately
    | Registered(entry: Entry)    // a successful `c.AddFunc(spec, ...)`
    | DispatcherStarted           // `c.Start()`

  /** What the process does once a run has finished. */
  datatype Effect = Quiet | Logged(line: string) | Fatal(line: string)

  function FailureLine(job: string, err: string): (line: string)
    ensures HasPrefix(line, job)
  {
    assert (job + " failed: " + err)[..|job|] == job;
    job + " failed: " + err
  }

  /** An immediate (development) run: a failure is only logged, as "<name> failed: <err>". */
  function ImmediateEffect(inv: Invocation): (e: Effect)
    ensures !e.Fatal?
    ensures e == Quiet <==> inv.err == None
    ensures e.Logged? ==> HasPrefix(e.line, inv.job)
  {
    match inv.err
    case None => Quiet
    case Some(msg) => Logged(FailureLine(inv.job, msg))
  }

  /** A recurring run registered by cron/cron.go: a failure goes to `logger.Fatalf`,
      which ends the process. */
  function RecurringEffect(inv: Invocation): (e: Effect)
    ensures !e.Logged?
    ensures e.Fatal? <==> inv.err.Some?
    ensures e.Fatal? ==> HasPrefix(e.line, inv.job)
  {
    match inv.err
    case None => Quiet
    case Some(msg) => Fatal(FailureLine(inv.job, msg))
  }

  /** One immediate launch per name, in order, each carrying its job's result. */
  function Launches(names: seq<string>, run: string -> Option<string>): (r: seq<Event>)
    ensures |r| == |names|
    ensures forall i {:trigger r[i]} :: 0 <= i < |names| ==> r[i] == Launched(Invocation(names[i], run(names[i])))
  {
    if names == [] then [] else [Launched(Invocation(names[0], run(names[0])))] + Launches(names[1..], run)
  }

  predicate Distinct(names: seq<string>) {
    forall i, j :: 0 <= i < j < |names| ==> names[i] != names[j]
  }

  /** How many immediate launches of `job` the events hold. */
  function LaunchCount(events: seq<Event>, job: string): nat
  {
    if events == [] then 0
    else (if events[0].Launched? && events[0].run.job == job then 1 else 0) + LaunchCount(events[1..], job)
  }

  /** How many registrations of `job` the events hold. */
  function RegistrationCount(events: seq<Event>, job: string): nat
  {
    if events == [] then 0
    else (if events[0].Registered? && events[0].entry.job == job then 1 else 0) + RegistrationCount(events[1..], job)
  }

  lemma {:induction false} CountsOfConcat(a: seq<Event>, b: seq<Event>, job: string)
    ensures LaunchCount(a + b, job) == LaunchCount(a, job) + LaunchCount(b, job)
    ensures RegistrationCount(a + b, job) == RegistrationCount(a, job) + RegistrationCount(b, job)
    decreases |a|
  {
    if a == [] {
      assert a + b == b;
    } else {
      CountsOfConcat(a[1..], b, job);
      assert (a + b)[1..] == a[1..] + b;
    }
  }

  /** Over distinct names, every name is launched exactly once and nothing is registered. */
  lemma {:induction false} LaunchesOncePerName(names: seq<string>, run: string -> Option<string>, i: nat)
    requires Distinct(names) && i < |names|
    ensures LaunchCount(Launches(names, run), names[i]) == 1
    ensures RegistrationCount(Launches(names, run), names[i]) == 0
    decreases |names|
  {
    var ev := Launches(names, run);
    assert ev[1..] == Launches(names[1..], run);
    if i == 0 {
      NotLaunched(names[1..], run, names[0]);
    } else {
      LaunchesOncePerName(names[1..], run, i - 1);
    }
  }

  lemma {:induction false} NotLaunched(names: seq<string>, run: string -> Option<string>, job: string)
    requires job !in names
    ensures LaunchCount(Launches(names, run), job) == 0
    ensures RegistrationCount(Launches(names, run), job) == 0
    decreases |names|
  {
    if names != [] {
      assert Launches(names, run)[1..] == Launches(names[1..], run);
      NotLaunched(names[1..], run, job);
    }
  }
}
