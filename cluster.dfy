/** The load-balanced job dispatcher of cluster.py.

    One dispatch run creates a `Host` record per host name, then works through
    a copy of the dataset list front to back. For each dataset it caps the
    worker count at the number of the dataset's files and builds the job's
    command line. In batch mode it submits the job to the scheduler; in SSH
    mode it sorts the hosts by their load metric, launches the job on the first
    host and counts one more job on it.

    The remote load probe is a parameter `load(step, name)`: the load the host
    `name` reports while the `step`-th dataset (from 0) is being placed. The
    dataset database is a parameter `files(dataset)`: the number of input files
    of the dataset. */
module Cluster {
  import opened Outcomes
  import opened Text
  import opened Sorting

  // ---------------------------------------------------------------------------
  // Hosts and their ranking
  // ---------------------------------------------------------------------------

  /** A compute host of one dispatch run; `njobs` counts the jobs this run has
      launched on it. */
  class Host {
    const name: string
    var njobs: nat

    constructor (name: string)
      ensures this.name == name && njobs == 0
    {
      this.name := name;
      njobs := 0;
    }
  }

  /** `Host.load_metric`: the host's load weighted by the jobs it would run,
      plus the jobs already placed on it. An idle host ranks by its load alone,
      and with a non-negative load every placed job costs at least one unit. */
  function Metric(load: real, njobs: nat): (m: real)
    ensures njobs == 0 ==> m == load
    ensures 0.0 <= load ==> load + njobs as real <= m
  {
    assert 0.0 <= load ==> 0.0 <= load * njobs as real;
    load * (njobs as real + 1.0) + njobs as real
  }

  /** One more job raises the metric by the load plus one, so by at least one. */
  lemma MetricIncrement(load: real, njobs: nat)
    requires 0.0 <= load
    ensures Metric(load, njobs + 1) == Metric(load, njobs) + load + 1.0
    ensures Metric(load, njobs) + 1.0 <= Metric(load, njobs + 1)
  {
    calc {
      Metric(load, njobs + 1);
      load * (njobs as real + 2.0) + njobs as real + 1.0;
      { assert load * (njobs as real + 2.0) == load * (njobs as real + 1.0) + load; }
      Metric(load, njobs) + load + 1.0;
    }
  }

  lemma ScaleMonotone(x: real, y: real, c: real)
    requires x <= y && 0.0 <= c
    ensures x * c <= y * c
  {
  }

  lemma ScaleStrict(x: real, y: real, c: real)
    requires x < y && 0.0 < c
    ensures x * c < y * c
  {
  }

  /** A host no more loaded and no busier than another, and strictly better
      on one of the two, ranks strictly before it. */
  lemma MetricDominance(load1: real, njobs1: nat, load2: real, njobs2: nat)
    requires 0.0 <= load1 <= load2 && njobs1 <= njobs2
    requires load1 < load2 || njobs1 < njobs2
    ensures Metric(load1, njobs1) < Metric(load2, njobs2)
  {
    WeightedDominance(load1, njobs1 as real, load2, njobs2 as real);
  }

  lemma WeightedDominance(l1: real, n1: real, l2: real, n2: real)
    requires 0.0 <= l1 <= l2 && 0.0 <= n1 <= n2
    requires l1 < l2 || n1 < n2
    ensures l1 * (n1 + 1.0) + n1 < l2 * (n2 + 1.0) + n2
  {
    var a, b := n1 + 1.0, n2 + 1.0;
    ScaleMonotone(l1, l2, a);
    ScaleMonotone(a, b, l2);
    if l1 < l2 {
      ScaleStrict(l1, l2, a);
    }
  }

  /** The value of a host record: its name and job count. */
  datatype HostState = HostState(name: string, njobs: nat)

  function StateOf(h: Host): HostState
    reads h
  {
    HostState(h.name, h.njobs)
  }

  /** The values of a list of host records, in list order. */
  function Abs(hosts: seq<Host>): (r: seq<HostState>)
    reads set h | h in hosts
    ensures |r| == |hosts|
    ensures forall i :: 0 <= i < |hosts| ==> r[i] == StateOf(hosts[i])
  {
    if |hosts| == 0 then [] else [StateOf(hosts[0])] + Abs(hosts[1..])
  }

  /** The host records a run starts with: one per name, in order, no jobs. */
  function Idle(names: seq<string>): (r: seq<HostState>)
    ensures |r| == |names|
    ensures forall i :: 0 <= i < |names| ==> r[i] == HostState(names[i], 0)
  {
    seq(|names|, i requires 0 <= i < |names| => HostState(names[i], 0))
  }

  function JobsOf(h: HostState): nat
  {
    h.njobs
  }

  /** The jobs placed on all hosts together. */
  function TotalJobs(hosts: seq<HostState>): nat
  {
    SumOf(hosts, JobsOf)
  }

  /** `Host.__cmp__`: hosts compare by their metric under one load snapshot. */
  function RankBy(load: string -> real): HostState -> real
  {
    (h: HostState) => Metric(load(h.name), h.njobs)
  }

  /** `hosts.sort()` under one load snapshot. */
  function Ranked(hosts: seq<HostState>, load: string -> real): seq<HostState>
  {
    SortBy(hosts, RankBy(load))
  }

  /** One SSH-mode placement: sort the hosts, then count one more job on the
      first of them. */
  function Assign(hosts: seq<HostState>, load: string -> real): (r: seq<HostState>)
    requires |hosts| > 0
    ensures |r| == |hosts|
  {
    var ranked := Ranked(hosts, load);
    ranked[0 := Bump(ranked[0])]
  }

  /** The record of a host after one more job was placed on it. */
  function Bump(h: HostState): (r: HostState)
    ensures r.name == h.name && r.njobs == h.njobs + 1
  {
    HostState(h.name, h.njobs + 1)
  }

  /** The host chosen for a job is the first host, in the current list order,
      whose metric is smallest: no host ranks below it, and every host before
      it ranks strictly above it. */
  lemma AssignChoosesFirstMinimum(hosts: seq<HostState>, load: string -> real)
    requires |hosts| > 0
    ensures var c := Ranked(hosts, load)[0];
      && c == hosts[FirstMinimum(hosts, RankBy(load))]
      && (forall j :: 0 <= j < |hosts| ==>
            Metric(load(c.name), c.njobs) <= Metric(load(hosts[j].name), hosts[j].njobs))
  {
    SortByHead(hosts, RankBy(load));
    var k := FirstMinimum(hosts, RankBy(load));
    forall j | 0 <= j < |hosts|
      ensures RankBy(load)(hosts[k]) <= RankBy(load)(hosts[j])
    {
    }
  }

  /** A placement keeps every host record but the chosen one, and raises the
      chosen one's job count by one. */
  lemma AssignReplacesChosen(hosts: seq<HostState>, load: string -> real)
    requires |hosts| > 0
    ensures var c := hosts[FirstMinimum(hosts, RankBy(load))];
      multiset(Assign(hosts, load))
        == multiset(hosts) - multiset{c} + multiset{Bump(c)}
  {
    var ranked := Ranked(hosts, load);
    SortByHead(hosts, RankBy(load));
    SortByUpdateHead(hosts, RankBy(load), Bump(ranked[0]));
  }

  /** A placement counts exactly one more job over all hosts. */
  lemma AssignCountsOneJob(hosts: seq<HostState>, load: string -> real)
    requires |hosts| > 0
    ensures TotalJobs(Assign(hosts, load)) == TotalJobs(hosts) + 1
  {
    var ranked := Ranked(hosts, load);
    SortBySum(hosts, RankBy(load), JobsOf);
    SumOfUpdateFirst(ranked, Bump(ranked[0]), JobsOf);
  }

  /** A host that reports no more load and carries no more jobs than another,
      and is strictly better on one of the two, is chosen before that other
      host: the other host is not the one chosen. */
  lemma AssignAvoidsDominatedHost(hosts: seq<HostState>, load: string -> real, i: nat, j: nat)
    requires i < |hosts| && j < |hosts|
    requires 0.0 <= load(hosts[i].name) <= load(hosts[j].name)
    requires hosts[i].njobs <= hosts[j].njobs
    requires load(hosts[i].name) < load(hosts[j].name) || hosts[i].njobs < hosts[j].njobs
    ensures FirstMinimum(hosts, RankBy(load)) != j
  {
    MetricDominance(load(hosts[i].name), hosts[i].njobs, load(hosts[j].name), hosts[j].njobs);
    assert RankBy(load)(hosts[i]) < RankBy(load)(hosts[j]);
  }

  // ---------------------------------------------------------------------------
  // Command lines
  // ---------------------------------------------------------------------------

  /** The arguments of one call of `run`, as the dispatcher uses them. */
  datatype Config = Config(
    student: string,
    db: string,
    nproc: int,
    nice: int,
    setup: Option<string>,
    args: Option<seq<string>>,
    studentArgs: Option<seq<string>>,
    useQsub: bool,
    qsubQueue: string,
    cwd: string)

  /** The extra-arguments field of the `./run` command: a lone space without
      arguments, otherwise the arguments joined by spaces and a closing space. */
  function ArgsField(args: Option<seq<string>>): string
  {
    match args
    case None => " "
    case Some(a) => Join(a, " ") + " "
  }

  /** The field always ends in a space, and without that space it splits back
      into the arguments when there is at least one and none holds a space. */
  lemma ArgsFieldRoundTrip(args: seq<string>)
    requires |args| > 0
    requires forall i :: 0 <= i < |args| ==> ' ' !in args[i]
    ensures var f := ArgsField(Some(args));
      |f| >= 1 && f[|f| - 1] == ' ' && SplitOn(f[..|f| - 1], ' ') == args
  {
    var f := ArgsField(Some(args));
    assert f[..|f| - 1] == Join(args, [' ']);
    SplitOnJoin(args, ' ');
  }

  /** `get_setup`: the lines of a setup file, each stripped, chained with
      ` && ` into one shell command. */
  function SetupChain(lines: seq<string>): string
  {
    Join(seq(|lines|, i requires 0 <= i < |lines| => Strip(lines[i])), " && ")
  }

  /** An empty file gives the empty command, one line gives that line stripped,
      and each further line adds ` && ` and that line stripped. */
  lemma SetupChainLines(lines: seq<string>, last: string)
    ensures SetupChain([]) == ""
    ensures SetupChain([last]) == Strip(last)
    ensures |lines| > 0 ==> SetupChain(lines + [last]) == SetupChain(lines) + " && " + Strip(last)
  {
    if |lines| > 0 {
      var stripped := seq(|lines|, i requires 0 <= i < |lines| => Strip(lines[i]));
      var more := lines + [last];
      assert seq(|more|, i requires 0 <= i < |more| => Strip(more[i])) == stripped + [Strip(last)];
      JoinSnoc(stripped, Strip(last), " && ");
    }
  }

  /** The part of a job's command line before the worker count: the change of
      directory, the setup chain if any, and `./run -s <student> -n `. */
  function JobHead(cfg: Config): string
  {
    var run := "./run -s " + cfg.student + " -n ";
    "cd " + cfg.cwd + " && " + (match cfg.setup case None => run case Some(s) => s + " && " + run)
  }

  /** The part between the worker count and the dataset name. */
  function JobMiddle(cfg: Config): string
  {
    " --db " + cfg.db + " --nice " + IntToString(cfg.nice) + " " + ArgsField(cfg.args)
  }

  /** The part after the dataset name: the student's own arguments, if any. */
  function JobTail(cfg: Config): string
  {
    match cfg.studentArgs
    case None => ""
    case Some(a) => " " + Join(a, " ")
  }

  /** The command line of the job for dataset `ds` with `workers` worker
      processes, as run in the submit directory. */
  function JobCommand(cfg: Config, workers: int, ds: string): string
  {
    JobHead(cfg) + (IntToString(workers) + (JobMiddle(cfg) + (ds + JobTail(cfg))))
  }

  /** For one configuration, the command line records its worker count and its
      dataset: two jobs with the same command line agree on both. */
  lemma JobCommandInjective(cfg: Config, w1: int, ds1: string, w2: int, ds2: string)
    requires JobCommand(cfg, w1, ds1) == JobCommand(cfg, w2, ds2)
    ensures w1 == w2 && ds1 == ds2
  {
    var head, mid, tail := JobHead(cfg), JobMiddle(cfg), JobTail(cfg);
    CancelPrefix(head, IntToString(w1) + (mid + (ds1 + tail)), IntToString(w2) + (mid + (ds2 + tail)));
    DecimalThenNonDigit(w1, mid + (ds1 + tail), w2, mid + (ds2 + tail));
    CancelPrefix(mid, ds1 + tail, ds2 + tail);
    CancelSuffix(ds1, ds2, tail);
  }

  /** `ssh <host> '<job>'`: the line that launches a job on a host. */
  function SshCommand(host: string, job: string): string
  {
    "ssh " + host + " '" + job + "'"
  }

  /** `echo '<job>' | qsub -q <queue> -l ncpus=<n>`: the line that submits a
      job to the batch scheduler. */
  function QsubCommand(job: string, queue: string, ncpus: int): string
  {
    "echo '" + job + "' | qsub -q " + queue + " -l ncpus=" + IntToString(ncpus)
  }

  /** `min(nproc, len(files))`: never more workers than requested, never more
      than there are files to share out. */
  function WorkerCount(nproc: int, nfiles: nat): (n: int)
    ensures n <= nproc && n <= nfiles
    ensures n == nproc || n == nfiles
  {
    if nproc <= nfiles then nproc else nfiles
  }

  // ---------------------------------------------------------------------------
  // The dispatch loop
  // ---------------------------------------------------------------------------

  /** What the dispatcher does with one dataset's job. */
  datatype Dispatch =
    | Launched(host: string, job: string)
    | Submitted(job: string, queue: string, ncpus: int)
  {
    /** The shell line handed to the operating system for the job. */
    function ShellLine(): string
    {
      match this
      case Launched(host, job) => SshCommand(host, job)
      case Submitted(job, queue, ncpus) => QsubCommand(job, queue, ncpus)
    }
  }

  lemma ShellLineHead(d: Dispatch)
    ensures |d.ShellLine()| > 0 && d.ShellLine()[0] == if d.Launched? then 's' else 'e'
  {
  }

  /** The shell line tells how a job was dispatched: a launch never reads as a
      submission, and a launch on a host whose name holds no space gives back
      that host and that job. */
  lemma ShellLineDecodes(d1: Dispatch, d2: Dispatch)
    requires d1.ShellLine() == d2.ShellLine()
    requires d1.Launched? ==> ' ' !in d1.host
    requires d2.Launched? ==> ' ' !in d2.host
    ensures d1.Launched? <==> d2.Launched?
    ensures d1.Launched? ==> d1 == d2
  {
    ShellLineHead(d1);
    ShellLineHead(d2);
    if d1.Launched? && d2.Launched? {
      var h1, j1, h2, j2 := d1.host, d1.job, d2.host, d2.job;
      var x1, x2 := " '" + (j1 + "'"), " '" + (j2 + "'");
      assert SshCommand(h1, j1) == "ssh " + (h1 + x1);
      assert SshCommand(h2, j2) == "ssh " + (h2 + x2);
      CancelPrefix("ssh ", h1 + x1, h2 + x2);
      if |h1| < |h2| {
        SplitInside(h1, x1, h2, x2);
        assert false;
      } else if |h2| < |h1| {
        SplitInside(h2, x2, h1, x1);
        assert false;
      }
      SplitSame(h1, x1, h2, x2);
      CancelPrefix(" '", j1 + "'", j2 + "'");
      CancelSuffix(j1, j2, "'");
    }
  }

  /** `hosts[0]` on an empty host list in SSH mode (an `IndexError`). */
  datatype RunError = NoHostToSelect

  /** The load snapshot of one step. */
  function LoadAt(load: (nat, string) -> real, step: nat): string -> real
  {
    (name: string) => load(step, name)
  }

  /** The rest of a run: `hosts` are the records so far, `pending` the datasets
      still queued, `step` the number already taken, `done` the jobs dispatched
      so far. The result is the final host records and all dispatched jobs. */
  function RunFrom(cfg: Config, hosts: seq<HostState>, pending: seq<string>, step: nat,
                   files: string -> nat, load: (nat, string) -> real, done: seq<Dispatch>)
    : Result<(seq<HostState>, seq<Dispatch>), RunError>
    decreases |pending|
  {
    if |pending| == 0 then Ok((hosts, done))
    else
      var ds := pending[0];
      var workers := WorkerCount(cfg.nproc, files(ds));
      var job := JobCommand(cfg, workers, ds);
      if cfg.useQsub then
        RunFrom(cfg, hosts, pending[1..], step + 1, files, load,
                done + [Submitted(job, cfg.qsubQueue, workers)])
      else if |hosts| == 0 then Err(NoHostToSelect)
      else
        var chosen := Ranked(hosts, LoadAt(load, step))[0];
        RunFrom(cfg, Assign(hosts, LoadAt(load, step)), pending[1..], step + 1, files, load,
                done + [Launched(chosen.name, job)])
  }

  /** A whole run over `datasets` on fresh records for `hostNames`. */
  function RunSpec(cfg: Config, datasets: seq<string>, hostNames: seq<string>,
                   files: string -> nat, load: (nat, string) -> real)
    : Result<(seq<HostState>, seq<Dispatch>), RunError>
  {
    RunFrom(cfg, Idle(hostNames), datasets, 0, files, load, [])
  }

  /** `run`: dispatch every dataset in order, returning what was dispatched and
      the host records of the run. */
  method Run(cfg: Config, datasets: seq<string>, hostNames: seq<string>,
             files: string -> nat, load: (nat, string) -> real)
    returns (outcome: Result<seq<Dispatch>, RunError>, hosts: seq<Host>)
    ensures forall h :: h in hosts ==> fresh(h)
    ensures match RunSpec(cfg, datasets, hostNames, files, load)
      case Ok(r) => outcome == Ok(r.1) && Abs(hosts) == r.0
      case Err(e) => outcome == Err(e)
  {
    hosts := NewHosts(hostNames);
    var pending := datasets;  // `datasets[:]`: the caller's list is a value here
    var dispatched: seq<Dispatch> := [];
    var step: nat := 0;
    while |pending| > 0
      invariant forall h :: h in hosts ==> fresh(h)
      invariant NoDuplicates(hosts)
      invariant RunFrom(cfg, Abs(hosts), pending, step, files, load, dispatched)
                == RunSpec(cfg, datasets, hostNames, files, load)
      decreases |pending|
    {
      ghost var before := Abs(hosts);
      ghost var queued := pending;
      var ds := pending[0];
      pending := pending[1..];
      var workers := WorkerCount(cfg.nproc, files(ds));
      var job := JobCommand(cfg, workers, ds);
      RunFromStep(cfg, before, queued, step, files, load, dispatched);
      if cfg.useQsub {
        dispatched := dispatched + [Submitted(job, cfg.qsubQueue, workers)];
      } else {
        if |hosts| == 0 {
          return Err(NoHostToSelect), hosts;
        }
        hosts := PlaceJob(hosts, LoadAt(load, step));
        var host := hosts[0];
        assert host.name == Ranked(before, LoadAt(load, step))[0].name;
        dispatched := dispatched + [Launched(host.name, job)];
      }
      step := step + 1;
    }
    outcome := Ok(dispatched);
  }

  /** `[Host(host) for host in hosts]`: one fresh record per name, in order. */
  method NewHosts(names: seq<string>) returns (hosts: seq<Host>)
    ensures forall h :: h in hosts ==> fresh(h)
    ensures NoDuplicates(hosts)
    ensures Abs(hosts) == Idle(names)
  {
    hosts := [];
    var i := 0;
    while i < |names|
      invariant 0 <= i <= |names| && |hosts| == i
      invariant forall h :: h in hosts ==> fresh(h)
      invariant NoDuplicates(hosts)
      invariant forall k :: 0 <= k < i ==> hosts[k].name == names[k] && hosts[k].njobs == 0
    {
      var h := new Host(names[i]);
      hosts := hosts + [h];
      i := i + 1;
    }
  }

  /** One step of a run, unfolded: what happens to the first pending dataset. */
  lemma RunFromStep(cfg: Config, hosts: seq<HostState>, pending: seq<string>, step: nat,
                    files: string -> nat, load: (nat, string) -> real, done: seq<Dispatch>)
    requires |pending| > 0
    ensures var workers := WorkerCount(cfg.nproc, files(pending[0]));
      var job := JobCommand(cfg, workers, pending[0]);
      RunFrom(cfg, hosts, pending, step, files, load, done)
        == if cfg.useQsub then
             RunFrom(cfg, hosts, pending[1..], step + 1, files, load,
                     done + [Submitted(job, cfg.qsubQueue, workers)])
           else if |hosts| == 0 then Err(NoHostToSelect)
           else
             RunFrom(cfg, Assign(hosts, LoadAt(load, step)), pending[1..], step + 1, files, load,
                     done + [Launched(Ranked(hosts, LoadAt(load, step))[0].name, job)])
  {
  }

  /** One SSH-mode placement on the host records: `hosts.sort()` under the load
      snapshot, then `hosts[0].njobs += 1`. The records keep their identity;
      only the chosen one changes. */
  method PlaceJob(hosts: seq<Host>, load: string -> real) returns (ranked: seq<Host>)
    requires |hosts| > 0 && NoDuplicates(hosts)
    modifies set h | h in hosts
    ensures NoDuplicates(ranked)
    ensures forall h :: h in ranked <==> h in hosts
    ensures Abs(ranked) == Assign(old(Abs(hosts)), load)
  {
    ranked := SortHosts(hosts, load);
    ghost var sorted := Abs(ranked);
    var host := ranked[0];
    host.njobs := host.njobs + 1;
    forall k | 0 <= k < |ranked|
      ensures Abs(ranked)[k] == sorted[0 := Bump(sorted[0])][k]
    {
      if k > 0 {
        assert ranked[k] != host;
      }
    }
  }

  /** `hosts.sort()` under one load snapshot: the metric of every record is
      taken once, then the records are sorted by it. */
  method SortHosts(hosts: seq<Host>, load: string -> real) returns (ranked: seq<Host>)
    requires NoDuplicates(hosts)
    ensures NoDuplicates(ranked)
    ensures forall h :: h in ranked <==> h in hosts
    ensures Abs(ranked) == Ranked(Abs(hosts), load)
  {
    var snapshot := map h | h in hosts :: Metric(load(h.name), h.njobs);
    var key := (h: Host) => if h in snapshot then snapshot[h] else 0.0;
    AbsSortBy(hosts, key, RankBy(load));
    SortByNoDuplicates(hosts, key);
    ranked := SortBy(hosts, key);
  }

  lemma {:induction false} AbsInsert(x: Host, t: seq<Host>, kc: Host -> real, ka: HostState -> real)
    requires kc(x) == ka(StateOf(x))
    requires forall h :: h in t ==> kc(h) == ka(StateOf(h))
    ensures Abs(Insert(x, t, kc)) == Insert(StateOf(x), Abs(t), ka)
    decreases |t|
  {
    if |t| > 0 && kc(x) > kc(t[0]) {
      AbsInsert(x, t[1..], kc, ka);
      assert Abs(t)[1..] == Abs(t[1..]);
    }
  }

  /** Sorting host records by a key that depends only on their values and
      sorting those values give the same list of values. */
  lemma {:induction false} AbsSortBy(hosts: seq<Host>, kc: Host -> real, ka: HostState -> real)
    requires forall h :: h in hosts ==> kc(h) == ka(StateOf(h))
    ensures Abs(SortBy(hosts, kc)) == SortBy(Abs(hosts), ka)
    decreases |hosts|
  {
    if |hosts| > 0 {
      AbsSortBy(hosts[1..], kc, ka);
      SortByMembers(hosts[1..], kc);
      AbsInsert(hosts[0], SortBy(hosts[1..], kc), kc, ka);
      assert Abs(hosts)[1..] == Abs(hosts[1..]);
    }
  }

  // ---------------------------------------------------------------------------
  // What a run does
  // ---------------------------------------------------------------------------

  /** The names of a list of host records. */
  function Names(hosts: seq<HostState>): set<string>
  {
    set h | h in hosts :: h.name
  }

  /** A placement neither adds nor loses a host name, and the chosen host is
      one of the hosts. */
  lemma AssignKeepsNames(hosts: seq<HostState>, load: string -> real)
    requires |hosts| > 0
    ensures Ranked(hosts, load)[0].name in Names(hosts)
    ensures Names(Assign(hosts, load)) == Names(hosts)
  {
    var ranked := Ranked(hosts, load);
    SortByPermutes(hosts, RankBy(load));
    NamesOfPermutation(ranked, hosts);
    NamesOfBumpFirst(ranked);
    assert ranked[0] in ranked;
  }

  lemma NamesOfPermutation(a: seq<HostState>, b: seq<HostState>)
    requires multiset(a) == multiset(b)
    ensures Names(a) == Names(b)
  {
    forall n | n in Names(a)
      ensures n in Names(b)
    {
      var h :| h in a && h.name == n;
      assert h in multiset(a);
    }
    forall n | n in Names(b)
      ensures n in Names(a)
    {
      var h :| h in b && h.name == n;
      assert h in multiset(b);
    }
  }

  lemma NamesOfBumpFirst(s: seq<HostState>)
    requires |s| > 0
    ensures Names(s[0 := Bump(s[0])]) == Names(s)
  {
    var t := s[0 := Bump(s[0])];
    forall n | n in Names(t)
      ensures n in Names(s)
    {
      var h :| h in t && h.name == n;
      var i :| 0 <= i < |t| && t[i] == h;
      assert s[i].name == n;
    }
    forall n | n in Names(s)
      ensures n in Names(t)
    {
      var h :| h in s && h.name == n;
      var i :| 0 <= i < |s| && s[i] == h;
      assert t[i].name == n;
    }
  }

  /** A run fails exactly when, in SSH mode, a dataset is pending and there is
      no host to place it on. */
  lemma {:induction false} RunFromFails(cfg: Config, hosts: seq<HostState>, pending: seq<string>,
                                        step: nat, files: string -> nat,
                                        load: (nat, string) -> real, done: seq<Dispatch>)
    ensures RunFrom(cfg, hosts, pending, step, files, load, done).Err?
        <==> !cfg.useQsub && |hosts| == 0 && |pending| > 0
    decreases |pending|
  {
    if |pending| > 0 {
      RunFromStep(cfg, hosts, pending, step, files, load, done);
      var workers := WorkerCount(cfg.nproc, files(pending[0]));
      var job := JobCommand(cfg, workers, pending[0]);
      if cfg.useQsub {
        RunFromFails(cfg, hosts, pending[1..], step + 1, files, load,
                     done + [Submitted(job, cfg.qsubQueue, workers)]);
      } else if |hosts| > 0 {
        var chosen := Ranked(hosts, LoadAt(load, step))[0];
        RunFromFails(cfg, Assign(hosts, LoadAt(load, step)), pending[1..], step + 1, files, load,
                     done + [Launched(chosen.name, job)]);
      }
    }
  }

  /** The job dispatched for dataset `ds`: the command line for the dataset
      and its capped worker count, submitted to the configured queue with that
      many processors in batch mode, launched on one of `names` in SSH mode. */
  predicate JobFor(cfg: Config, files: string -> nat, ds: string, d: Dispatch, names: set<string>)
  {
    var w := WorkerCount(cfg.nproc, files(ds));
    && d.job == JobCommand(cfg, w, ds)
    && (d.Submitted? <==> cfg.useQsub)
    && (d.Submitted? ==> d.queue == cfg.qsubQueue && d.ncpus == w)
    && (d.Launched? ==> d.host in names)
  }

  /** In SSH mode each dataset goes to a host whose metric, under the load
      snapshot of its step, is smallest among all hosts; ties go to the host
      that comes first in the current order. */
  lemma SshStepChoosesMinimum(cfg: Config, hosts: seq<HostState>, pending: seq<string>,
                              step: nat, files: string -> nat,
                              load: (nat, string) -> real, done: seq<Dispatch>)
    returns (c: HostState)
    requires |pending| > 0 && !cfg.useQsub && |hosts| > 0
    ensures c == hosts[FirstMinimum(hosts, RankBy(LoadAt(load, step)))]
    ensures forall h :: h in hosts ==> Metric(load(step, c.name), c.njobs) <= Metric(load(step, h.name), h.njobs)
    ensures RunFrom(cfg, hosts, pending, step, files, load, done)
         == RunFrom(cfg, Assign(hosts, LoadAt(load, step)), pending[1..], step + 1, files, load,
                    done + [Launched(c.name, JobCommand(cfg, WorkerCount(cfg.nproc, files(pending[0])), pending[0]))])
  {
    RunFromStep(cfg, hosts, pending, step, files, load, done);
    AssignChoosesFirstMinimum(hosts, LoadAt(load, step));
    c := Ranked(hosts, LoadAt(load, step))[0];
  }

  /** The first step of a run that does not fail there: the job it dispatches
      for the first pending dataset and the host records it leaves. */
  lemma RunFromNext(cfg: Config, hosts: seq<HostState>, pending: seq<string>,
                    step: nat, files: string -> nat,
                    load: (nat, string) -> real, done: seq<Dispatch>)
    returns (d: Dispatch, next: seq<HostState>)
    requires |pending| > 0 && (cfg.useQsub || |hosts| > 0)
    ensures RunFrom(cfg, hosts, pending, step, files, load, done)
         == RunFrom(cfg, next, pending[1..], step + 1, files, load, done + [d])
    ensures JobFor(cfg, files, pending[0], d, Names(hosts))
    ensures Names(next) == Names(hosts) && |next| == |hosts|
    ensures TotalJobs(next) == TotalJobs(hosts) + (if cfg.useQsub then 0 else 1)
    ensures cfg.useQsub ==> next == hosts
  {
    RunFromStep(cfg, hosts, pending, step, files, load, done);
    var workers := WorkerCount(cfg.nproc, files(pending[0]));
    var job := JobCommand(cfg, workers, pending[0]);
    if cfg.useQsub {
      d, next := Submitted(job, cfg.qsubQueue, workers), hosts;
    } else {
      AssignKeepsNames(hosts, LoadAt(load, step));
      AssignCountsOneJob(hosts, LoadAt(load, step));
      d := Launched(Ranked(hosts, LoadAt(load, step))[0].name, job);
      next := Assign(hosts, LoadAt(load, step));
    }
  }

  /** A successful run dispatches one job per pending dataset, in queue order,
      after the jobs dispatched before. */
  lemma {:induction false} RunFromDispatches(cfg: Config, hosts: seq<HostState>, pending: seq<string>,
                                             step: nat, files: string -> nat,
                                             load: (nat, string) -> real, done: seq<Dispatch>)
    requires RunFrom(cfg, hosts, pending, step, files, load, done).Ok?
    ensures var out := RunFrom(cfg, hosts, pending, step, files, load, done).value.1;
      && |out| == |done| + |pending|
      && out[..|done|] == done
      && forall k :: 0 <= k < |pending| ==> JobFor(cfg, files, pending[k], out[|done| + k], Names(hosts))
    decreases |pending|
  {
    if |pending| > 0 {
      var d, next := RunFromNext(cfg, hosts, pending, step, files, load, done);
      var result := RunFrom(cfg, hosts, pending, step, files, load, done);
      RunFromDispatches(cfg, next, pending[1..], step + 1, files, load, done + [d]);
      DispatchedAfter(cfg, files, pending, done, d, result.value.1, Names(hosts));
    }
  }

  lemma DispatchedAfter(cfg: Config, files: string -> nat, pending: seq<string>, done: seq<Dispatch>,
                        d: Dispatch, out: seq<Dispatch>, names: set<string>)
    requires |pending| > 0 && JobFor(cfg, files, pending[0], d, names)
    requires |out| == |done + [d]| + |pending[1..]| && out[..|done + [d]|] == done + [d]
    requires forall k :: 0 <= k < |pending[1..]| ==>
      JobFor(cfg, files, pending[1..][k], out[|done + [d]| + k], names)
    ensures |out| == |done| + |pending| && out[..|done|] == done
    ensures forall k :: 0 <= k < |pending| ==> JobFor(cfg, files, pending[k], out[|done| + k], names)
  {
    assert out[..|done|] == (done + [d])[..|done|];
    assert out[|done|] == (done + [d])[|done|];
    forall k | 1 <= k < |pending|
      ensures JobFor(cfg, files, pending[k], out[|done| + k], names)
    {
      assert pending[k] == pending[1..][k - 1];
      assert |done| + k == |done + [d]| + (k - 1);
    }
  }

  /** A successful run places one job per pending dataset in SSH mode, and
      leaves the host records as they were in batch mode. */
  lemma {:induction false} RunFromJobs(cfg: Config, hosts: seq<HostState>, pending: seq<string>,
                                       step: nat, files: string -> nat,
                                       load: (nat, string) -> real, done: seq<Dispatch>)
    requires RunFrom(cfg, hosts, pending, step, files, load, done).Ok?
    ensures var after := RunFrom(cfg, hosts, pending, step, files, load, done).value.0;
      && |after| == |hosts|
      && TotalJobs(after) == TotalJobs(hosts) + (if cfg.useQsub then 0 else |pending|)
      && (cfg.useQsub ==> after == hosts)
    decreases |pending|
  {
    if |pending| > 0 {
      RunFromFails(cfg, hosts, pending, step, files, load, done);
      var d, next := RunFromNext(cfg, hosts, pending, step, files, load, done);
      RunFromJobs(cfg, next, pending[1..], step + 1, files, load, done + [d]);
    }
  }

  lemma {:induction false} IdleHasNoJobs(names: seq<string>)
    ensures TotalJobs(Idle(names)) == 0
    ensures Names(Idle(names)) == set n | n in names
  {
    if |names| > 0 {
      IdleHasNoJobs(names[1..]);
      assert Idle(names)[1..] == Idle(names[1..]);
      assert forall n :: n in names <==> n == names[0] || n in names[1..];
      assert forall h :: h in Idle(names) <==> h == Idle(names)[0] || h in Idle(names[1..]);
    }
  }

  /** A whole run fails exactly when it is in SSH mode with datasets to place
      and no hosts. */
  lemma RunFails(cfg: Config, datasets: seq<string>, hostNames: seq<string>,
                 files: string -> nat, load: (nat, string) -> real)
    ensures RunSpec(cfg, datasets, hostNames, files, load).Err?
        <==> !cfg.useQsub && |hostNames| == 0 && |datasets| > 0
  {
    RunFromFails(cfg, Idle(hostNames), datasets, 0, files, load, []);
  }

  /** A successful run dispatches the datasets in their order, one job each;
      in SSH mode the jobs counted on the hosts add up to the number of
      datasets, and in batch mode every host still has no job. */
  lemma RunDispatchesAll(cfg: Config, datasets: seq<string>, hostNames: seq<string>,
                         files: string -> nat, load: (nat, string) -> real)
    requires RunSpec(cfg, datasets, hostNames, files, load).Ok?
    ensures var r := RunSpec(cfg, datasets, hostNames, files, load).value;
      && |r.1| == |datasets|
      && (forall k :: 0 <= k < |datasets| ==>
            JobFor(cfg, files, datasets[k], r.1[k], set n | n in hostNames))
      && |r.0| == |hostNames|
      && TotalJobs(r.0) == (if cfg.useQsub then 0 else |datasets|)
      && (cfg.useQsub ==> r.0 == Idle(hostNames))
  {
    RunFromDispatches(cfg, Idle(hostNames), datasets, 0, files, load, []);
    RunFromJobs(cfg, Idle(hostNames), datasets, 0, files, load, []);
    IdleHasNoJobs(hostNames);
  }

  /** Two idle hosts A and B reporting loads 0.1 and 0.05 and three datasets in
      SSH mode: the first job goes to B (0.05 against 0.1), the second to A
      (0.1 against B's 1.1), the third to B again (1.1 against A's 1.2). */
  lemma ThreeJobsOnTwoHosts(cfg: Config, files: string -> nat)
    requires !cfg.useQsub
    ensures var load := (step: nat, name: string) => if name == "A" then 0.1 else 0.05;
      var r := RunSpec(cfg, ["d1", "d2", "d3"], ["A", "B"], files, load);
      && r.Ok?
      && |r.value.1| == 3
      && r.value.1[0].Launched? && r.value.1[0].host == "B"
      && r.value.1[1].Launched? && r.value.1[1].host == "A"
      && r.value.1[2].Launched? && r.value.1[2].host == "B"
      && r.value.0 == [HostState("B", 2), HostState("A", 1)]
  {
    var load := (step: nat, name: string) => if name == "A" then 0.1 else 0.05;
    var a0, b0 := HostState("A", 0), HostState("B", 0);
    assert Idle(["A", "B"]) == [a0, b0];
    SortByTwo(a0, b0, RankBy(LoadAt(load, 0)));
    assert RankBy(LoadAt(load, 0))(a0) == 0.1 && RankBy(LoadAt(load, 0))(b0) == 0.05;
    assert Ranked([a0, b0], LoadAt(load, 0)) == [b0, a0];
    var a1, b1 := HostState("A", 1), HostState("B", 1);
    assert Assign([a0, b0], LoadAt(load, 0)) == [b1, a0];
    SortByTwo(b1, a0, RankBy(LoadAt(load, 1)));
    assert RankBy(LoadAt(load, 1))(b1) == 1.1 && RankBy(LoadAt(load, 1))(a0) == 0.1;
    assert Ranked([b1, a0], LoadAt(load, 1)) == [a0, b1];
    assert Assign([b1, a0], LoadAt(load, 1)) == [a1, b1];
    SortByTwo(a1, b1, RankBy(LoadAt(load, 2)));
    assert Metric(0.1, 1) == 1.2;
    assert RankBy(LoadAt(load, 2))(a1) == 1.2 && RankBy(LoadAt(load, 2))(b1) == 1.1;
    assert Ranked([a1, b1], LoadAt(load, 2)) == [b1, a1];
    assert Assign([a1, b1], LoadAt(load, 2)) == [HostState("B", 2), a1];
  }
}
