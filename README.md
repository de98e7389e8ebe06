# hhntup dispatcher and hadhad event filters, modelled in Dafny

This project models two parts of the hhntup analysis code.

- **The job dispatcher of `cluster.py`.** `run` takes a student analysis, a
  dataset database, a list of datasets and a list of host names. It creates
  one `Host` record per name and works through a copy of the dataset list
  front to back. For each dataset it caps the number of worker processes at
  the dataset's file count and builds the job's shell command. In batch mode
  it submits the job to the `qsub` scheduler. In SSH mode it sorts the hosts
  by load metric (`load * (njobs + 1) + njobs`), launches the job on the
  first host and counts one more job on that host.
- **The hadhad event filters of `higgstautau/hadhad/filters.py`.** These are
  the year and run-range trigger choice, the leading/subleading tau momentum
  cut, the electron and muon vetoes, truth matching, and the choice logic of
  the efficiency and fake-rate scale-factor filters.

Files:

- `outcomes.dfy`: `Option` and `Result`. A Python call that raises becomes
  an `Err`.
- `text.dfy`: `sep.join`, `str.strip` and `"%d"` formatting. It also has the
  inverses used to state round trips: splitting on one character, and
  parsing an integer.
- `sorting.dfy`: Python's stable `list.sort` as an insertion sort by a real
  key, with its properties: it is a permutation, the result is sorted, it is
  stable, its head is the first minimum, and it keeps counts and sums.
- `cluster.dfy`: the `Host` class, the load metric, the command-line
  builders, the dispatch loop as the method `Run`, and the specification
  function `RunFrom` it is proved against.
- `hadhad_filters.dfy`: the `Event` class, whose tau list the filters
  rewrite, and each filter as a function or method.

Inputs the source gets from the outside become parameters:

- the remote load probe `get_load` becomes `load(step, name)`, the load
  that host `name` reports while the `step`-th dataset is placed;
- the dataset database becomes `files(dataset)`, the dataset's file count;
- the muon track-quality test becomes `goodTrack(muon, year)`;
- the tau identification tool becomes `tool(tau, year)`;
- the fake-rate tool becomes `scaleFactor(query)` and
  `uncertainty(query, up)`.

Energies are in MeV, with `GeV` = 1000.

## Model

| member | source | states |
|---|---|---|
| Cluster.Host.constructor | cluster.py:14-17 | a new host record has the given name and no jobs |
| Cluster.Metric | cluster.py:24-26 | an idle host's metric is its load; with a non-negative load the metric is at least load plus jobs |
| Cluster.MetricIncrement | cluster.py:24-26 | one more job raises the metric by exactly load + 1, so by at least 1 for a non-negative load |
| Cluster.MetricDominance | cluster.py:24-31 | a host no more loaded and no busier than another, and strictly better in one of the two, compares strictly lower |
| Cluster.RankBy | cluster.py:28-31 | `Host.__cmp__`: hosts compare by their load metric under one load snapshot; `MetricDominance` and `AssignAvoidsDominatedHost` state what this ordering prefers |
| Cluster.Ranked | cluster.py:116 | `hosts.sort()` under one load snapshot, as the stable sort by `RankBy`; `SortHosts` proves the in-place sort of the records equal to it |
| Cluster.Assign | cluster.py:116-129 | one SSH-mode placement on record values: sort the hosts, then count one more job on the first; the `Assign*` lemmas below state which host is chosen and what changes |
| Cluster.AssignChoosesFirstMinimum | cluster.py:116-117 | the host taken after `hosts.sort()` is the first host in the current order with the smallest metric, and no host has a smaller metric |
| Cluster.AssignAvoidsDominatedHost | cluster.py:116-117 | a host dominated by another host is never the one chosen |
| Cluster.AssignReplacesChosen | cluster.py:116-129 | one placement keeps every host record except the chosen one, which gains exactly one job |
| Cluster.AssignCountsOneJob | cluster.py:116-129 | one placement raises the total job count over all hosts by exactly one |
| Cluster.AssignKeepsNames | cluster.py:116-129 | one placement neither adds nor loses a host, and the chosen host is one of the hosts |
| Cluster.ArgsField | cluster.py:92-95 | the extra-arguments field: a lone space without arguments, else the arguments joined by spaces and a closing space; `ArgsFieldRoundTrip` states its inverse |
| Cluster.ArgsFieldRoundTrip | cluster.py:92-95 | the extra-arguments field ends in a space, and without it splits back into the arguments when there is at least one and none holds a space (an empty list gives `" "`, which splits to `[""]`) |
| Cluster.SetupChain | cluster.py:60-64 | `get_setup` on the lines of the file: each line stripped, chained with ` && `; `SetupChainLines` states it line by line |
| Cluster.SetupChainLines | cluster.py:60-64 | the setup chain of no lines is empty, of one line is that line stripped, and each further line adds ` && ` and the line stripped |
| Cluster.JobCommand | cluster.py:99-121 | the job command: `cd`, the optional setup chain, `./run` with the student, worker count, database, nice level, extra arguments, dataset and student arguments; `JobCommandInjective` states what it records |
| Cluster.JobCommandInjective | cluster.py:99-121 | under one configuration the job command determines its worker count and its dataset |
| Cluster.WorkerCount | cluster.py:113 | the worker count is at most `nproc`, at most the file count, and equal to one of them |
| Cluster.SshCommand | cluster.py:125 | `ssh <host> '<job>'`, the line that launches a job on a host |
| Cluster.QsubCommand | cluster.py:72-75 | `echo '<job>'` piped into `qsub -q <queue> -l ncpus=<n>`, the line that submits a job to the scheduler |
| Cluster.Dispatch.ShellLine | cluster.py:122-125 | the shell line of a dispatched job: the ssh line for a launch, the qsub line for a submission |
| Cluster.ShellLineDecodes | cluster.py:122-125 | a launch and a submission never share a shell line, and the ssh line of a launch on a host whose name holds no space gives back the host and the job |
| Cluster.NewHosts | cluster.py:105 | the records are fresh, distinct, and hold the names in order with no jobs |
| Cluster.SortHosts | cluster.py:116 | sorting the records under one load snapshot orders their values as the metric ranking does, and keeps the same distinct records |
| Cluster.PlaceJob | cluster.py:116-129 | sorting and incrementing the records in place leaves exactly the values of one placement, with the same distinct records |
| Cluster.Run | cluster.py:80-134 | the method returns the dispatched jobs and leaves the host records that the run specification gives, or the same error |
| Cluster.RunFrom | cluster.py:109-130 | the rest of the dispatch loop on values: pop the next dataset, build its job, submit it in batch mode, or sort the hosts and launch it on the first in SSH mode; an empty host list in SSH mode is the `IndexError`. The lemmas below state what a run does |
| Cluster.RunSpec | cluster.py:105-130 | a whole run: `RunFrom` on fresh records for the host names and the whole dataset queue; `Run` is proved against it |
| Cluster.SshStepChoosesMinimum | cluster.py:114-129 | each SSH-mode step launches the job on the host with the smallest metric under that step's loads (the first such host on a tie), then places the job there |
| Cluster.RunFromNext | cluster.py:109-130 | a step that does not fail dispatches a job that fits its dataset, keeps the host names, and adds one job in SSH mode and none in batch mode |
| Cluster.RunFromFails | cluster.py:109-117 | the rest of a run fails exactly when it is in SSH mode, a dataset is pending and there are no hosts |
| Cluster.RunFromDispatches | cluster.py:109-125 | a successful run appends one job per pending dataset in queue order, each with its dataset's command line and worker count, submitted in batch mode and launched on a known host in SSH mode |
| Cluster.RunFromJobs | cluster.py:109-130 | a successful run adds one job per dataset to the hosts' total in SSH mode, and leaves the host records unchanged in batch mode |
| Cluster.IdleHasNoJobs | cluster.py:105 | fresh host records carry no jobs and exactly the given names |
| Cluster.RunFails | cluster.py:105-117 | a whole run fails exactly in SSH mode with datasets and no hosts |
| Cluster.RunDispatchesAll | cluster.py:105-130 | a successful run dispatches every dataset once, in order, with its command; in SSH mode the jobs on the hosts add up to the number of datasets; in batch mode every host stays idle |
| Cluster.ThreeJobsOnTwoHosts | cluster.py:109-129 | hosts A (load 0.1) and B (load 0.05) with three datasets get B, A, B, and end with B at two jobs and A at one |
| Text.Join | cluster.py:95 | `sep.join(parts)`: the parts in order with the separator between neighbours; `JoinSplitOn` and `SplitOnJoin` state it is the inverse of splitting |
| Text.JoinLength | cluster.py:95 | the length of a joined string is the total length of the parts plus one separator length for each pair of neighbours |
| Text.JoinSnoc | cluster.py:63-64 | joining one more part appends the separator and that part |
| Text.JoinSplitOn | cluster.py:95 | splitting on a one-character separator and joining again gives back the string |
| Text.SplitOnJoin | cluster.py:95 | parts without the separator, once joined, split back into the same parts |
| Text.StripLeft | cluster.py:63 | the result is a suffix of the input, everything cut off is whitespace, and it does not start with whitespace |
| Text.StripRight | cluster.py:63 | the result is a prefix of the input, everything cut off is whitespace, and it does not end with whitespace |
| Text.Strip | cluster.py:63 | a stripped line is a slice of the line with only whitespace cut off before and after it, and neither of its ends is whitespace |
| Text.StripIdempotent | cluster.py:63 | stripping twice is stripping once |
| Text.NatToString | cluster.py:99 | the decimal rendering of a number is non-empty and all digits, and starts with `0` only as the whole rendering `0` of zero |
| Text.IntToString | cluster.py:99 | Python's `"%d" % i`: a minus sign for a negative integer, then the digits; `ParseIntToString` states that it reads back |
| Text.ParseIntToString | cluster.py:99-100 | every `%d` rendering parses back to its integer |
| Text.DecimalThenNonDigit | cluster.py:118 | a `%d` rendering followed by text that starts with a non-digit determines both the number and the text |
| Sorting.SortBy | cluster.py:116 | Python's stable `list.sort` by a key, as an insertion sort; the `SortBy*` lemmas below state that it permutes, sorts and is stable |
| Sorting.FirstMinimum | cluster.py:116-117 | the position found holds a smallest key, and every earlier element has a strictly larger key |
| Sorting.SortByPermutes | cluster.py:116 | the sort neither adds, drops nor duplicates an element |
| Sorting.SortBySorted | cluster.py:116 | the sorted list is in ascending key order |
| Sorting.SortByStable | cluster.py:116 | elements with equal keys keep their relative order |
| Sorting.SortByCount | higgstautau/hadhad/filters.py:24 | sorting keeps the number of elements that satisfy any predicate |
| Sorting.SortBySum | cluster.py:116 | sorting keeps the sum of any measure over the elements |
| Sorting.SortByHead | cluster.py:116-117 | the first element after sorting is the first element of smallest key in the current order |
| Sorting.SortByHeadIsMinimum | higgstautau/hadhad/filters.py:24 | no element has a smaller key than the first one after sorting |
| Sorting.SortBySecondIsNextMinimum | higgstautau/hadhad/filters.py:24-26 | once one copy of the first element is set aside, no element has a smaller key than the second one after sorting |
| Sorting.SortByUpdateHead | cluster.py:116-129 | changing the head of the sorted list swaps out exactly the first minimum of the list |
| Sorting.SortByNoDuplicates | cluster.py:116 | sorting distinct elements gives distinct elements, the same ones |
| Sorting.SortByMembers | cluster.py:116 | every element of a sorted list comes from the list |
| Sorting.SortByTwo | cluster.py:116 | two elements are swapped exactly when the second has the strictly smaller key |
| HadhadFilters.ByDescendingPt | higgstautau/hadhad/filters.py:24 | `taus.sort(key=pt, reverse=True)`: the stable sort by descending momentum; `LeadingTauIsHighest` and `SubleadingTauIsNextHighest` state what it puts first |
| HadhadFilters.LeadingTwo | higgstautau/hadhad/filters.py:26 | the slice keeps the first two taus, or all of them when there are fewer |
| HadhadFilters.LeadSubleadVerdict | higgstautau/hadhad/filters.py:29 | the short-circuit test `taus[0].pt > lead and taus[1].pt > sublead`, with an index error for a tau it reads that is missing; `LeadSubleadByCounts` states it without order |
| HadhadFilters.TauLeadSublead | higgstautau/hadhad/filters.py:22-29 | the event keeps the leading two of its taus sorted by descending momentum; the verdict is the short-circuit threshold test on them, or an index error when a tau it reads is missing |
| HadhadFilters.LeadingTwoOfSorted | higgstautau/hadhad/filters.py:22-26 | the taus kept are at most two, taken from the event's taus without repetition, in descending order of momentum |
| HadhadFilters.LeadingTauIsHighest | higgstautau/hadhad/filters.py:22-26 | the leading tau kept has the highest momentum of all the taus |
| HadhadFilters.SubleadingTauIsNextHighest | higgstautau/hadhad/filters.py:22-26 | the subleading tau kept has the highest momentum of the other taus |
| HadhadFilters.LeadSubleadByCounts | higgstautau/hadhad/filters.py:22-29 | with at least two taus and any two thresholds, the event passes exactly when some tau is above the leading threshold and two are above the subleading one |
| HadhadFilters.LeadSubleadAtDefaults | higgstautau/hadhad/filters.py:11-29 | at the default thresholds of 35 GeV and 25 GeV, an event with at least two taus passes exactly when one tau is above 35 GeV and two are above 25 GeV |
| HadhadFilters.TriggersFor | higgstautau/hadhad/filters.py:37-47 | `Triggers(year, old_skim)`: the check installed for 2011 by skim, for 2012, or the error for another year |
| HadhadFilters.TriggerBranch | higgstautau/hadhad/filters.py:50-77 | the trigger branch a check reads for a run, if the check covers the run; `TriggerBranchRanges` states the map |
| HadhadFilters.TriggerPasses | higgstautau/hadhad/filters.py:50-77 | `passes_11`, `passes_11_old`, `passes_12`: the event's flag for the branch of its run, or the error for an uncovered run or a missing branch; `TriggerPassesRuns` states when each happens |
| HadhadFilters.TriggersForYears | higgstautau/hadhad/filters.py:37-47 | only 2011 and 2012 have triggers; 2011 takes the emulated check exactly for old skims |
| HadhadFilters.TriggerBranchRanges | higgstautau/hadhad/filters.py:50-77 | runs in [177986, 187815] read the plain 2011 trigger, runs in [188902, 191933] its `T` variant, each with `_EMULATED` for old skims; 2012 reads its own trigger for every run; a 2011 run in neither range has no branch |
| HadhadFilters.TriggerPassesRuns | higgstautau/hadhad/filters.py:50-77 | the 2011 checks raise for the run exactly outside [177986, 187815] and [188902, 191933], the 2012 check never does; a covered run whose event carries the branch gets that flag, and one whose event lacks it raises naming the branch |
| HadhadFilters.RunGapRaises | higgstautau/hadhad/filters.py:50-70 | runs between 187815 and 188902 raise under both 2011 checks |
| HadhadFilters.EmulatedMirrorsRecorded | higgstautau/hadhad/filters.py:50-70 | the old-skim check covers the same runs and reads the `_EMULATED` flag of the same trigger |
| HadhadFilters.VetoElectron | higgstautau/hadhad/filters.py:87-94 | the six cuts an electron must pass to veto the event: momentum above 15 GeV, track inside the barrel or end-cap acceptance, author 1 or 3, charge of magnitude 1, mediumPP, and no bad quality bit; `ElectronVeto` is proved against it |
| HadhadFilters.BadQualityBits | higgstautau/hadhad/filters.py:94 | the mask 1446 rejects exactly the electrons with one of the quality bits 1, 2, 5, 7, 8 and 10 set |
| HadhadFilters.ElectronVeto | higgstautau/hadhad/filters.py:85-96 | the event passes exactly when no electron passes all six cuts |
| HadhadFilters.VetoMuon | higgstautau/hadhad/filters.py:110-118 | the four cuts a muon must pass to veto the event: momentum above 10 GeV, absolute pseudorapidity below 2.5, loose, and a good track for the year; `MuonVeto` is proved against it |
| HadhadFilters.MuonVeto | higgstautau/hadhad/filters.py:108-120 | the event passes exactly when no muon passes all four cuts |
| HadhadFilters.MatchTruth | higgstautau/hadhad/filters.py:141-143 | a tau is matched afterwards exactly when it was matched before or has a true tau associated; nothing else changes |
| HadhadFilters.MatchTruthIdempotent | higgstautau/hadhad/filters.py:141-143 | matching twice marks nothing more |
| HadhadFilters.TruthMatching | higgstautau/hadhad/filters.py:139-144 | every tau of the event is truth-matched in place, and the filter passes |
| HadhadFilters.WithEfficiency | higgstautau/hadhad/filters.py:171-178 | a matched tau gets the factor and a band of plus and minus the uncertainty; an unmatched tau and all other fields are unchanged |
| HadhadFilters.EfficiencyScaleFactors | higgstautau/hadhad/filters.py:169-179 | every tau of the event gets its efficiency update from the tool, and the filter passes |
| HadhadFilters.FakeRateYearFor | higgstautau/hadhad/filters.py:184-202 | the fake-rate tables `FakeRateScaleFactors(year)` installs: none with passthrough, else by `year % 1000`, or the error; `FakeRateYearModulo` states which years have them |
| HadhadFilters.TriggerYearsHaveFakeRates | higgstautau/hadhad/filters.py:184-202 | every year that has triggers has fake-rate tables, those of the same year |
| HadhadFilters.FakeRateYearModulo | higgstautau/hadhad/filters.py:186-202 | without passthrough, fake-rate tables exist exactly for the years that are 11 or 12 modulo 1000 |
| HadhadFilters.TriggerName | higgstautau/hadhad/filters.py:209-237 | `trig % tau.trigger_match_thresh`: `EF_tau`, the threshold, then `T_medium1` from run 188902 on in 2011, `_medium1` before it, `Ti_medium1` in 2012 |
| HadhadFilters.TriggerNameInjective | higgstautau/hadhad/filters.py:209-237 | a fake-rate trigger name determines its threshold and its trigger family |
| HadhadFilters.FakeRateTriggerAgreesWithTriggers | higgstautau/hadhad/filters.py:209-212 | for every 2011 run with a trigger, the fake-rate filter takes the `T` family exactly when the trigger filter reads the `T` trigger |
| HadhadFilters.WorkingPoint | higgstautau/hadhad/filters.py:217-245 | `Tight`/`Medium` in 2011 and `tight`/`medium` in 2012, by the tight BDT flag |
| HadhadFilters.WorkingPointTight | higgstautau/hadhad/filters.py:217-220 | the working point is tight exactly for a tau that passes the tight BDT cut |
| HadhadFilters.QueryFor | higgstautau/hadhad/filters.py:221-250 | the arguments of a fake-rate tool call: momentum, working point and trigger name in 2011; also track count, run, `BDT` and the lepton veto in 2012 |
| HadhadFilters.WithFakeRate | higgstautau/hadhad/filters.py:216-232 | an unmatched tau gets the factor plus its upper and minus its lower uncertainty; a matched tau and all other fields are unchanged |
| HadhadFilters.FakeRateScaleFactors | higgstautau/hadhad/filters.py:207-262 | every tau of the event gets its fake-rate update for its query, and the filter passes |
| HadhadFilters.ScaleFactorsCommute | higgstautau/hadhad/filters.py:169-262 | the efficiency and fake-rate updates commute, and a tau is touched by at most one of them |

## Left out

- `get_load` (cluster.py:42-49) runs a shell probe over SSH. It becomes the parameter `load(step, name)`. The parameter is total: a probe that fails, which raises and aborts the whole run in the source, is not modelled.
- `get_hosts` (cluster.py:52-57) reads a file. `Run` takes the list of names instead.
- `get_setup` (cluster.py:60-64) reads a file. `SetupChain` takes its lines.
- `qsub` and `run_helper` run shell commands, and the `multiprocessing` processes are started and joined (cluster.py:67-77, 127-134). The model only builds the shell line of each job (`Dispatch.ShellLine`). It does not model the calls, the processes or their concurrency.
- The `print` lines of `qsub` and `run` are not modelled.
- `Database(db)` (cluster.py:97, 112) is reduced to the file count `files(dataset)`. A dataset missing from the database is not modelled.
- Cluster.Run: the load snapshot is fixed for one step. In the source, `hosts.sort()` calls `get_load` again on every comparison, so the loads can change during one sort. The model does not capture this.
- Cluster.JobCommand: the command template is formatted twice (cluster.py:99-100, 118). A `%` inside the student name, database name, arguments or setup chain would be read as a format directive the second time. The model substitutes only the worker count and the dataset.
- The keyword defaults of `run` (cluster.py:84-90: `nproc=1`, `nice=0`, `setup=None`, `args=None`, `student_args=None`, `use_qsub=False`, `qsub_queue='medium'`) are not modelled. Every field of `Config` is given explicitly.
- The `__main__` loop (cluster.py:137-146) never terminates and only prints. Its one step is `PlaceJob`.
- run_data_lh.py is not part of this model. It is a command-line script that calls `qsub` with keyword arguments `qsub` does not take.
- The electron momentum `cl_E / cosh(tracketa)` (higgstautau/hadhad/filters.py:88) is floating-point arithmetic. It is the input field `Electron.pt`. Reals stand in for floating point everywhere.
- `TaudR` and `TauTrackRecounting` (higgstautau/hadhad/filters.py:123-159) only call external geometry and track-counting code. They are not modelled.
- `tauid.effic_sf_uncert` and the ROOT fake-rate tools (higgstautau/hadhad/filters.py:174, 189-199, 221-261) become the parameters `tool`, `scaleFactor` and `uncertainty`. Loading their resource files is not modelled.
- The `print` before `AttributeError` is re-raised for a missing trigger branch is not modelled. The error itself is, as `MissingTrigger`.
- HadhadFilters.FakeRateYearFor: with `passthrough`, the result is only "no fake-rate pass installed". What the rootpy `EventFilter` base class then does with the event is not part of this model.
- Taus are values in the event's list. The model does not capture two list entries sharing one tau object: an update through one would show through the other.
- `GeV` comes from atlastools, which is not part of this model. It is taken as 1000, with energies in MeV.
