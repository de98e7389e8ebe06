/** The event filters of the tau-tau (hadhad) channel in
    higgstautau/hadhad/filters.py, without their floating-point kinematics and
    external physics tools.

    An event carries its run number, its trigger decisions (a branch name to
    a flag; a branch the event does not carry is absent), its electrons and
    muons, and a list of taus that the filters reorder, cut down and annotate.
    A filter either passes the event, rejects it, or raises; raising becomes
    an `Err` of `FilterError`. Energies are in MeV, so that `GeV` is 1000. */
module HadhadFilters {
  import opened Outcomes
  import opened Text
  import opened Sorting

  const GeV: real := 1000.0

  datatype FilterError =
    | NoTriggersForYear(year: int)        // `Triggers(year)` for a year other than 2011, 2012
    | NoTriggerForRun(run: int)           // a 2011 run outside both run ranges
    | MissingTrigger(run: int, branch: string)  // the event lacks the trigger branch
    | NoFakeRatesForYear(year: int)       // `FakeRateScaleFactors(year)` for another year
    | NoSuchTau(index: nat)               // `event.taus[index]` past the end of the list

  // ---------------------------------------------------------------------------
  // Events
  // ---------------------------------------------------------------------------

  /** One reconstructed tau candidate with the fields the filters read and the
      scale-factor fields they write. */
  datatype Tau = Tau(
    pt: real,
    numTrack: int,
    trueTauAssocIndex: int,
    matched: bool,
    jetBDTSigTight: bool,
    triggerMatchThresh: int,
    efficiencySF: real,
    efficiencySFHigh: real,
    efficiencySFLow: real,
    fakeRateSF: real,
    fakeRateSFHigh: real,
    fakeRateSFLow: real)

  /** An electron. `pt` is the transverse momentum the veto derives from the
      cluster energy and the track pseudorapidity; `oq` is the 32-bit
      object-quality word. */
  datatype Electron = Electron(
    pt: real, trackEta: real, author: int, charge: int, mediumPP: int, oq: bv32)

  datatype Muon = Muon(pt: real, eta: real, loose: int)

  /** One event as the filters see it: everything but the taus is read only. */
  class Event {
    const runNumber: int
    const triggers: map<string, bool>
    const electrons: seq<Electron>
    const muons: seq<Muon>
    var taus: seq<Tau>

    constructor (runNumber: int, triggers: map<string, bool>, electrons: seq<Electron>,
                 muons: seq<Muon>, taus: seq<Tau>)
      ensures this.runNumber == runNumber && this.triggers == triggers
      ensures this.electrons == electrons && this.muons == muons && this.taus == taus
    {
      this.runNumber := runNumber;
      this.triggers := triggers;
      this.electrons := electrons;
      this.muons := muons;
      this.taus := taus;
    }
  }

  function RealAbs(x: real): real
  {
    if x < 0.0 then -x else x
  }

  function IntAbs(x: int): int
  {
    if x < 0 then -x else x
  }

  // ---------------------------------------------------------------------------
  // TauLeadSublead
  // ---------------------------------------------------------------------------

  const DefaultLead: real := 35.0 * GeV
  const DefaultSublead: real := 25.0 * GeV

  /** The sort key of the descending transverse-momentum sort. */
  function NegPt(t: Tau): real
  {
    -t.pt
  }

  /** `taus.sort(key=pt, reverse=True)`: the stable sort that puts the highest
      momentum first and keeps taus of equal momentum in their order. */
  function ByDescendingPt(taus: seq<Tau>): seq<Tau>
  {
    SortBy(taus, NegPt)
  }

  /** `taus.slice(0, 2)`: the first two taus, or all when there are fewer. */
  function LeadingTwo(taus: seq<Tau>): (r: seq<Tau>)
    ensures |r| == if |taus| < 2 then |taus| else 2
    ensures r == taus[..|r|]
  {
    if |taus| < 2 then taus else taus[..2]
  }

  /** `taus[0].pt > lead and taus[1].pt > sublead` with Python's short
      circuit: without taus the first index fails; with one tau that passes
      the leading cut the second index fails; with one tau that does not, the
      answer is no. */
  function LeadSubleadVerdict(taus: seq<Tau>, lead: real, sublead: real): Result<bool, FilterError>
  {
    if |taus| == 0 then Err(NoSuchTau(0))
    else if !(taus[0].pt > lead) then Ok(false)
    else if |taus| < 2 then Err(NoSuchTau(1))
    else Ok(taus[1].pt > sublead)
  }

  /** `TauLeadSublead.passes`: sorts the event's taus by descending momentum,
      keeps the leading two, and tests them against the two thresholds. */
  method TauLeadSublead(event: Event, lead: real, sublead: real) returns (r: Result<bool, FilterError>)
    modifies event
    ensures event.taus == LeadingTwo(ByDescendingPt(old(event.taus)))
    ensures r == LeadSubleadVerdict(event.taus, lead, sublead)
  {
    event.taus := SortBy(event.taus, NegPt);
    event.taus := LeadingTwo(event.taus);
    if |event.taus| == 0 {
      return Err(NoSuchTau(0));
    }
    if !(event.taus[0].pt > lead) {
      return Ok(false);
    }
    if |event.taus| < 2 {
      return Err(NoSuchTau(1));
    }
    r := Ok(event.taus[1].pt > sublead);
  }

  /** The taus kept are drawn from the event's taus without repetition, in
      descending order of momentum. */
  lemma LeadingTwoOfSorted(taus: seq<Tau>)
    ensures var kept := LeadingTwo(ByDescendingPt(taus));
      && |kept| == (if |taus| < 2 then |taus| else 2)
      && multiset(kept) <= multiset(taus)
      && (forall i, j :: 0 <= i < j < |kept| ==> kept[i].pt >= kept[j].pt)
  {
    var sorted := ByDescendingPt(taus);
    var kept := LeadingTwo(sorted);
    SortByPermutes(taus, NegPt);
    SortBySorted(taus, NegPt);
    assert sorted == kept + sorted[|kept|..];
    assert multiset(sorted) == multiset(kept) + multiset(sorted[|kept|..]);
    forall i, j | 0 <= i < j < |kept|
      ensures kept[i].pt >= kept[j].pt
    {
      assert NegPt(sorted[i]) <= NegPt(sorted[j]);
    }
  }

  /** The leading tau kept has the highest momentum of all the event's taus. */
  lemma LeadingTauIsHighest(taus: seq<Tau>)
    requires |taus| > 0
    ensures |LeadingTwo(ByDescendingPt(taus))| > 0
    ensures forall t :: t in taus ==> LeadingTwo(ByDescendingPt(taus))[0].pt >= t.pt
  {
    var sorted := ByDescendingPt(taus);
    SortByHeadIsMinimum(taus, NegPt);
    forall t | t in taus
      ensures sorted[0].pt >= t.pt
    {
      assert NegPt(sorted[0]) <= NegPt(t);
    }
  }

  /** The subleading tau kept has the highest momentum of the event's taus
      once one copy of the leading tau is set aside. */
  lemma SubleadingTauIsNextHighest(taus: seq<Tau>)
    requires |taus| > 1
    ensures var kept := LeadingTwo(ByDescendingPt(taus));
      |kept| == 2 &&
      forall t :: t in multiset(taus) - multiset{kept[0]} ==> kept[1].pt >= t.pt
  {
    var kept := LeadingTwo(ByDescendingPt(taus));
    SortBySecondIsNextMinimum(taus, NegPt);
    forall t | t in multiset(taus) - multiset{kept[0]}
      ensures kept[1].pt >= t.pt
    {
      assert NegPt(kept[1]) <= NegPt(t);
    }
  }

  function PtAbove(x: real): Tau -> bool
  {
    (t: Tau) => t.pt > x
  }

  /** With at least two taus, the event passes exactly when some tau is above
      the leading threshold and at least two taus are above the subleading
      one, whatever the two thresholds: the verdict depends on the event's
      taus and not on their order. */
  lemma {:induction false} LeadSubleadByCounts(taus: seq<Tau>, lead: real, sublead: real)
    requires |taus| >= 2
    ensures LeadSubleadVerdict(LeadingTwo(ByDescendingPt(taus)), lead, sublead)
         == Ok(CountWhere(taus, PtAbove(lead)) >= 1 && CountWhere(taus, PtAbove(sublead)) >= 2)
  {
    var sorted := ByDescendingPt(taus);
    SortBySorted(taus, NegPt);
    SortByCount(taus, NegPt, PtAbove(lead));
    SortByCount(taus, NegPt, PtAbove(sublead));
    assert sorted == [sorted[0]] + sorted[1..];
    assert sorted[1..] == [sorted[1]] + sorted[2..];
    CountBelowSorted(sorted[1..], lead, sorted[0].pt);
    CountBelowSorted(sorted[2..], sublead, sorted[1].pt);
  }

  /** At the default thresholds of 35 GeV and 25 GeV, an event with at least
      two taus passes exactly when one tau is above 35 GeV and two are above
      25 GeV. */
  lemma LeadSubleadAtDefaults(taus: seq<Tau>)
    requires |taus| >= 2
    ensures LeadSubleadVerdict(LeadingTwo(ByDescendingPt(taus)), DefaultLead, DefaultSublead)
         == Ok(CountWhere(taus, PtAbove(DefaultLead)) >= 1 && CountWhere(taus, PtAbove(DefaultSublead)) >= 2)
  {
    LeadSubleadByCounts(taus, DefaultLead, DefaultSublead);
  }

  /** In a list whose elements are all at most `top`, if `top` is not above
      the threshold then no element is. */
  lemma {:induction false} CountBelowSorted(s: seq<Tau>, x: real, top: real)
    requires forall k :: 0 <= k < |s| ==> s[k].pt <= top
    ensures top <= x ==> CountWhere(s, PtAbove(x)) == 0
    decreases |s|
  {
    if |s| > 0 {
      CountBelowSorted(s[1..], x, top);
    }
  }

  // ---------------------------------------------------------------------------
  // Triggers
  // ---------------------------------------------------------------------------

  /** The three trigger predicates a `Triggers` filter can install. */
  datatype TriggerCheck = Passes11 | Passes11Old | Passes12

  /** `Triggers(year, old_skim)`: 2011 data uses the emulated flags of the old
      skims or the recorded ones, 2012 its own; no other year has triggers. */
  function TriggersFor(year: int, oldSkim: bool): Result<TriggerCheck, FilterError>
  {
    if year == 2011 then Ok(if oldSkim then Passes11Old else Passes11)
    else if year == 2012 then Ok(Passes12)
    else Err(NoTriggersForYear(year))
  }

  /** Data periods B to K of 2011. */
  const PeriodsBKFirst := 177986
  const PeriodsBKLast := 187815
  /** Data periods L and M of 2011, whose triggers carry the `T` variant. */
  const PeriodsLMFirst := 188902
  const PeriodsLMLast := 191933

  const DiTau2011 := "EF_tau29_medium1_tau20_medium1"
  const DiTau2011T := "EF_tau29T_medium1_tau20T_medium1"
  const DiTau2012 := "EF_tau29Ti_medium1_tau20Ti_medium1"
  const Emulated := "_EMULATED"

  predicate InPeriodsBK(run: int)
  {
    PeriodsBKFirst <= run <= PeriodsBKLast
  }

  predicate InPeriodsLM(run: int)
  {
    PeriodsLMFirst <= run <= PeriodsLMLast
  }

  /** The trigger branch a check reads for a run, if the check covers it. */
  function TriggerBranch(check: TriggerCheck, run: int): Option<string>
  {
    match check
    case Passes12 => Some(DiTau2012)
    case _ =>
      var suffix := if check == Passes11Old then Emulated else "";
      if InPeriodsBK(run) then Some(DiTau2011 + suffix)
      else if InPeriodsLM(run) then Some(DiTau2011T + suffix)
      else None
  }

  /** `passes_11`, `passes_11_old`, `passes_12`: the event's flag for the
      branch of its run. A run no range covers raises `ValueError`; a branch
      the event lacks raises `AttributeError`. */
  function TriggerPasses(check: TriggerCheck, run: int, triggers: map<string, bool>)
    : Result<bool, FilterError>
  {
    match TriggerBranch(check, run)
    case None => Err(NoTriggerForRun(run))
    case Some(b) => if b in triggers then Ok(triggers[b]) else Err(MissingTrigger(run, b))
  }

  /** Exactly the years 2011 and 2012 have triggers; 2011 picks its check by
      the skim, 2012 has one. */
  lemma TriggersForYears(year: int, oldSkim: bool)
    ensures TriggersFor(year, oldSkim).Ok? <==> year == 2011 || year == 2012
    ensures TriggersFor(year, oldSkim) == Ok(Passes11Old) <==> year == 2011 && oldSkim
    ensures TriggersFor(year, oldSkim) == Ok(Passes11) <==> year == 2011 && !oldSkim
  {
  }

  /** Which branch each check reads: periods B to K read the plain 2011
      trigger, periods L and M its `T` variant, each with `_EMULATED` on old
      skims; 2012 reads its own trigger for every run; a 2011 run outside both
      ranges has no branch. */
  lemma TriggerBranchRanges(check: TriggerCheck, run: int)
    ensures check == Passes11 && InPeriodsBK(run) ==> TriggerBranch(check, run) == Some(DiTau2011)
    ensures check == Passes11 && InPeriodsLM(run) ==> TriggerBranch(check, run) == Some(DiTau2011T)
    ensures check == Passes11Old && InPeriodsBK(run) ==> TriggerBranch(check, run) == Some(DiTau2011 + Emulated)
    ensures check == Passes11Old && InPeriodsLM(run) ==> TriggerBranch(check, run) == Some(DiTau2011T + Emulated)
    ensures check == Passes12 ==> TriggerBranch(check, run) == Some(DiTau2012)
    ensures TriggerBranch(check, run).None? <==> check != Passes12 && !InPeriodsBK(run) && !InPeriodsLM(run)
  {
    assert DiTau2011 + "" == DiTau2011;
    assert DiTau2011T + "" == DiTau2011T;
  }

  /** The 2011 checks answer for exactly the runs of the two ranges: a run in
      neither, in particular one between them, raises. The 2012 check answers
      for every run. A run with a branch is answered with the event's flag for
      that branch when the event carries it, and raises naming the branch when
      it does not. */
  lemma TriggerPassesRuns(check: TriggerCheck, run: int, triggers: map<string, bool>)
    ensures var r := TriggerPasses(check, run, triggers);
      && (r == Err(NoTriggerForRun(run)) <==> check != Passes12 && !InPeriodsBK(run) && !InPeriodsLM(run))
      && (r.Ok? ==> TriggerBranch(check, run).Some?
                    && TriggerBranch(check, run).value in triggers
                    && r.value == triggers[TriggerBranch(check, run).value])
    ensures var b := TriggerBranch(check, run);
      && (b.Some? && b.value in triggers ==> TriggerPasses(check, run, triggers) == Ok(triggers[b.value]))
      && (b.Some? && b.value !in triggers ==> TriggerPasses(check, run, triggers) == Err(MissingTrigger(run, b.value)))
  {
  }

  /** Runs 187816 to 188901 lie between the 2011 ranges. */
  lemma RunGapRaises(run: int, triggers: map<string, bool>)
    requires PeriodsBKLast < run < PeriodsLMFirst
    ensures TriggerPasses(Passes11, run, triggers) == Err(NoTriggerForRun(run))
    ensures TriggerPasses(Passes11Old, run, triggers) == Err(NoTriggerForRun(run))
  {
  }

  /** The old-skim check covers the same runs as the recorded one and reads the
      emulated flag of the same trigger. */
  lemma EmulatedMirrorsRecorded(run: int)
    ensures TriggerBranch(Passes11Old, run).Some? <==> TriggerBranch(Passes11, run).Some?
    ensures TriggerBranch(Passes11, run).Some? ==>
      TriggerBranch(Passes11Old, run).value == TriggerBranch(Passes11, run).value + Emulated
  {
  }

  // ---------------------------------------------------------------------------
  // Vetoes
  // ---------------------------------------------------------------------------

  /** The quality bits an electron of the veto must not have set. */
  const BadQualityMask: bv32 := 1446

  /** The cuts of `ElectronVeto`: an electron passing all of them vetoes the
      event. */
  predicate VetoElectron(el: Electron)
  {
    && el.pt > 15.0 * GeV
    && (RealAbs(el.trackEta) < 1.37 || (1.52 < RealAbs(el.trackEta) && RealAbs(el.trackEta) < 2.47))
    && (el.author == 1 || el.author == 3)
    && IntAbs(el.charge) == 1
    && el.mediumPP == 1
    && el.oq & BadQualityMask == 0
  }

  /** The mask holds the quality bits 1, 2, 5, 7, 8 and 10. */
  lemma BadQualityBits(oq: bv32)
    ensures oq & BadQualityMask == 0 <==>
      oq & (1 << 1) == 0 && oq & (1 << 2) == 0 && oq & (1 << 5) == 0 &&
      oq & (1 << 7) == 0 && oq & (1 << 8) == 0 && oq & (1 << 10) == 0
  {
    assert BadQualityMask == (1 << 1) | (1 << 2) | (1 << 5) | (1 << 7) | (1 << 8) | (1 << 10);
  }

  /** `ElectronVeto.passes`: the event passes unless one of its electrons
      passes every cut; the scan stops at the first such electron. */
  method ElectronVeto(event: Event) returns (passes: bool)
    ensures passes <==> forall i :: 0 <= i < |event.electrons| ==> !VetoElectron(event.electrons[i])
  {
    for i := 0 to |event.electrons|
      invariant forall k :: 0 <= k < i ==> !VetoElectron(event.electrons[k])
    {
      var el := event.electrons[i];
      if el.pt <= 15.0 * GeV {
        continue;
      }
      var eta := RealAbs(el.trackEta);
      if !(eta < 1.37 || (1.52 < eta && eta < 2.47)) {
        continue;
      }
      if el.author != 1 && el.author != 3 {
        continue;
      }
      if IntAbs(el.charge) != 1 {
        continue;
      }
      if el.mediumPP != 1 {
        continue;
      }
      if el.oq & BadQualityMask != 0 {
        continue;
      }
      return false;
    }
    return true;
  }

  /** The cuts of `MuonVeto`; the track quality test for the year is a
      parameter. */
  predicate VetoMuon(mu: Muon, year: int, goodTrack: (Muon, int) -> bool)
  {
    mu.pt > 10.0 * GeV && RealAbs(mu.eta) < 2.5 && mu.loose == 1 && goodTrack(mu, year)
  }

  /** `MuonVeto.passes`: the event passes unless one of its muons passes every
      cut. */
  method MuonVeto(event: Event, year: int, goodTrack: (Muon, int) -> bool) returns (passes: bool)
    ensures passes <==> forall i :: 0 <= i < |event.muons| ==> !VetoMuon(event.muons[i], year, goodTrack)
  {
    for i := 0 to |event.muons|
      invariant forall k :: 0 <= k < i ==> !VetoMuon(event.muons[k], year, goodTrack)
    {
      var mu := event.muons[i];
      if mu.pt <= 10.0 * GeV {
        continue;
      }
      if RealAbs(mu.eta) >= 2.5 {
        continue;
      }
      if mu.loose != 1 {
        continue;
      }
      if !goodTrack(mu, year) {
        continue;
      }
      return false;
    }
    return true;
  }

  // ---------------------------------------------------------------------------
  // Truth matching and scale factors
  // ---------------------------------------------------------------------------

  /** A tau with a true tau associated with it is marked matched; any other tau
      is left as it is. */
  function MatchTruth(t: Tau): (r: Tau)
    ensures r.matched <==> t.matched || t.trueTauAssocIndex > -1
    ensures r.(matched := t.matched) == t
  {
    if t.trueTauAssocIndex > -1 then t.(matched := true) else t
  }

  /** Matching twice marks nothing more than matching once. */
  lemma MatchTruthIdempotent(t: Tau)
    ensures MatchTruth(MatchTruth(t)) == MatchTruth(t)
  {
  }

  /** `TruthMatching.passes`: marks every truth-associated tau, passes. */
  method TruthMatching(event: Event) returns (passes: bool)
    modifies event
    ensures passes
    ensures |event.taus| == |old(event.taus)|
    ensures forall k :: 0 <= k < |event.taus| ==> event.taus[k] == MatchTruth(old(event.taus)[k])
  {
    ghost var before := event.taus;
    var i := 0;
    while i < |event.taus|
      invariant 0 <= i <= |event.taus| == |before|
      invariant forall k :: 0 <= k < i ==> event.taus[k] == MatchTruth(before[k])
      invariant forall k :: i <= k < |before| ==> event.taus[k] == before[k]
    {
      if event.taus[i].trueTauAssocIndex > -1 {
        event.taus := event.taus[i := event.taus[i].(matched := true)];
      }
      i := i + 1;
    }
    return true;
  }

  /** A matched tau gets the efficiency scale factor and its band, the factor
      plus and minus its uncertainty; an unmatched tau is left as it is. */
  function WithEfficiency(t: Tau, sf: real, err: real): (r: Tau)
    ensures !t.matched ==> r == t
    ensures t.matched ==> r.efficiencySFHigh - r.efficiencySF == err == r.efficiencySF - r.efficiencySFLow
    ensures t.matched ==> r.efficiencySF == sf
    ensures r.(efficiencySF := t.efficiencySF, efficiencySFHigh := t.efficiencySFHigh,
               efficiencySFLow := t.efficiencySFLow) == t
  {
    if t.matched then
      t.(efficiencySF := sf, efficiencySFHigh := sf + err, efficiencySFLow := sf - err)
    else t
  }

  /** `EfficiencyScaleFactors.passes`: the tool's factor and uncertainty for
      each matched tau in the year, written onto it. */
  method EfficiencyScaleFactors(event: Event, year: int, tool: (Tau, int) -> (real, real))
    returns (passes: bool)
    modifies event
    ensures passes
    ensures |event.taus| == |old(event.taus)|
    ensures forall k :: 0 <= k < |event.taus| ==>
      var t := old(event.taus)[k];
      event.taus[k] == WithEfficiency(t, tool(t, year).0, tool(t, year).1)
  {
    ghost var before := event.taus;
    var i := 0;
    while i < |event.taus|
      invariant 0 <= i <= |event.taus| == |before|
      invariant forall k :: 0 <= k < i ==>
        event.taus[k] == WithEfficiency(before[k], tool(before[k], year).0, tool(before[k], year).1)
      invariant forall k :: i <= k < |before| ==> event.taus[k] == before[k]
    {
      var tau := event.taus[i];
      if tau.matched {
        var (sf, err) := tool(tau, year);
        event.taus := event.taus[i := tau.(efficiencySF := sf, efficiencySFHigh := sf + err,
                                           efficiencySFLow := sf - err)];
      }
      i := i + 1;
    }
    return true;
  }

  /** The two data-taking years the fake-rate tables exist for. */
  datatype FakeRateYear = FakeRates2011 | FakeRates2012

  /** `FakeRateScaleFactors(year, passthrough)`: with `passthrough` no year is
      looked at and no fake-rate pass is installed; otherwise the year is read
      modulo 1000, so that 2011 and 11 both select the 2011 tables, and a year
      without tables raises `ValueError`. */
  function FakeRateYearFor(year: int, passthrough: bool): Result<Option<FakeRateYear>, FilterError>
  {
    if passthrough then Ok(None)
    else if year % 1000 == 11 then Ok(Some(FakeRates2011))
    else if year % 1000 == 12 then Ok(Some(FakeRates2012))
    else Err(NoFakeRatesForYear(year))
  }

  /** Every year with triggers has fake-rate tables, and they are the tables
      of the same year. */
  lemma TriggerYearsHaveFakeRates(year: int, oldSkim: bool)
    requires TriggersFor(year, oldSkim).Ok?
    ensures FakeRateYearFor(year, false)
         == Ok(Some(if year == 2011 then FakeRates2011 else FakeRates2012))
  {
  }

  /** Python's `%` takes the year modulo 1000 onto 0..999 even for a negative
      year, so that -989 selects the 2011 tables. */
  lemma FakeRateYearModulo(year: int)
    ensures FakeRateYearFor(year, false).Ok? <==> exists c :: year == 1000 * c + 11 || year == 1000 * c + 12
  {
    if FakeRateYearFor(year, false).Ok? {
      var c := year / 1000;
      assert year == 1000 * c + year % 1000;
    } else if exists c :: year == 1000 * c + 11 || year == 1000 * c + 12 {
      var c :| year == 1000 * c + 11 || year == 1000 * c + 12;
      ModuloOfOffset(c, year - 1000 * c);
      assert false;
    }
  }

  lemma ModuloOfOffset(c: int, r: int)
    requires 0 <= r < 1000
    ensures (1000 * c + r) % 1000 == r
  {
  }

  /** The text after the threshold in the fake-rate trigger name: the 2011
      periods from L on use the `T` triggers, 2012 the `Ti` ones. */
  function TriggerSuffix(y: FakeRateYear, run: int): string
  {
    match y
    case FakeRates2011 => if run >= PeriodsLMFirst then "T_medium1" else "_medium1"
    case FakeRates2012 => "Ti_medium1"
  }

  /** `trig % tau.trigger_match_thresh`. */
  function TriggerName(y: FakeRateYear, run: int, thresh: int): string
  {
    "EF_tau" + (IntToString(thresh) + TriggerSuffix(y, run))
  }

  lemma TriggerSuffixStartsWithNonDigit(y: FakeRateYear, run: int)
    ensures |TriggerSuffix(y, run)| > 0 && !IsDigit(TriggerSuffix(y, run)[0])
  {
  }

  /** A trigger name names one threshold and one trigger family. */
  lemma TriggerNameInjective(y1: FakeRateYear, run1: int, t1: int, y2: FakeRateYear, run2: int, t2: int)
    requires TriggerName(y1, run1, t1) == TriggerName(y2, run2, t2)
    ensures t1 == t2 && TriggerSuffix(y1, run1) == TriggerSuffix(y2, run2)
  {
    var s1, s2 := TriggerSuffix(y1, run1), TriggerSuffix(y2, run2);
    TriggerSuffixStartsWithNonDigit(y1, run1);
    TriggerSuffixStartsWithNonDigit(y2, run2);
    CancelPrefix("EF_tau", IntToString(t1) + s1, IntToString(t2) + s2);
    DecimalThenNonDigit(t1, s1, t2, s2);
  }

  /** For every 2011 run the trigger filter answers for, the fake-rate filter
      takes the `T` family exactly when the trigger filter reads the `T`
      trigger. */
  lemma FakeRateTriggerAgreesWithTriggers(run: int)
    requires TriggerBranch(Passes11, run).Some?
    ensures TriggerBranch(Passes11, run) == Some(DiTau2011T)
        <==> TriggerSuffix(FakeRates2011, run) == "T_medium1"
  {
    if InPeriodsBK(run) {
      assert TriggerBranch(Passes11, run).value[8] == '_' != DiTau2011T[8];
    } else {
      assert DiTau2011T + "" == DiTau2011T;
    }
  }

  /** The identification working point a tau's scale factor is looked up for:
      tight for a tau passing the tight BDT cut, medium otherwise; the 2011
      tool spells it capitalised. */
  function WorkingPoint(y: FakeRateYear, tight: bool): string
  {
    match y
    case FakeRates2011 => if tight then "Tight" else "Medium"
    case FakeRates2012 => if tight then "tight" else "medium"
  }

  /** The working point is tight exactly when the tau passes the tight cut. */
  lemma WorkingPointTight(y: FakeRateYear, tight: bool)
    ensures WorkingPoint(y, tight) in {"Tight", "tight"} <==> tight
  {
  }

  /** The arguments of one fake-rate tool call: momentum, working point and
      trigger name in 2011; in 2012 also the track count, the run, the `BDT`
      identification and the lepton veto, which is always on. */
  datatype FakeRateQuery =
    | Query2011(pt: real, wp: string, trigger: string)
    | Query2012(pt: real, numTrack: int, run: int, id: string, wp: string, trigger: string, leptonVeto: bool)

  function QueryFor(y: FakeRateYear, run: int, t: Tau): FakeRateQuery
  {
    var wp := WorkingPoint(y, t.jetBDTSigTight);
    var trig := TriggerName(y, run, t.triggerMatchThresh);
    match y
    case FakeRates2011 => Query2011(t.pt, wp, trig)
    case FakeRates2012 => Query2012(t.pt, t.numTrack, run, "BDT", wp, trig, true)
  }

  /** An unmatched tau gets the fake-rate scale factor and its band, the
      factor plus its upper and minus its lower uncertainty; a matched tau is
      left as it is. */
  function WithFakeRate(t: Tau, sf: real, up: real, down: real): (r: Tau)
    ensures t.matched ==> r == t
    ensures !t.matched ==>
      r.fakeRateSF == sf && r.fakeRateSFHigh == sf + up && r.fakeRateSFLow == sf - down
    ensures r.(fakeRateSF := t.fakeRateSF, fakeRateSFHigh := t.fakeRateSFHigh,
               fakeRateSFLow := t.fakeRateSFLow) == t
  {
    if t.matched then t
    else t.(fakeRateSF := sf, fakeRateSFHigh := sf + up, fakeRateSFLow := sf - down)
  }

  /** `passes_2011` and `passes_2012` of `FakeRateScaleFactors`: for each
      unmatched tau, the tool's scale factor and its upper and lower
      uncertainties for the tau's query. */
  method FakeRateScaleFactors(event: Event, y: FakeRateYear,
                              scaleFactor: FakeRateQuery -> real,
                              uncertainty: (FakeRateQuery, bool) -> real)
    returns (passes: bool)
    modifies event
    ensures passes
    ensures |event.taus| == |old(event.taus)|
    ensures forall k :: 0 <= k < |event.taus| ==>
      var q := QueryFor(y, event.runNumber, old(event.taus)[k]);
      event.taus[k] == WithFakeRate(old(event.taus)[k], scaleFactor(q), uncertainty(q, true), uncertainty(q, false))
  {
    ghost var before := event.taus;
    var i := 0;
    while i < |event.taus|
      invariant 0 <= i <= |event.taus| == |before|
      invariant forall k :: 0 <= k < i ==>
        var q := QueryFor(y, event.runNumber, before[k]);
        event.taus[k] == WithFakeRate(before[k], scaleFactor(q), uncertainty(q, true), uncertainty(q, false))
      invariant forall k :: i <= k < |before| ==> event.taus[k] == before[k]
    {
      var tau := event.taus[i];
      if !tau.matched {
        var q := QueryFor(y, event.runNumber, tau);
        var sf := scaleFactor(q);
        event.taus := event.taus[i := tau.(fakeRateSF := sf,
                                           fakeRateSFHigh := sf + uncertainty(q, true),
                                           fakeRateSFLow := sf - uncertainty(q, false))];
      }
      i := i + 1;
    }
    return true;
  }

  /** The efficiency and fake-rate passes write disjoint sets of taus and
      disjoint fields, so they can run in either order with the same result. */
  lemma ScaleFactorsCommute(t: Tau, esf: real, err: real, fsf: real, up: real, down: real)
    ensures WithFakeRate(WithEfficiency(t, esf, err), fsf, up, down)
         == WithEfficiency(WithFakeRate(t, fsf, up, down), esf, err)
    ensures WithFakeRate(t, fsf, up, down) == t || WithEfficiency(t, esf, err) == t
  {
  }
}
