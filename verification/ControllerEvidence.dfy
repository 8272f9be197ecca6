/** Cleanup evidence: every transition that completes forward has recorded exactly
    one piece of evidence, and it passes every check made before the queues of the
    old epoch are deleted. Follows recordCleanupEvidence in
    controller/controller.go and cleanupTransition in runtime/resources.go. */
module ControllerEvidence {
  import opened Control
  import opened Transition
  import opened ControllerState
  import opened ControllerSteps
  import opened ControllerRestart
  import opened ControllerProgress
  import opened ControllerDrain

  // ------------------------------------------------------- what the cleaner checks

  predicate IdentityChecked(s: Spec, e: Evidence) {
    && e.transitionId == s.id && e.sourceEpoch == s.fromEpoch && e.targetEpoch == s.toEpoch
    && e.oldEpochFenced && e.zeroSince != 0 && e.drainObservedAt != 0 && e.fenceVerifiedAt != 0 && e.committedAt != 0
  }

  predicate TimingChecked(s: Spec, e: Evidence) {
    && e.zeroSince <= e.drainObservedAt && e.fenceVerifiedAt <= e.committedAt && e.drainObservedAt <= e.committedAt
    && 0 < s.drainGrace <= e.drainObservedAt - e.zeroSince
  }

  predicate SourceChecked(f: SourceEvidence, committedAt: Time) {
    && f.source.broker != "" && f.source.queue != "" && f.zeroSince != 0 && f.observedAt != 0
    && f.zeroSince <= f.observedAt <= committedAt
  }

  predicate SourcesChecked(sources: seq<SourceEvidence>, committedAt: Time) {
    && (forall i :: 0 <= i < |sources| ==> SourceChecked(sources[i], committedAt))
    && (forall i, j :: 0 <= i < j < |sources| ==> sources[i].source != sources[j].source)
  }

  predicate Proves(f: SourceEvidence, r: Resource, grace: nat) {
    f.source == Source(r.broker, r.queue) && f.observedAt - f.zeroSince >= grace
  }

  predicate ResourceProved(s: Spec, e: Evidence, r: Resource) {
    r.epoch == e.sourceEpoch && exists i :: 0 <= i < |e.sources| && Proves(e.sources[i], r, s.drainGrace)
  }

  predicate ResourcesProved(s: Spec, e: Evidence) {
    forall i :: 0 <= i < |s.currentResources| ==> ResourceProved(s, e, s.currentResources[i])
  }

  predicate EvidenceSound(s: Spec, e: Evidence) {
    && IdentityChecked(s, e) && TimingChecked(s, e) && SourcesChecked(e.sources, e.committedAt)
    && |e.sources| == |s.currentResources| && ResourcesProved(s, e)
  }

  predicate CleanupAccepts(s: Spec, completedAt: Time, e: Evidence) {
    EvidenceSound(s, e) && e.committedAt <= completedAt
  }

  /** The sources by broker and queue. */
  predicate Indexed(seen: map<Source, SourceEvidence>, sources: seq<SourceEvidence>) {
    && |seen| == |sources|
    && (forall k :: 0 <= k < |sources| ==> sources[k].source in seen && seen[sources[k].source] == sources[k])
    && (forall key :: key in seen ==> exists k :: 0 <= k < |sources| && sources[k].source == key)
  }

  lemma IndexedExtends(seen: map<Source, SourceEvidence>, sources: seq<SourceEvidence>, f: SourceEvidence)
    requires Indexed(seen, sources) && f.source !in seen
    ensures Indexed(seen[f.source := f], sources + [f])
  {
    var next := sources + [f];
    var grown := seen[f.source := f];
    forall key | key in grown ensures exists k :: 0 <= k < |next| && next[k].source == key {
      if key == f.source {
        assert next[|sources|].source == key;
      } else {
        var k :| 0 <= k < |sources| && sources[k].source == key;
        assert next[k].source == key;
      }
    }
  }

  lemma CheckedExtends(seen: map<Source, SourceEvidence>, sources: seq<SourceEvidence>, f: SourceEvidence,
                       committedAt: Time)
    requires Indexed(seen, sources) && SourcesChecked(sources, committedAt)
    ensures SourcesChecked(sources + [f], committedAt) <==> SourceChecked(f, committedAt) && f.source !in seen
  {
    hide SourceChecked;
    var next := sources + [f];
    assert next[|sources|] == f;
    if f.source in seen {
      var k :| 0 <= k < |sources| && sources[k].source == f.source;
      assert next[k].source == next[|sources|].source;
    }
  }

  lemma NothingSeen(committedAt: Time)
    ensures Indexed(map[], []) && SourcesChecked([], committedAt)
  {
  }

  lemma CheckedPrefix(sources: seq<SourceEvidence>, i: nat, committedAt: Time)
    requires i <= |sources| && SourcesChecked(sources, committedAt)
    ensures SourcesChecked(sources[..i], committedAt)
  {
  }

  method CheckSource(f: SourceEvidence, committedAt: Time) returns (ok: bool)
    ensures ok <==> SourceChecked(f, committedAt)
  {
    ok := !(f.source.broker == "" || f.source.queue == "" || f.zeroSince == 0 || f.observedAt == 0
            || f.observedAt < f.zeroSince || f.observedAt > committedAt);
  }

  method CheckSources(sources: seq<SourceEvidence>, committedAt: Time) returns (r: Option<map<Source, SourceEvidence>>)
    ensures r.Some? <==> SourcesChecked(sources, committedAt)
    ensures r.Some? ==> Indexed(r.value, sources)
  {
    hide Indexed, SourcesChecked, SourceChecked;
    var seen: map<Source, SourceEvidence> := map[];
    NothingSeen(committedAt);
    for i := 0 to |sources|
      invariant Indexed(seen, sources[..i])
      invariant SourcesChecked(sources[..i], committedAt)
    {
      CheckedExtends(seen, sources[..i], sources[i], committedAt);
      assert sources[..i] + [sources[i]] == sources[..i + 1];
      var f := sources[i];
      var whole := CheckSource(f, committedAt);
      if !whole || f.source in seen {
        if SourcesChecked(sources, committedAt) {
          CheckedPrefix(sources, i + 1, committedAt);
        }
        return None;
      }
      IndexedExtends(seen, sources[..i], sources[i]);
      seen := seen[sources[i].source := sources[i]];
    }
    assert sources[..|sources|] == sources;
    return Some(seen);
  }

  method CheckCleanup(s: Spec, completedAt: Time, e: Evidence) returns (ok: bool)
    ensures ok <==> CleanupAccepts(s, completedAt, e)
  {
    if e.transitionId != s.id || e.sourceEpoch != s.fromEpoch || e.targetEpoch != s.toEpoch || !e.oldEpochFenced
       || e.zeroSince == 0 || e.drainObservedAt == 0 || e.fenceVerifiedAt == 0 || e.committedAt == 0 {
      return false;
    }
    if e.drainObservedAt < e.zeroSince || e.fenceVerifiedAt > e.committedAt || e.drainObservedAt > e.committedAt
       || s.drainGrace == 0 || e.drainObservedAt - e.zeroSince < s.drainGrace || completedAt < e.committedAt {
      return false;
    }
    var expected := CheckSources(e.sources, e.committedAt);
    if expected.None? || |expected.value| != |s.currentResources| {
      return false;
    }
    for i := 0 to |s.currentResources|
      invariant forall k :: 0 <= k < i ==> ResourceProved(s, e, s.currentResources[k])
    {
      var r := s.currentResources[i];
      var key := Source(r.broker, r.queue);
      if r.epoch != e.sourceEpoch || key !in expected.value
         || expected.value[key].observedAt - expected.value[key].zeroSince < s.drainGrace {
        assert !ResourceProved(s, e, r);
        return false;
      }
      var k :| 0 <= k < |e.sources| && e.sources[k].source == key;
      assert Proves(e.sources[k], r, s.drainGrace);
    }
    return true;
  }

  // ------------------------------------------------------------- making evidence

  /** What the drain decision leaves for the evidence. */
  predicate Drained(g: GroupState, now: Time) {
    var sources := RequiredSources(g.spec);
    && sources != []
    && (forall i :: 0 <= i < |sources| ==>
          && sources[i] in g.zeroSince && sources[i] in g.latest
          && 0 < g.zeroSince[sources[i]] <= g.latest[sources[i]].observedAt <= now)
    && (forall i, j :: 0 <= i < |sources| && 0 <= j < |sources| ==>
          g.zeroSince[sources[i]] + g.spec.drainGrace <= g.latest[sources[j]].observedAt)
  }

  lemma SourceOrder(h: seq<Telemetry>, source: Source, g: GroupState, freshness: nat)
    requires SourceInv(h, source, g.latest, g.zeroSince, freshness) && source in g.zeroSince
    requires forall i :: 0 <= i < |h| ==> h[i].observedAt > 0
    ensures source in g.latest && 0 < g.zeroSince[source] <= g.latest[source].observedAt
  {
    var k :| 0 <= k < |h| && MaximalZeros(h, k, freshness) && h[k].observedAt == g.zeroSince[source];
  }

  lemma {:induction false} ReportsAreSamples(s: Spec, samples: seq<Telemetry>, source: Source, t: Telemetry)
    requires t in Reports(s, samples, source)
    ensures t in samples
  {
    hide SourcesFor;
    if t != samples[|samples| - 1] {
      ReportsAreSamples(s, samples[..|samples| - 1], source, t);
    }
  }

  lemma SourceTimes(w: World, g: GroupState, source: Source, freshness: nat)
    requires SourcesInv(g, w.samples, freshness) && source in RequiredSources(g.spec) && source in g.zeroSince
    requires forall i :: 0 <= i < |w.samples| ==> w.samples[i].observedAt > 0
    ensures source in g.latest && 0 < g.zeroSince[source] <= g.latest[source].observedAt
  {
    hide SourceInv;
    var h := Reports(g.spec, w.samples, source);
    forall i | 0 <= i < |h| ensures h[i].observedAt > 0 {
      ReportsAreSamples(g.spec, w.samples, source, h[i]);
    }
    SourceOrder(h, source, g, freshness);
  }

  lemma DrainLeaves(w: World, g: GroupState, drainedAt: Time, o: Options)
    requires w.p.group == Some(g) && g.at.phase == Drain && DrainInv(w, o.telemetryFreshness) && TimesInv(g.at, g.times)
             && TelemetryInv(g)
    requires RequiredSources(g.spec) != [] && DrainComplete(g, drainedAt, o.telemetryFreshness) && drainedAt <= w.now
    ensures Drained(g, w.now)
  {
    hide SourcesInv, DrainComplete, TelemetryInv, RequiredSources, LatestZero, EarliestObserved;
    DrainBounds(g, drainedAt, o.telemetryFreshness);
    var sources := RequiredSources(g.spec);
    forall i | 0 <= i < |sources|
      ensures sources[i] in g.latest && sources[i] in g.zeroSince
              && 0 < g.zeroSince[sources[i]] <= g.latest[sources[i]].observedAt
    {
      SourceTimes(w, g, sources[i], o.telemetryFreshness);
    }
  }

  lemma NamesPresent(s: Spec)
    requires ValidSpec(s)
    ensures forall i :: 0 <= i < |s.currentResources| ==>
              s.currentResources[i].epoch == s.fromEpoch && s.currentResources[i].broker != ""
              && s.currentResources[i].queue != ""
  {
    var p := ControlSnapshot(s, Prepare, false);
    forall i | 0 <= i < |s.currentResources|
      ensures s.currentResources[i].epoch == s.fromEpoch && s.currentResources[i].broker != ""
              && s.currentResources[i].queue != ""
    {
      assert ValidResource(p.currentResources[i], p.epoch, p.current);
    }
  }

  lemma FactsChecked(g: GroupState, committedAt: Time)
    requires ValidSpec(g.spec) && NoDuplicates(RequiredSources(g.spec)) && Drained(g, committedAt)
    ensures SourcesChecked(SourceFacts(g, RequiredSources(g.spec)), committedAt)
  {
    hide ValidSpec;
    NamesPresent(g.spec);
  }

  lemma FactsProve(g: GroupState, e: Evidence, now: Time)
    requires ValidSpec(g.spec) && Drained(g, now)
    requires e.sourceEpoch == g.spec.fromEpoch && e.sources == SourceFacts(g, RequiredSources(g.spec))
    ensures ResourcesProved(g.spec, e)
  {
    hide ValidSpec;
    NamesPresent(g.spec);
    forall i | 0 <= i < |g.spec.currentResources| ensures ResourceProved(g.spec, e, g.spec.currentResources[i]) {
      assert Proves(e.sources[i], g.spec.currentResources[i], g.spec.drainGrace);
    }
  }

  lemma EvidenceTimes(g: GroupState, now: Time)
    requires Drained(g, now) && EvidenceReady(g)
    ensures 0 < EvidenceOf(g).zeroSince
            && EvidenceOf(g).zeroSince + g.spec.drainGrace <= EvidenceOf(g).drainObservedAt <= now
  {
    hide RequiredSources, LatestZero, EarliestObserved, SourceFacts;
    var sources := RequiredSources(g.spec);
    assert g.zeroSince[sources[0]] > 0;
  }

  /** The group state saved on entering COMMIT yields sound evidence. */
  lemma EvidenceMade(g: GroupState)
    requires ValidSpec(g.spec) && NoDuplicates(RequiredSources(g.spec)) && g.spec.drainGrace > 0
    requires !g.cleanupRecorded && Drained(g, g.times.phaseEnteredAt)
    requires g.times.fenceVerifiedAt.Some? && 0 < g.times.fenceVerifiedAt.value <= g.times.phaseEnteredAt
    ensures EvidenceReady(g) && EvidenceSound(g.spec, EvidenceOf(g))
            && EvidenceOf(g).committedAt == g.times.phaseEnteredAt
  {
    hide ValidSpec, RequiredSources, LatestZero, EarliestObserved, SourceFacts, SourcesChecked, ResourcesProved,
         NoDuplicates;
    var e := EvidenceOf(g);
    EvidenceTimes(g, g.times.phaseEnteredAt);
    FactsChecked(g, g.times.phaseEnteredAt);
    FactsProve(g, e, g.times.phaseEnteredAt);
  }

  // -------------------------------------------------------- what every step keeps

  predicate OnlyAt(evidence: seq<Evidence>, id: string, i: nat) {
    && i < |evidence| && evidence[i].transitionId == id
    && forall j :: 0 <= j < |evidence| && j != i ==> evidence[j].transitionId != id
  }

  predicate Absent(evidence: seq<Evidence>, id: string) {
    forall j :: 0 <= j < |evidence| ==> evidence[j].transitionId != id
  }

  /** Exactly one entry bears the identity, and it is sound and no later than the
      given instant. */
  predicate RecordedOnce(evidence: seq<Evidence>, s: Spec, now: Time) {
    exists i :: 0 <= i < |evidence| && OnlyAt(evidence, s.id, i) && EvidenceSound(s, evidence[i])
                && evidence[i].committedAt <= now
  }

  predicate GroupEvidence(g: GroupState, evidence: seq<Evidence>, now: Time) {
    && g.cleanupRecorded == (Rank(g.at.phase) >= 4)
    && (if g.cleanupRecorded then RecordedOnce(evidence, g.spec, now) else Absent(evidence, g.spec.id))
    && (g.at.completed && !g.at.rollingBack ==> g.times.completedAt.Some?
                                                && RecordedOnce(evidence, g.spec, g.times.completedAt.value))
  }

  predicate Identities(evidence: seq<Evidence>, used: set<string>) {
    forall i :: 0 <= i < |evidence| ==> evidence[i].transitionId in used
  }

  predicate EvidenceInv(w: World) {
    && Identities(w.p.evidence, w.used)
    && (w.p.group.Some? ==> w.p.group.value.spec.id in w.used && GroupEvidence(w.p.group.value, w.p.evidence, w.now))
  }

  lemma RecordedLater(evidence: seq<Evidence>, s: Spec, now: Time, later: Time)
    requires RecordedOnce(evidence, s, now) && now <= later
    ensures RecordedOnce(evidence, s, later)
  {
    hide EvidenceSound, OnlyAt;
  }

  /** A save that does not enter COMMIT leaves the evidence alone. */
  lemma EvidenceUntouched(w: World, step: Step, o: Options)
    requires SavesGroup(step) && !step.EnterCommit? && w.p.group.Some? && Guard(w.p.group.value.at, step)
    ensures After(w, step, o).p.evidence == w.p.evidence && After(w, step, o).used == w.used
    ensures After(w, step, o).p.group == Some(GroupAfter(w, step, o))
    ensures After(w, step, o).now == w.now
  {
    hide GroupAfter, EvidenceReady, EvidenceOf, RecordOf, Guard, ProgressAfter;
    SavedProgress(w, step, o);
    NotEntered(w.p.group.value.at, step);
  }

  lemma NotEntered(a: Progress, step: Step)
    requires Guard(a, step) && !step.EnterCommit?
    ensures ProgressAfter(a, step).phase == Commit ==> a.phase == Commit
    ensures (Rank(ProgressAfter(a, step).phase) >= 4) == (Rank(a.phase) >= 4)
    ensures ProgressAfter(a, step).completed ==> a.completed || step.Complete?
  {
    hide MarkPublished, PhasePublished;
  }

  lemma SavedFlags(w: World, step: Step, o: Options)
    requires SavesGroup(step) && w.p.group.Some?
    ensures GroupAfter(w, step, o).cleanupRecorded == w.p.group.value.cleanupRecorded
    ensures GroupAfter(w, step, o).spec == w.p.group.value.spec
    ensures step.Complete? ==> GroupAfter(w, step, o).times.completedAt == Some(w.now)
    ensures !step.Complete? ==> GroupAfter(w, step, o).times.completedAt == w.p.group.value.times.completedAt
    ensures GroupAfter(w, step, o).at == ProgressAfter(w.p.group.value.at, step)
  {
    SavedProgress(w, step, o);
    hide ProgressAfter, LeavePhase, ObservedAll;
    if step.Observe? {
      ObservedKeeps(w.p.group.value, SourcesFor(w.p.group.value.spec, step.sample), step.sample, o.telemetryFreshness);
    }
  }

  lemma GroupEvidenceMoved(g: GroupState, h: GroupState, step: Step, evidence: seq<Evidence>, now: Time)
    requires GroupEvidence(g, evidence, now) && ProgressInv(g.at) && Guard(g.at, step) && !step.EnterCommit?
    requires h.spec == g.spec && h.cleanupRecorded == g.cleanupRecorded && h.at == ProgressAfter(g.at, step)
    requires h.times.completedAt == if step.Complete? then Some(now) else g.times.completedAt
    ensures GroupEvidence(h, evidence, now)
  {
    hide RecordedOnce, Absent, ProgressAfter, MarkPublished;
    NotEntered(g.at, step);
    CompletesForward(g.at, step);
  }

  /** Rollback is only asked for before COMMIT, and never undone. */
  lemma CompletesForward(a: Progress, step: Step)
    requires Guard(a, step) && ProgressInv(a)
    ensures step.Complete? && !ProgressAfter(a, step).rollingBack ==> Rank(a.phase) >= 4
    ensures !step.RequestRollback? ==> ProgressAfter(a, step).rollingBack == a.rollingBack
    ensures step.RequestRollback? ==> ProgressAfter(a, step).rollingBack
  {
  }

  lemma SaveKeepsEvidence(w: World, step: Step, h: World, o: Options)
    requires SavesGroup(step) && !step.EnterCommit? && Inv(w) && EvidenceInv(w) && Take(w, step, o) == Some(h)
    ensures EvidenceInv(h)
  {
    hide Guard, Justified, ProgressInv, TimesInv, MessageInv, TelemetryInv, GroupAfter, GroupEvidence, Identities,
         After, ProgressAfter;
    EvidenceUntouched(w, step, o);
    SavedFlags(w, step, o);
    GroupEvidenceMoved(w.p.group.value, GroupAfter(w, step, o), step, w.p.evidence, w.now);
  }

  /** Appending sound evidence under a new identity. */
  lemma RecordedByAppend(evidence: seq<Evidence>, s: Spec, e: Evidence, now: Time)
    requires Absent(evidence, s.id) && EvidenceSound(s, e) && e.committedAt <= now
    ensures RecordedOnce(evidence + [e], s, now)
  {
    hide TimingChecked, SourcesChecked, ResourcesProved;
    assert OnlyAt(evidence + [e], s.id, |evidence|);
  }

  lemma CommitSaved(w: World, step: Step, o: Options)
    requires step.EnterCommit? && w.p.group.Some? && w.p.group.value.at.phase == Drain && !w.p.group.value.at.completed
    requires EvidenceReady(GroupAfter(w, step, o))
    ensures var g := GroupAfter(w, step, o);
            && After(w, step, o).p.group == Some(g.(cleanupRecorded := true))
            && After(w, step, o).p.evidence == w.p.evidence + [EvidenceOf(g)]
            && After(w, step, o).used == w.used && After(w, step, o).now == w.now
  {
    hide EvidenceReady, EvidenceOf, RecordOf, EnterPhase;
  }

  lemma CommitStatus(w: World, step: Step, h: World, o: Options)
    requires step.EnterCommit? && Take(w, step, o) == Some(h)
    ensures w.p.group.Some? && 0 < step.observedAt <= w.now && !w.p.group.value.at.completed
    ensures var g := w.p.group.value;
            GroupAfter(w, step, o) == g.(at := g.at.(phase := Commit),
                                         times := TimesAfter(g.times, step, w.now, o.phaseTimeout))
  {
    hide DrainComplete, AllAcknowledged, TimesAfter;
  }

  lemma DrainedCarried(g: GroupState, h: GroupState, now: Time)
    requires Drained(g, now) && h.spec == g.spec && h.latest == g.latest && h.zeroSince == g.zeroSince
    ensures Drained(h, now)
  {
    hide RequiredSources;
  }

  lemma CommitDrained(w: World, step: Step, h: World, o: Options)
    requires step.EnterCommit? && Inv(w) && DocumentInv(w) && DrainInv(w, o.telemetryFreshness)
             && Take(w, step, o) == Some(h)
    ensures w.p.group.Some? && w.p.group.value.at.phase == Drain
    ensures ValidSpec(w.p.group.value.spec) && w.p.group.value.spec.drainGrace > 0
    ensures NoDuplicates(RequiredSources(w.p.group.value.spec)) && Drained(w.p.group.value, w.now)
  {
    hide DrainComplete, DrainInv, ValidSpec, Drained, TelemetryInv, TimesInv, ProgressInv, MessageInv, Take,
         NamesABroker, HasAResource;
    EnterCommitJustified(w, step, h, o);
    InvariantParts(w, w.p.group.value);
    SourcesExact(w.p.group.value.spec);
    assert RequiredSources(w.p.group.value.spec) != [];
    DrainLeaves(w, w.p.group.value, step.drainedAt, o);
  }

  lemma CommitEvidence(w: World, step: Step, h: World, o: Options)
    requires step.EnterCommit? && Inv(w) && DocumentInv(w) && DrainInv(w, o.telemetryFreshness)
             && Take(w, step, o) == Some(h)
    requires EvidenceInv(w)
    ensures var g := GroupAfter(w, step, o);
            && g.at.phase == Commit && !g.at.completed && g.spec == w.p.group.value.spec
            && EvidenceReady(g) && EvidenceSound(g.spec, EvidenceOf(g)) && EvidenceOf(g).committedAt == w.now
  {
    hide DrainInv, ValidSpec, Drained, Inv, DocumentInv, Take, NoDuplicates, EvidenceReady, EvidenceSound, EvidenceOf,
         RecordedOnce, Absent;
    CommitDrained(w, step, h, o);
    CommitStatus(w, step, h, o);
    var g := GroupAfter(w, step, o);
    DrainedCarried(w.p.group.value, g, w.now);
    assert g.times.phaseEnteredAt == w.now && g.times.fenceVerifiedAt == Some(step.observedAt) && !g.cleanupRecorded;
    EvidenceMade(g);
  }

  lemma CommitKeepsEvidence(w: World, step: Step, h: World, o: Options)
    requires step.EnterCommit? && Inv(w) && DocumentInv(w) && DrainInv(w, o.telemetryFreshness)
             && Take(w, step, o) == Some(h)
    requires EvidenceInv(w)
    ensures EvidenceInv(h)
  {
    hide DrainInv, Inv, DocumentInv, EvidenceReady, EvidenceSound, EvidenceOf, RecordedOnce, Guard, Justified,
         GroupAfter, After;
    CommitDrained(w, step, h, o);
    CommitStatus(w, step, h, o);
    CommitEvidence(w, step, h, o);
    CommitSaved(w, step, o);
    var g := GroupAfter(w, step, o);
    RecordedByAppend(w.p.evidence, g.spec, EvidenceOf(g), w.now);
    assert EvidenceOf(g).transitionId == g.spec.id by {
      SoundIdentity(g.spec, EvidenceOf(g));
    }
  }

  lemma SoundIdentity(s: Spec, e: Evidence)
    requires EvidenceSound(s, e)
    ensures e.transitionId == s.id && e.sourceEpoch == s.fromEpoch && e.targetEpoch == s.toEpoch
  {
    hide TimingChecked, SourcesChecked, ResourcesProved;
  }

  lemma BeginEvidence(w: World, step: Step, h: World, o: Options)
    requires step.Begin? && EvidenceInv(w) && Take(w, step, o) == Some(h)
    ensures EvidenceInv(h)
  {
    hide RecordedOnce, ValidSpec, BuiltFrom, CanReplaceCompleted;
  }

  lemma RestartEvidence(w: World, step: Step, h: World, o: Options)
    requires step.Restart? && Inv(w) && EvidenceInv(w) && Take(w, step, o) == Some(h)
    ensures EvidenceInv(h)
  {
    hide Justified, Guard, ProgressInv, TimesInv, MessageInv, TelemetryInv, Reopened, RecordedOnce, Absent, Identities;
    RestartedGroup(w, step, o);
    ReopenedIs(w.p.group.value, w.now, o);
  }

  lemma OtherEvidence(w: World, step: Step, h: World, o: Options)
    requires !SavesGroup(step) && !step.Begin? && !step.Restart? && EvidenceInv(w) && Take(w, step, o) == Some(h)
    ensures EvidenceInv(h)
  {
    hide Justified, Guard, RecordedOnce, Absent, Identities;
    SameGroup(w, step, o);
    if w.p.group.Some? && w.p.group.value.cleanupRecorded {
      RecordedLater(w.p.evidence, w.p.group.value.spec, w.now, h.now);
    }
  }

  lemma StepEvidence(w: World, step: Step, h: World, o: Options)
    requires Inv(w) && DocumentInv(w) && DrainInv(w, o.telemetryFreshness) && EvidenceInv(w)
             && Take(w, step, o) == Some(h)
    ensures EvidenceInv(h)
  {
    hide Inv, DocumentInv, DrainInv, EvidenceInv, Take;
    if step.Begin? {
      BeginEvidence(w, step, h, o);
    } else if step.EnterCommit? {
      CommitKeepsEvidence(w, step, h, o);
    } else if SavesGroup(step) {
      SaveKeepsEvidence(w, step, h, o);
    } else if step.Restart? {
      RestartEvidence(w, step, h, o);
    } else {
      OtherEvidence(w, step, h, o);
    }
  }

  lemma {:induction false} RunEvidence(run: seq<World>, steps: seq<Step>, o: Options, n: nat)
    requires IsRun(run, steps, o) && n < |run|
    ensures EvidenceInv(run[n])
  {
    hide Take, Inv, DocumentInv, DrainInv, GroupEvidence, Valid;
    if n > 0 {
      RunEvidence(run, steps, o, n - 1);
      RunInv(run, steps, o, n - 1);
      RunDocument(run, steps, o, n - 1);
      RunDrain(run, steps, o, n - 1);
      RunStep(run, steps, o, n - 1);
      StepEvidence(run[n - 1], steps[n - 1], run[n], o);
    }
  }

  // ------------------------------------------------------------- the main result

  /** A transition that completed forward has exactly one entry of evidence under
      its identity, and the cleaner accepts it. A rolled back one has none. */
  lemma EvidenceContract(run: seq<World>, steps: seq<Step>, o: Options, n: nat)
    requires IsRun(run, steps, o) && n < |run| && run[n].p.group.Some? && run[n].p.group.value.at.completed
    ensures var g := run[n].p.group.value;
            && g.times.completedAt.Some?
            && (g.at.rollingBack ==> Absent(run[n].p.evidence, g.spec.id))
            && (!g.at.rollingBack ==>
                  exists i :: 0 <= i < |run[n].p.evidence| && OnlyAt(run[n].p.evidence, g.spec.id, i)
                              && CleanupAccepts(g.spec, g.times.completedAt.value, run[n].p.evidence[i]))
  {
    hide IsRun, EvidenceSound, OnlyAt, MessageInv, TelemetryInv;
    RunEvidence(run, steps, o, n);
    RunInv(run, steps, o, n);
  }
}
