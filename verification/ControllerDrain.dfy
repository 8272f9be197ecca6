/** Continuous drain: the zero-since instants the controller keeps are the starts of
    the maximal zero intervals of the whole sample history, and COMMIT is entered
    only after every source queue was empty over one common interval. */
module ControllerDrain {
  import opened Control
  import opened Transition
  import opened ControllerState
  import opened ControllerSteps
  import opened ControllerRestart

  // -------------------------------------------------------- the sample history

  /** The accepted samples that report on one source, oldest first. */
  function Reports(s: Spec, samples: seq<Telemetry>, source: Source): seq<Telemetry> {
    if samples == [] then []
    else
      var earlier, last := Reports(s, samples[..|samples| - 1], source), samples[|samples| - 1];
      if source in SourcesFor(s, last) then earlier + [last] else earlier
  }

  predicate Increasing(h: seq<Telemetry>) {
    forall i, j :: 0 <= i < j < |h| ==> h[i].observedAt < h[j].observedAt
  }

  /** From the k-th report on there are only known zeros without a gap above the
      freshness limit. */
  predicate Zeros(h: seq<Telemetry>, k: nat, freshness: nat) {
    && k < |h|
    && (forall i :: k <= i < |h| ==> KnownZero(h[i]))
    && (forall i :: k < i < |h| ==> h[i].observedAt <= h[i - 1].observedAt + freshness)
  }

  /** And no earlier report could be added to that suffix. */
  predicate MaximalZeros(h: seq<Telemetry>, k: nat, freshness: nat) {
    Zeros(h, k, freshness) && (k > 0 ==> !KnownZero(h[k - 1]) || h[k].observedAt > h[k - 1].observedAt + freshness)
  }

  predicate ZeroSince(h: seq<Telemetry>, since: Time, freshness: nat) {
    exists k :: 0 <= k < |h| && MaximalZeros(h, k, freshness) && h[k].observedAt == since
  }

  /** What is kept about one source, against its whole history. */
  predicate SourceInv(h: seq<Telemetry>, source: Source, latest: map<Source, Telemetry>, zeroSince: map<Source, Time>,
                      freshness: nat) {
    && Increasing(h)
    && (source in latest <==> h != [])
    && (h != [] ==> latest[source] == ControllerRestart.At(h[|h| - 1], source))
    && (source in zeroSince <==> h != [] && KnownZero(h[|h| - 1]))
    && (source in zeroSince ==> ZeroSince(h, zeroSince[source], freshness))
  }

  predicate SourcesInv(g: GroupState, samples: seq<Telemetry>, freshness: nat) {
    forall source :: source in RequiredSources(g.spec) ==>
      SourceInv(Reports(g.spec, samples, source), source, g.latest, g.zeroSince, freshness)
  }

  predicate WindowInv(g: GroupState, samples: seq<Telemetry>, now: Time) {
    && (Rank(g.at.phase) < 3 ==> samples == [])
    && (g.at.phase == Drain ==> forall i :: 0 <= i < |samples| ==>
        g.times.phaseEnteredAt <= samples[i].observedAt <= now)
  }

  predicate DrainInv(w: World, freshness: nat) {
    w.p.group.Some? ==> SourcesInv(w.p.group.value, w.samples, freshness)
                        && WindowInv(w.p.group.value, w.samples, w.now)
  }

  // ------------------------------------------------------------- one new sample

  lemma ZerosExtend(h: seq<Telemetry>, t: Telemetry, k: nat, freshness: nat)
    requires MaximalZeros(h, k, freshness) && KnownZero(t) && t.observedAt <= h[|h| - 1].observedAt + freshness
    ensures MaximalZeros(h + [t], k, freshness)
  {
  }

  lemma ZerosRestart(h: seq<Telemetry>, t: Telemetry, freshness: nat)
    requires KnownZero(t)
    requires h != [] ==> !KnownZero(h[|h| - 1]) || t.observedAt > h[|h| - 1].observedAt + freshness
    ensures MaximalZeros(h + [t], |h|, freshness)
  {
  }

  /** The update rule of the controller continues the interval or starts a new
      one exactly as the history demands. */
  lemma SourceObserved(g: GroupState, h: seq<Telemetry>, source: Source, t: Telemetry, freshness: nat)
    requires SourceInv(h, source, g.latest, g.zeroSince, freshness)
    requires source in g.latest ==> t.observedAt > g.latest[source].observedAt
    ensures var r := ObservedAt(g, source, t, freshness);
            SourceInv(h + [t], source, r.latest, r.zeroSince, freshness)
  {
    hide MaximalZeros;
    var r := ObservedAt(g, source, t, freshness);
    var extended := h + [t];
    if KnownZero(t) {
      if h != [] && KnownZero(h[|h| - 1]) && t.observedAt <= h[|h| - 1].observedAt + freshness {
        var k :| 0 <= k < |h| && MaximalZeros(h, k, freshness) && h[k].observedAt == g.zeroSince[source];
        ZerosExtend(h, t, k, freshness);
        assert ZeroSince(extended, r.zeroSince[source], freshness) by {
          assert extended[k] == h[k];
        }
      } else {
        ZerosRestart(h, t, freshness);
        assert extended[|h|] == t;
      }
    }
  }

  predicate AgreeAt(a: GroupState, b: GroupState, source: Source) {
    && (source in a.latest <==> source in b.latest)
    && (source in a.latest ==> a.latest[source] == b.latest[source])
    && (source in a.zeroSince <==> source in b.zeroSince)
    && (source in a.zeroSince ==> a.zeroSince[source] == b.zeroSince[source])
  }

  lemma ObservedLocally(a: GroupState, b: GroupState, at: Source, t: Telemetry, freshness: nat, source: Source)
    requires AgreeAt(a, b, source)
    ensures at == source ==> AgreeAt(ObservedAt(a, at, t, freshness), ObservedAt(b, at, t, freshness), source)
    ensures at != source ==> AgreeAt(ObservedAt(a, at, t, freshness), b, source)
  {
  }

  /** A sample over several sources updates each of them as if alone. */
  lemma {:induction false} ObservedEach(g: GroupState, sources: seq<Source>, t: Telemetry, freshness: nat,
                                        source: Source)
    requires NoDuplicates(sources)
    ensures AgreeAt(ObservedAll(g, sources, t, freshness), if source in sources then ObservedAt(g, source, t, freshness)
                    else g, source)
    decreases |sources|
  {
    hide AgreeAt, ObservedAt;
    if sources == [] {
      assert AgreeAt(g, g, source) by { AgreeWithItself(g, source); }
    } else {
      var rest, last := sources[..|sources| - 1], sources[|sources| - 1];
      assert sources == rest + [last];
      assert last !in rest;
      ObservedEach(g, rest, t, freshness, source);
      ObservedLocally(ObservedAll(g, rest, t, freshness), if source in rest then ObservedAt(g, source, t, freshness)
                      else g, last, t, freshness, source);
    }
  }

  lemma AgreeWithItself(g: GroupState, source: Source)
    ensures AgreeAt(g, g, source)
  {
  }

  lemma SourcesForDistinct(s: Spec, t: Telemetry)
    requires NoDuplicates(RequiredSources(s))
    ensures NoDuplicates(SourcesFor(s, t))
    ensures forall source :: source in SourcesFor(s, t) ==> source in RequiredSources(s)
  {
  }

  lemma SourcesObserved(g: GroupState, samples: seq<Telemetry>, t: Telemetry, freshness: nat, now: Time)
    requires SourcesInv(g, samples, freshness) && NoDuplicates(RequiredSources(g.spec)) && SampleInScope(g, t, now)
    ensures SourcesInv(Observed(g, t, freshness), samples + [t], freshness)
  {
    var sources := SourcesFor(g.spec, t);
    var r := Observed(g, t, freshness);
    ObservedKeeps(g, sources, t, freshness);
    SourcesForDistinct(g.spec, t);
    forall source | source in RequiredSources(g.spec)
      ensures SourceInv(Reports(g.spec, samples + [t], source), source, r.latest, r.zeroSince, freshness)
    {
      OneSourceObserved(g, samples, t, freshness, source);
    }
  }

  lemma OneSourceObserved(g: GroupState, samples: seq<Telemetry>, t: Telemetry, freshness: nat, source: Source)
    requires NoDuplicates(SourcesFor(g.spec, t)) && source in RequiredSources(g.spec)
    requires SourceInv(Reports(g.spec, samples, source), source, g.latest, g.zeroSince, freshness)
    requires source in SourcesFor(g.spec, t) && source in g.latest ==> t.observedAt > g.latest[source].observedAt
    ensures var r := Observed(g, t, freshness);
            SourceInv(Reports(g.spec, samples + [t], source), source, r.latest, r.zeroSince, freshness)
  {
    hide ZeroSince, Increasing, SourcesFor, ObservedAt, ObservedAll;
    var sources := SourcesFor(g.spec, t);
    var h := Reports(g.spec, samples, source);
    assert (samples + [t])[..|samples|] == samples;
    ObservedKeeps(g, sources, t, freshness);
    ObservedEach(g, sources, t, freshness, source);
    if source in sources {
      SourceObserved(g, h, source, t, freshness);
    }
  }

  // -------------------------------------------------------- what every step keeps

  lemma SourcesCarried(g: GroupState, h: GroupState, samples: seq<Telemetry>, freshness: nat)
    requires SourcesInv(g, samples, freshness)
    requires h.spec == g.spec && h.latest == g.latest && h.zeroSince == g.zeroSince
    ensures SourcesInv(h, samples, freshness)
  {
    hide SourceInv;
  }

  lemma WindowMoved(g: GroupState, samples: seq<Telemetry>, step: Step, now: Time, timeout: nat)
    requires WindowInv(g, samples, now) && Guard(g.at, step) && MovesGroup(step)
    ensures WindowInv(g.(at := ProgressAfter(g.at, step), times := TimesAfter(g.times, step, now, timeout)), samples,
                      now)
  {
    hide LeavePhase;
  }

  /** Samples are added by Observe and dropped by Begin. */
  lemma SamplesAfter(w: World, step: Step, o: Options)
    requires NeedsGroup(step) ==> w.p.group.Some?
    ensures After(w, step, o).samples ==
            if step.Begin? then [] else if step.Observe? then w.samples + [step.sample] else w.samples
  {
    hide GroupAfter, UpdateGroup, Reopened, ControlSnapshot, Begun;
  }

  /** The drain half of the saved group state, before evidence is noted in it. */
  lemma MovedDrain(w: World, g: GroupState, step: Step, o: Options)
    requires w.p.group == Some(g) && SavesGroup(step) && !step.Observe? && Guard(g.at, step)
    requires DrainInv(w, o.telemetryFreshness)
    ensures SourcesInv(GroupAfter(w, step, o), w.samples, o.telemetryFreshness)
    ensures WindowInv(GroupAfter(w, step, o), w.samples, w.now)
  {
    hide SourcesInv, WindowInv, Guard, ProgressAfter, TimesAfter;
    SourcesCarried(g, GroupAfter(w, step, o), w.samples, o.telemetryFreshness);
    if MovesGroup(step) {
      WindowMoved(g, w.samples, step, w.now, o.phaseTimeout);
    } else {
      WindowCarried(g, GroupAfter(w, step, o), w.samples, w.now);
    }
  }

  lemma SampleDrain(w: World, g: GroupState, t: Telemetry, o: Options)
    requires w.p.group == Some(g) && SampleInScope(g, t, w.now) && (t.messageId != "" ==> t.messageId !in g.messages)
    requires GroupInv(g) && NoDuplicates(RequiredSources(g.spec)) && DrainInv(w, o.telemetryFreshness)
    ensures SourcesInv(Observed(g, t, o.telemetryFreshness), w.samples + [t], o.telemetryFreshness)
    ensures WindowInv(Observed(g, t, o.telemetryFreshness), w.samples + [t], w.now)
  {
    hide SourcesInv, GroupInv, Observed;
    SourcesObserved(g, w.samples, t, o.telemetryFreshness, w.now);
    ObservedInv(g, t, o.telemetryFreshness);
  }

  lemma WindowCarried(g: GroupState, h: GroupState, samples: seq<Telemetry>, now: Time)
    requires WindowInv(g, samples, now) && h.at.phase == g.at.phase && h.times == g.times
    ensures WindowInv(h, samples, now)
  {
  }

  lemma SaveKeepsDrain(w: World, step: Step, h: World, o: Options)
    requires SavesGroup(step) && Inv(w) && DocumentInv(w) && DrainInv(w, o.telemetryFreshness)
             && Take(w, step, o) == Some(h)
    ensures DrainInv(h, o.telemetryFreshness)
  {
    hide Guard, GroupInv, Valid, ValidSpec, SourcesInv, WindowInv, NamesABroker, HasAResource, SampleInScope, Observed,
         After;
    var g := w.p.group.value;
    SourcesExact(g.spec);
    SamplesAfter(w, step, o);
    if step.Observe? {
      SampleDrain(w, g, step.sample, o);
    } else {
      hide Justified, GroupAfter;
      MovedDrain(w, g, step, o);
    }
    SavedGroup(w, step, o);
    var k := GroupAfter(w, step, o).(cleanupRecorded := true);
    SourcesCarried(GroupAfter(w, step, o), k, h.samples, o.telemetryFreshness);
    WindowCarried(GroupAfter(w, step, o), k, h.samples, w.now);
  }

  lemma BeginDrain(w: World, step: Step, h: World, o: Options)
    requires step.Begin? && Take(w, step, o) == Some(h)
    ensures DrainInv(h, o.telemetryFreshness)
  {
    hide MayBegin, ZeroSince;
    assert h.samples == [];
  }

  lemma RestartDrain(w: World, step: Step, h: World, o: Options)
    requires step.Restart? && Inv(w) && DrainInv(w, o.telemetryFreshness) && Take(w, step, o) == Some(h)
    ensures DrainInv(h, o.telemetryFreshness)
  {
    hide Justified, Guard, ProgressInv, TimesInv, MessageInv, TelemetryInv, Reopened, SourcesInv, WindowInv;
    RestartedGroup(w, step, o);
    SamplesAfter(w, step, o);
    ReopenedIs(w.p.group.value, w.now, o);
    SourcesCarried(w.p.group.value, h.p.group.value, w.samples, o.telemetryFreshness);
    WindowCarried(w.p.group.value, h.p.group.value, w.samples, w.now);
  }

  lemma OtherDrain(w: World, step: Step, h: World, o: Options)
    requires !SavesGroup(step) && !step.Begin? && !step.Restart? && DrainInv(w, o.telemetryFreshness)
             && Take(w, step, o) == Some(h)
    ensures DrainInv(h, o.telemetryFreshness)
  {
    hide Justified, Guard, SourcesInv;
    SameGroup(w, step, o);
    SamplesAfter(w, step, o);
    assert w.now <= h.now;
  }

  lemma StepDrain(w: World, step: Step, h: World, o: Options)
    requires Inv(w) && DocumentInv(w) && DrainInv(w, o.telemetryFreshness) && Take(w, step, o) == Some(h)
    ensures DrainInv(h, o.telemetryFreshness)
  {
    hide Inv, DocumentInv, DrainInv, Take;
    if step.Begin? {
      BeginDrain(w, step, h, o);
    } else if SavesGroup(step) {
      SaveKeepsDrain(w, step, h, o);
    } else if step.Restart? {
      RestartDrain(w, step, h, o);
    } else {
      OtherDrain(w, step, h, o);
    }
  }

  lemma {:induction false} RunDrain(run: seq<World>, steps: seq<Step>, o: Options, n: nat)
    requires IsRun(run, steps, o) && n < |run|
    ensures DrainInv(run[n], o.telemetryFreshness)
  {
    hide Take, Inv, DocumentInv, SourcesInv, WindowInv, Valid;
    if n > 0 {
      RunDrain(run, steps, o, n - 1);
      RunInv(run, steps, o, n - 1);
      RunDocument(run, steps, o, n - 1);
      RunStep(run, steps, o, n - 1);
      StepDrain(run[n - 1], steps[n - 1], run[n], o);
    }
  }

  // ------------------------------------------------------------ the main results

  /** In every reachable state the zero-since instant of a required source exists
      exactly when its latest accepted report is a known zero, and it is the start
      of the maximal unbroken zero suffix of all accepted reports. */
  lemma ZeroSinceIsMaximal(run: seq<World>, steps: seq<Step>, o: Options, n: nat, source: Source)
    requires IsRun(run, steps, o) && n < |run| && run[n].p.group.Some?
    requires source in RequiredSources(run[n].p.group.value.spec)
    ensures var g := run[n].p.group.value;
            var h := Reports(g.spec, run[n].samples, source);
            && (source in g.zeroSince <==> h != [] && KnownZero(h[|h| - 1]))
            && (source in g.zeroSince ==> ZeroSince(h, g.zeroSince[source], o.telemetryFreshness))
  {
    hide IsRun, WindowInv, ZeroSince, Increasing;
    RunDrain(run, steps, o, n);
  }

  /** The source reported only known zeros, without a gap above the freshness
      limit, from some report no later than low to one no earlier than high. */
  predicate ZeroOver(h: seq<Telemetry>, low: Time, high: Time, freshness: nat) {
    h != [] && high <= h[|h| - 1].observedAt
    && exists k :: 0 <= k < |h| && h[k].observedAt <= low && Zeros(h, k, freshness)
  }

  predicate DrainedOver(w: World, g: GroupState, low: Time, high: Time, freshness: nat) {
    && g.times.phaseEnteredAt <= low
    && low + g.spec.drainGrace <= high <= w.now
    && forall source :: source in RequiredSources(g.spec) ==>
         ZeroOver(Reports(g.spec, w.samples, source), low, high, freshness)
  }

  lemma SourceInterval(h: seq<Telemetry>, source: Source, g: GroupState, low: Time, high: Time, freshness: nat)
    requires SourceInv(h, source, g.latest, g.zeroSince, freshness) && source in g.zeroSince && source in g.latest
    requires g.zeroSince[source] <= low && high <= g.latest[source].observedAt
    ensures ZeroOver(h, low, high, freshness)
  {
    var k :| 0 <= k < |h| && MaximalZeros(h, k, freshness) && h[k].observedAt == g.zeroSince[source];
    assert Zeros(h, k, freshness);
  }

  lemma DrainBounds(g: GroupState, drainedAt: Time, freshness: nat)
    requires DrainComplete(g, drainedAt, freshness) && RequiredSources(g.spec) != [] && TelemetryInv(g)
    ensures var sources := RequiredSources(g.spec);
            && (forall i :: 0 <= i < |sources| ==> sources[i] in g.zeroSince && sources[i] in g.latest)
            && LatestZero(g, sources, g.times.phaseEnteredAt) + g.spec.drainGrace
               <= EarliestObserved(g, sources) <= drainedAt
            && forall i :: 0 <= i < |sources| ==>
                 && g.zeroSince[sources[i]] <= LatestZero(g, sources, g.times.phaseEnteredAt)
                 && EarliestObserved(g, sources) <= g.latest[sources[i]].observedAt <= drainedAt
  {
    hide KnownZero, RequiredSources, LatestZero, EarliestObserved;
    var sources := RequiredSources(g.spec);
    assert forall i :: 0 <= i < |sources| ==> SourceDrained(g, sources[i], drainedAt, freshness);
  }

  lemma DrainInterval(w: World, g: GroupState, drainedAt: Time, o: Options)
    requires SourcesInv(g, w.samples, o.telemetryFreshness) && RequiredSources(g.spec) != [] && TelemetryInv(g)
    requires DrainComplete(g, drainedAt, o.telemetryFreshness) && drainedAt <= w.now
    ensures exists low, high :: DrainedOver(w, g, low, high, o.telemetryFreshness)
  {
    hide SourceInv, DrainComplete, TelemetryInv, RequiredSources, LatestZero, EarliestObserved, ZeroOver;
    DrainBounds(g, drainedAt, o.telemetryFreshness);
    var sources := RequiredSources(g.spec);
    var low, high := LatestZero(g, sources, g.times.phaseEnteredAt), EarliestObserved(g, sources);
    forall source | source in sources
      ensures ZeroOver(Reports(g.spec, w.samples, source), low, high, o.telemetryFreshness)
    {
      SourceInterval(Reports(g.spec, w.samples, source), source, g, low, high, o.telemetryFreshness);
    }
    assert DrainedOver(w, g, low, high, o.telemetryFreshness);
  }

  lemma EnterCommitJustified(w: World, step: Step, h: World, o: Options)
    requires step.EnterCommit? && Take(w, step, o) == Some(h)
    ensures w.p.group.Some? && w.p.group.value.at.phase == Drain
    ensures DrainComplete(w.p.group.value, step.drainedAt, o.telemetryFreshness) && step.drainedAt <= w.now
  {
    hide DrainComplete;
  }

  /** Whenever a transition enters COMMIT there is one interval inside DRAIN, at
      least the drain grace long, over which every required broker and queue
      reported only known zeros without a gap above the freshness limit. */
  lemma ContinuousDrain(run: seq<World>, steps: seq<Step>, o: Options, n: nat)
    requires IsRun(run, steps, o) && n < |steps| && steps[n].EnterCommit?
    ensures run[n].p.group.Some? && run[n].p.group.value.at.phase == Drain
    ensures RequiredSources(run[n].p.group.value.spec) != []
    ensures exists low, high :: DrainedOver(run[n], run[n].p.group.value, low, high, o.telemetryFreshness)
  {
    hide Take, Inv, DocumentInv, Valid, ValidSpec, DrainComplete, SourcesInv, DrainedOver, GroupInv;
    RunStep(run, steps, o, n);
    EnterCommitJustified(run[n], steps[n], run[n + 1], o);
    RunDrain(run, steps, o, n);
    RunInv(run, steps, o, n);
    RunDocument(run, steps, o, n);
    var g := run[n].p.group.value;
    assert ValidSpec(g.spec) && TelemetryInv(g) by {
      InvariantParts(run[n], g);
    }
    SourcesExact(g.spec);
    assert RequiredSources(g.spec) != [];
    DrainInterval(run[n], g, steps[n].drainedAt, o);
  }

  lemma InvariantParts(w: World, g: GroupState)
    requires Inv(w) && DocumentInv(w) && w.p.group == Some(g)
    ensures ValidSpec(g.spec) && TelemetryInv(g) && ProgressInv(g.at) && TimesInv(g.at, g.times)
  {
    hide Valid, ValidSpec, TelemetryInv, ProgressInv, MessageInv, TimesInv;
  }
}
