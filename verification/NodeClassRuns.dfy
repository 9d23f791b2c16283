/** Runs of the NodeClass controller: any number of reconciliations of one object interleave, stage
    by stage, with user edits, with each other and with changing answers of the providers. */
module NodeClassRuns {
  import opened Lists
  import opened Conditions
  import opened NodeClassApi
  import opened NodeClassController
  import N = NetworkProvider
  import T = TemplateProvider

  /** How far a reconciliation has come; `copy` is the object it read, and changes. */
  datatype Stage =
    | Read(copy: Object)
    | ZoneFound(copy: Object)
    | NetworksFound(copy: Object, networks: seq<N.Network>)
    | Writing(copy: Object, outcome: Outcome)
    | Done(outcome: Outcome)

  /** The last status write that landed with resolved lists: by which reconciliation, for which
      generation. */
  datatype Landed = Landed(worker: nat, generation: nat)

  /** `specs` records the spec of every generation, `answers` what each reconciliation was told by the
      providers, and `landed` whose lists are stored, if any. */
  datatype State = State(
    stored: Option<Object>, specs: map<nat, Spec>, workers: map<nat, Stage>, answers: map<nat, Answers>, landed: Option<Landed>)

  datatype Step =
    | Edit(spec: Spec)
    | Touch
    | MarkDeleted
    | Remove
    | Begin(worker: nat)
    | BeginFails(worker: nat)
    | CheckZone(worker: nat, zones: Option<seq<Zone>>, now: int)
    | FindNetworks(worker: nat, networks: Option<seq<N.Network>>, now: int)
    | FindTemplates(worker: nat, templates: Option<seq<T.Template>>, now: int)
    | Write(worker: nat)
    | WriteFails(worker: nat)

  /** Steps of the users and of the store. */
  ghost predicate Outside(step: Step) { step.Edit? || step.Touch? || step.MarkDeleted? || step.Remove? }

  /** Success, as the code reports it. */
  ghost function Succeeded(): Outcome { RetryAfterMinutes(15) }

  ghost predicate Enabled(s: State, step: Step) {
    match step
    case Edit(_) => s.stored.Some?
    case Touch => s.stored.Some?
    case MarkDeleted => s.stored.Some?
    case Remove => s.stored.Some? && s.stored.value.deleted
    case Begin(w) => w !in s.workers
    case BeginFails(w) => w !in s.workers
    case CheckZone(w, _, _) => w in s.workers && w in s.answers && s.workers[w].Read?
    case FindNetworks(w, _, _) => w in s.workers && w in s.answers && s.workers[w].ZoneFound?
    case FindTemplates(w, _, _) => w in s.workers && w in s.answers && s.workers[w].NetworksFound?
    case Write(w) => w in s.workers && s.workers[w].Writing?
    case WriteFails(w) => w in s.workers && s.workers[w].Writing?
  }

  ghost function Goes(s: State, w: nat, stage: Stage, a: Answers): State {
    s.(workers := s.workers[w := stage], answers := s.answers[w := a])
  }

  /** The outcome once the store has accepted or refused the status. */
  ghost function Reported(outcome: Outcome, ok: bool): Outcome {
    if !ok && outcome == Succeeded() then Error else outcome
  }

  /** A new generation of the stored object. */
  ghost function Regenerated(s: State, spec: Spec, deleted: bool): State
    requires s.stored.Some?
  {
    var o := s.stored.value;
    s.(stored := Some(o.(generation := o.generation + 1, version := o.version + 1, spec := spec, deleted := deleted)),
       specs := s.specs[o.generation + 1 := spec])
  }

  ghost function AfterZone(copy: Object, zones: Option<seq<Zone>>, now: int): Stage {
    if ZoneByName(zones, copy.spec.zone).None? then Writing(Mark(copy, False, "ZoneValidationFailed", now), RetryAfterMinutes(5))
    else ZoneFound(copy)
  }

  ghost function AfterNetworks(copy: Object, listed: Option<seq<N.Network>>, now: int): Stage {
    var nets := N.Answered(listed, copy.spec.networkTerms);
    if nets.Err? then Writing(Mark(copy, False, "NetworkResolutionFailed", now), RetryAfterMinutes(1))
    else NetworksFound(copy, nets.value)
  }

  ghost function AfterTemplates(copy: Object, networks: seq<N.Network>, listed: Option<seq<T.Template>>, now: int): Stage {
    var tpls := T.Answered(listed, copy.spec.templateTerms);
    if tpls.Err? then Writing(Mark(copy, False, "TemplateResolutionFailed", now), RetryAfterMinutes(1))
    else Writing(Resolves(copy, networks, tpls.value, now), Succeeded())
  }

  ghost predicate Lands(s: State, sent: Object) {
    s.stored.Some? && s.stored.value.version == sent.version
  }

  ghost function Next(s: State, step: Step): State
    requires Enabled(s, step)
  {
    match step
    case Edit(spec) => Regenerated(s, spec, s.stored.value.deleted)
    case Touch => s.(stored := Some(s.stored.value.(version := s.stored.value.version + 1)))
    case MarkDeleted => Regenerated(s, s.stored.value.spec, true)
    case Remove => s.(stored := None)
    case Begin(w) =>
      Goes(s, w, if s.stored.None? || s.stored.value.deleted then Done(Finished) else Read(s.stored.value), Answers(None, None, None))
    case BeginFails(w) => Goes(s, w, Done(Error), Answers(None, None, None))
    case CheckZone(w, zones, now) => Goes(s, w, AfterZone(s.workers[w].copy, zones, now), s.answers[w].(zones := zones))
    case FindNetworks(w, listed, now) =>
      Goes(s, w, AfterNetworks(s.workers[w].copy, listed, now), s.answers[w].(networks := listed))
    case FindTemplates(w, listed, now) =>
      Goes(s, w, AfterTemplates(s.workers[w].copy, s.workers[w].networks, listed, now), s.answers[w].(templates := listed))
    case Write(w) =>
      var (sent, outcome) := (s.workers[w].copy, s.workers[w].outcome);
      s.(workers := s.workers[w := Done(Reported(outcome, Lands(s, sent)))], stored := UpdateStatus(s.stored, sent),
         landed := if Lands(s, sent) && outcome == Succeeded() then Some(Landed(w, sent.generation)) else s.landed)
    case WriteFails(w) => s.(workers := s.workers[w := Done(Reported(s.workers[w].outcome, false))])
  }

  /** A NodeClass just created: users cannot set the status. */
  ghost function Start(spec: Spec): State {
    State(Some(Object(1, 1, false, spec, Status([], [], []))), map[1 := spec], map[], map[], None)
  }

  ghost predicate Runs(s: State, steps: seq<Step>)
    decreases |steps|, 0
  {
    steps != [] ==>
      Runs(s, steps[..|steps|-1]) && Enabled(After(s, steps[..|steps|-1]), steps[|steps|-1])
  }

  ghost function After(s: State, steps: seq<Step>): State
    requires Runs(s, steps)
    decreases |steps|, 1
  {
    if steps == [] then s else Next(After(s, steps[..|steps|-1]), steps[|steps|-1])
  }

  // ----- what the stored status means -----

  /** The lists are the resolution of the spec against the answers of one reconciliation, which found
      the zone of the spec. */
  ghost predicate ResolvedFrom(a: Answers, spec: Spec, status: Status) {
    var nets, tpls := N.Answered(a.networks, spec.networkTerms), T.Answered(a.templates, spec.templateTerms);
    && ZoneByName(a.zones, spec.zone).Some? && nets.Ok? && tpls.Ok?
    && status.networks == Map(nets.value, NetworkRefOf()) && status.templates == Map(tpls.value, TemplateRefOf())
  }

  /** The same in the terms of the resource: an entry for every network and template of the resolution. */
  ghost predicate ShowsResolution(a: Answers, spec: Spec, status: Status) {
    && ZoneListed(a.zones, spec.zone)
    && (exists ns :: NetworksOf(a.networks, spec.networkTerms, ns) && NetworksShown(ns, status.networks))
    && (exists ts :: TemplatesOf(a.templates, spec.templateTerms, ts) && TemplatesShown(ts, status.templates))
  }

  lemma ResolvedIsShown(a: Answers, spec: Spec, status: Status)
    requires ResolvedFrom(a, spec, status)
    ensures ShowsResolution(a, spec, status) && status.networks != [] && status.templates != []
  {
    var ns, ts := N.Answered(a.networks, spec.networkTerms).value, T.Answered(a.templates, spec.templateTerms).value;
    ZoneListedIff(a.zones, spec.zone);
    NetworksOfIff(a.networks, spec.networkTerms, ns);
    TemplatesOfIff(a.templates, spec.templateTerms, ts);
    assert NetworksShown(ns, status.networks) && TemplatesShown(ts, status.templates);
  }

  ghost function ReadyOf(status: Status): Option<Condition> { Lookup(status.conditions, "Ready") }

  /** The stored lists are those of the reconciliation that landed last, which is over. */
  ghost predicate ListsOk(s: State, status: Status) {
    if s.landed.None? then status.networks == [] && status.templates == []
    else
      var (w, g) := (s.landed.value.worker, s.landed.value.generation);
      && w in s.workers && s.workers[w].Done? && w in s.answers && g in s.specs
      && ResolvedFrom(s.answers[w], s.specs[g], status)
  }

  ghost predicate ReadyOk(s: State, o: Object) {
    var ready := ReadyOf(o.status);
    ready.Some? ==>
      && ready.value.observed <= o.generation
      && (ready.value.status == True ==> s.landed.Some? && s.landed.value.generation == ready.value.observed)
  }

  ghost predicate SpecsOk(s: State, o: Object) {
    o.generation in s.specs && s.specs[o.generation] == o.spec && forall g | g in s.specs :: g <= o.generation
  }

  ghost predicate StoredOk(s: State) {
    s.stored.Some? ==> SpecsOk(s, s.stored.value) && ReadyOk(s, s.stored.value) && ListsOk(s, s.stored.value.status)
  }

  /** A copy whose version is still current differs from the stored object at most in status. */
  ghost predicate CopyOk(s: State, copy: Object) {
    && copy.generation in s.specs && s.specs[copy.generation] == copy.spec
    && (s.stored.Some? ==>
          && copy.version <= s.stored.value.version
          && (copy.version == s.stored.value.version ==> copy.generation == s.stored.value.generation))
  }

  /** While its version is current, the copy has the stored lists. */
  ghost predicate KeepsLists(s: State, copy: Object) {
    Lands(s, copy) ==> copy.status.networks == s.stored.value.status.networks && copy.status.templates == s.stored.value.status.templates
  }

  /** What is about to be written judges the generation that was read: resolved lists with Ready=True,
      or the lists as they were without. */
  ghost predicate WritingOk(s: State, a: Answers, copy: Object, outcome: Outcome) {
    && ReadyOf(copy.status).Some? && ReadyOf(copy.status).value.observed == copy.generation
    && if outcome == Succeeded() then ResolvedFrom(a, copy.spec, copy.status)
       else KeepsLists(s, copy) && ReadyOf(copy.status).value.status == False
  }

  ghost predicate StageOk(s: State, w: nat)
    requires w in s.workers
  {
    && w in s.answers
    && match s.workers[w]
       case Read(copy) => CopyOk(s, copy) && KeepsLists(s, copy)
       case ZoneFound(copy) => CopyOk(s, copy) && KeepsLists(s, copy) && ZoneByName(s.answers[w].zones, copy.spec.zone).Some?
       case NetworksFound(copy, networks) =>
         && CopyOk(s, copy) && KeepsLists(s, copy) && ZoneByName(s.answers[w].zones, copy.spec.zone).Some?
         && N.Answered(s.answers[w].networks, copy.spec.networkTerms) == N.Ok(networks)
       case Writing(copy, outcome) => CopyOk(s, copy) && WritingOk(s, s.answers[w], copy, outcome)
       case Done(_) => true
  }

  ghost predicate Inv(s: State) {
    StoredOk(s) && forall w | w in s.workers :: StageOk(s, w)
  }

  /** Nothing is taken away, and the stored object changes only with its version. */
  ghost predicate Later(s: State, s': State) {
    && (forall g | g in s.specs :: g in s'.specs && s'.specs[g] == s.specs[g])
    && (s'.stored.Some? ==> s.stored.Some? && (s'.stored == s.stored || s.stored.value.version < s'.stored.value.version))
  }

  /** A reconciliation that does not move stays where its stage says. */
  lemma StageOkLater(s: State, s': State, w: nat)
    requires Later(s, s') && w in s.workers && StageOk(s, w)
    requires w in s'.workers && s'.workers[w] == s.workers[w] && w in s'.answers && s'.answers[w] == s.answers[w]
    ensures StageOk(s', w)
  {}

  lemma RegeneratedOk(s: State, spec: Spec, deleted: bool)
    requires StoredOk(s) && s.stored.Some?
    ensures StoredOk(Regenerated(s, spec, deleted)) && Later(s, Regenerated(s, spec, deleted))
  {}

  lemma InvOutside(s: State, step: Step)
    requires Inv(s) && Enabled(s, step) && Outside(step)
    ensures Inv(Next(s, step))
  {
    var s' := Next(s, step);
    assert StoredOk(s') && Later(s, s') by {
      if step.Edit? {
        RegeneratedOk(s, step.spec, s.stored.value.deleted);
      } else if step.MarkDeleted? {
        RegeneratedOk(s, s.stored.value.spec, true);
      }
    }
    forall w | w in s'.workers ensures StageOk(s', w) {
      StageOkLater(s, s', w);
    }
  }

  lemma InvBegin(s: State, step: Step)
    requires Inv(s) && Enabled(s, step) && (step.Begin? || step.BeginFails?)
    ensures Inv(Next(s, step))
  {
    var s' := Next(s, step);
    forall w | w in s'.workers ensures StageOk(s', w) {
      if w != step.worker {
        StageOkLater(s, s', w);
      }
    }
  }

  /** A reconciliation that moves on leaves the store and the others as they are. */
  lemma InvMoves(s: State, w: nat, stage: Stage, a: Answers)
    requires Inv(s) && w in s.workers && !s.workers[w].Done? && StageOk(Goes(s, w, stage, a), w)
    ensures Inv(Goes(s, w, stage, a))
  {
    var s' := Goes(s, w, stage, a);
    forall v | v in s'.workers ensures StageOk(s', v) {
      if v != w {
        StageOkLater(s, s', v);
      }
    }
  }

  lemma MarkedIsNotReady(o: Object, reason: string, now: int)
    ensures ReadyOf(Mark(o, False, reason, now).status) == Some(Condition("Ready", False, reason, o.generation, now))
  {
    LookupAfterWith(o.status.conditions, Condition("Ready", False, reason, o.generation, now), "Ready");
  }

  lemma ZoneStageOk(s: State, w: nat, zones: Option<seq<Zone>>, now: int)
    requires Inv(s) && Enabled(s, CheckZone(w, zones, now))
    ensures StageOk(Next(s, CheckZone(w, zones, now)), w)
  {
    assert StageOk(s, w);
    MarkedIsNotReady(s.workers[w].copy, "ZoneValidationFailed", now);
  }

  lemma NetworksStageOk(s: State, w: nat, listed: Option<seq<N.Network>>, now: int)
    requires Inv(s) && Enabled(s, FindNetworks(w, listed, now))
    ensures StageOk(Next(s, FindNetworks(w, listed, now)), w)
  {
    assert StageOk(s, w);
    MarkedIsNotReady(s.workers[w].copy, "NetworkResolutionFailed", now);
  }

  lemma ResolvesOk(a: Answers, o: Object, networks: seq<N.Network>, now: int)
    requires ZoneByName(a.zones, o.spec.zone).Some? && N.Answered(a.networks, o.spec.networkTerms) == N.Ok(networks)
    requires T.Answered(a.templates, o.spec.templateTerms).Ok?
    ensures var sent := Resolves(o, networks, T.Answered(a.templates, o.spec.templateTerms).value, now);
            && ResolvedFrom(a, o.spec, sent.status)
            && ReadyOf(sent.status) == Some(Condition("Ready", True, "Ready", o.generation, now))
  {
    LookupAfterWith(o.status.conditions, Condition("Ready", True, "Ready", o.generation, now), "Ready");
  }

  lemma TemplatesStageOk(s: State, w: nat, listed: Option<seq<T.Template>>, now: int)
    requires Inv(s) && Enabled(s, FindTemplates(w, listed, now))
    ensures StageOk(Next(s, FindTemplates(w, listed, now)), w)
  {
    assert StageOk(s, w);
    var copy := s.workers[w].copy;
    if T.Answered(listed, copy.spec.templateTerms).Err? {
      MarkedIsNotReady(copy, "TemplateResolutionFailed", now);
    } else {
      ResolvesOk(s.answers[w].(templates := listed), copy, s.workers[w].networks, now);
    }
  }

  lemma WriteKeepsStored(s: State, w: nat)
    requires Inv(s) && Enabled(s, Write(w))
    ensures StoredOk(Next(s, Write(w))) && Later(s, Next(s, Write(w)))
  {
    assert StageOk(s, w);
  }

  lemma InvWrite(s: State, step: Step)
    requires Inv(s) && Enabled(s, step) && (step.Write? || step.WriteFails?)
    ensures Inv(Next(s, step))
  {
    var s' := Next(s, step);
    assert StageOk(s, step.worker);
    if step.Write? {
      WriteKeepsStored(s, step.worker);
    }
    forall w | w in s'.workers ensures StageOk(s', w) {
      if w != step.worker {
        StageOkLater(s, s', w);
      }
    }
  }

  lemma InvNext(s: State, step: Step)
    requires Inv(s) && Enabled(s, step)
    ensures Inv(Next(s, step))
  {
    match step
    case Begin(_) => InvBegin(s, step);
    case BeginFails(_) => InvBegin(s, step);
    case CheckZone(w, zones, now) =>
      ZoneStageOk(s, w, zones, now);
      InvMoves(s, w, AfterZone(s.workers[w].copy, zones, now), s.answers[w].(zones := zones));
    case FindNetworks(w, listed, now) =>
      NetworksStageOk(s, w, listed, now);
      InvMoves(s, w, AfterNetworks(s.workers[w].copy, listed, now), s.answers[w].(networks := listed));
    case FindTemplates(w, listed, now) =>
      TemplatesStageOk(s, w, listed, now);
      InvMoves(s, w, AfterTemplates(s.workers[w].copy, s.workers[w].networks, listed, now), s.answers[w].(templates := listed));
    case Write(_) => InvWrite(s, step);
    case WriteFails(_) => InvWrite(s, step);
    case _ => InvOutside(s, step);
  }

  lemma {:induction false} InvAlways(spec: Spec, steps: seq<Step>)
    requires Runs(Start(spec), steps)
    ensures Inv(After(Start(spec), steps))
  {
    if steps == [] {
      assert Lookup([], "Ready") == None;
    } else {
      InvAlways(spec, steps[..|steps|-1]);
      InvNext(After(Start(spec), steps[..|steps|-1]), steps[|steps|-1]);
    }
  }

  /** In every run, the stored lists are the resolution, against the answers that one single
      reconciliation was given, of the spec of the generation that it read: that of the last
      reconciliation to land a resolution, and never empty.  Before the first there are none.  A
      stored Ready=True is for exactly that generation, no later than the stored one, so that a
      failure that kept the lists is never Ready=True; if it is for the stored generation, the lists
      are the resolution of the stored spec. */
  lemma ReadyMeansResolved(spec: Spec, steps: seq<Step>)
    requires Runs(Start(spec), steps) && After(Start(spec), steps).stored.Some?
    ensures var s := After(Start(spec), steps);
            var (o, ready) := (s.stored.value, ReadyOf(s.stored.value.status));
            && (s.landed.None? ==> o.status.networks == [] && o.status.templates == [])
            && (s.landed.Some? ==>
                  var (w, g) := (s.landed.value.worker, s.landed.value.generation);
                  && w in s.answers && g in s.specs && g <= o.generation
                  && ShowsResolution(s.answers[w], s.specs[g], o.status)
                  && o.status.networks != [] && o.status.templates != [])
            && (ready.Some? && ready.value.status == True ==>
                  && s.landed.Some? && s.landed.value.generation == ready.value.observed <= o.generation
                  && (ready.value.observed == o.generation ==> ShowsResolution(s.answers[s.landed.value.worker], o.spec, o.status)))
  {
    InvAlways(spec, steps);
    var s := After(Start(spec), steps);
    if s.landed.Some? {
      ResolvedIsShown(s.answers[s.landed.value.worker], s.specs[s.landed.value.generation], s.stored.value.status);
    }
  }

  /** A status write that lands speaks for the spec that is stored at that moment. */
  lemma WritesAreCurrent(spec: Spec, steps: seq<Step>, w: nat)
    requires Runs(Start(spec), steps) && Enabled(After(Start(spec), steps), Write(w))
    ensures var s := After(Start(spec), steps);
            var s' := Next(s, Write(w));
            s'.stored != s.stored ==>
              && s'.stored.Some? && s.stored.Some?
              && s'.stored.value.(status := s.stored.value.status, version := s.stored.value.version) == s.stored.value
              && ReadyOf(s'.stored.value.status).Some?
              && ReadyOf(s'.stored.value.status).value.observed == s.stored.value.generation
  {
    InvAlways(spec, steps);
    var s := After(Start(spec), steps);
    assert StageOk(s, w);
  }

  /** The generation that the stored Ready condition observed never goes back, however the
      reconciliations overlap. */
  lemma {:induction false} ObservedNeverGoesBack(spec: Spec, steps: seq<Step>, more: seq<Step>)
    requires Runs(Start(spec), steps) && Runs(Start(spec), steps + more)
    requires After(Start(spec), steps + more).stored.Some? && After(Start(spec), steps).stored.Some?
    requires ReadyOf(After(Start(spec), steps).stored.value.status).Some?
    ensures var before, after := After(Start(spec), steps).stored.value, After(Start(spec), steps + more).stored.value;
            && ReadyOf(after.status).Some?
            && ReadyOf(before.status).value.observed <= ReadyOf(after.status).value.observed
  {
    if more == [] {
      assert steps + more == steps;
    } else {
      var n := |more| - 1;
      assert (steps + more)[..|steps + more| - 1] == steps + more[..n];
      var s := After(Start(spec), steps + more[..n]);
      assert Enabled(s, more[n]) && After(Start(spec), steps + more) == Next(s, more[n]);
      InvAlways(spec, steps + more[..n]);
      ObservedNeverGoesBack(spec, steps, more[..n]);
      ObservedNext(s, more[n]);
    }
  }

  lemma ObservedNext(s: State, step: Step)
    requires Inv(s) && Enabled(s, step) && Next(s, step).stored.Some?
    ensures s.stored.Some?
    ensures ReadyOf(s.stored.value.status).Some? ==>
              && ReadyOf(Next(s, step).stored.value.status).Some?
              && ReadyOf(s.stored.value.status).value.observed <= ReadyOf(Next(s, step).stored.value.status).value.observed
  {
    if step.Write? {
      assert StageOk(s, step.worker);
    }
  }

  /** Editing the spec takes nothing from a Ready condition: until the next reconciliation lands, a
      NodeClass stays Ready=True for a generation that is no longer the stored one. */
  lemma EditLeavesReady(spec: Spec, steps: seq<Step>, edited: Spec)
    requires Runs(Start(spec), steps) && After(Start(spec), steps).stored.Some?
    requires ReadyOf(After(Start(spec), steps).stored.value.status).Some?
    ensures var before := After(Start(spec), steps);
            var after := Next(before, Edit(edited)).stored.value;
            && after.spec == edited
            && ReadyOf(after.status) == ReadyOf(before.stored.value.status)
            && ReadyOf(after.status).value.observed < after.generation
  {
    InvAlways(spec, steps);
  }

  // ----- a reconciliation that nobody interferes with -----

  lemma Then(s: State, steps: seq<Step>, step: Step) returns (more: seq<Step>)
    requires Runs(s, steps) && Enabled(After(s, steps), step)
    ensures more == steps + [step] && Runs(s, more) && After(s, more) == Next(After(s, steps), step)
  {
    more := steps + [step];
    assert more[..|steps|] == steps;
  }

  /** The worker stands there, in a run that left the store alone. */
  ghost predicate Stands(s: State, steps: seq<Step>, w: nat, stage: Stage) {
    && Runs(s, steps) && w in After(s, steps).workers && w in After(s, steps).answers
    && After(s, steps).workers[w] == stage && After(s, steps).stored == s.stored
  }

  lemma AloneReads(s: State, w: nat) returns (steps: seq<Step>)
    requires w !in s.workers && s.stored.Some? && !s.stored.value.deleted
    ensures Stands(s, steps, w, Read(s.stored.value))
  {
    steps := Then(s, [], Begin(w));
  }

  lemma AloneChecksZone(s: State, before: seq<Step>, w: nat, o: Object, a: Answers, now: int) returns (steps: seq<Step>)
    requires Stands(s, before, w, Read(o))
    ensures Stands(s, steps, w, AfterZone(o, a.zones, now))
  {
    steps := Then(s, before, CheckZone(w, a.zones, now));
  }

  lemma AloneFindsNetworks(s: State, before: seq<Step>, w: nat, o: Object, a: Answers, now: int) returns (steps: seq<Step>)
    requires Stands(s, before, w, ZoneFound(o))
    ensures Stands(s, steps, w, AfterNetworks(o, a.networks, now))
  {
    steps := Then(s, before, FindNetworks(w, a.networks, now));
  }

  lemma AloneFindsTemplates(s: State, before: seq<Step>, w: nat, o: Object, networks: seq<N.Network>, a: Answers, now: int)
    returns (steps: seq<Step>)
    requires Stands(s, before, w, NetworksFound(o, networks))
    ensures Stands(s, steps, w, AfterTemplates(o, networks, a.templates, now))
  {
    steps := Then(s, before, FindTemplates(w, a.templates, now));
  }

  lemma AloneIsJudge(s: State, w: nat, a: Answers, now: int) returns (steps: seq<Step>)
    requires w !in s.workers && s.stored.Some? && !s.stored.value.deleted
    ensures Stands(s, steps, w, Writing(Judge(s.stored.value, a, now).0, Judge(s.stored.value, a, now).1))
  {
    var o := s.stored.value;
    steps := AloneReads(s, w);
    steps := AloneChecksZone(s, steps, w, o, a, now);
    if ZoneByName(a.zones, o.spec.zone).Some? {
      steps := AloneFindsNetworks(s, steps, w, o, a, now);
      var nets := N.Answered(a.networks, o.spec.networkTerms);
      if nets.Ok? {
        steps := AloneFindsTemplates(s, steps, w, o, nets.value, a, now);
      }
    }
  }

  /** The reconciliation is over, with the store and the outcome as given. */
  ghost predicate Ends(s: State, steps: seq<Step>, w: nat, end: (Option<Object>, Outcome)) {
    && Runs(s, steps) && w in After(s, steps).workers
    && After(s, steps).workers[w] == Done(end.1) && After(s, steps).stored == end.0
  }

  lemma AloneStops(s: State, w: nat, readFails: bool) returns (steps: seq<Step>)
    requires w !in s.workers && (readFails || s.stored.None? || s.stored.value.deleted)
    ensures Ends(s, steps, w, (s.stored, if readFails then Error else Finished))
  {
    steps := Then(s, [], if readFails then BeginFails(w) else Begin(w));
  }

  lemma AloneWrites(s: State, before: seq<Step>, w: nat, sent: Object, outcome: Outcome, fails: bool) returns (steps: seq<Step>)
    requires Stands(s, before, w, Writing(sent, outcome)) && Lands(s, sent)
    ensures Ends(s, steps, w, if fails then (s.stored, Reported(outcome, false)) else (UpdateStatus(s.stored, sent), outcome))
  {
    steps := Then(s, before, if fails then WriteFails(w) else Write(w));
  }

  /** Run by itself, a reconciliation is what Reconcile does. */
  lemma AloneIsReconcile(s: State, w: nat, a: Answers, now: int, readFails: bool, fails: bool) returns (steps: seq<Step>)
    requires w !in s.workers
    ensures Ends(s, steps, w, ReconcileOnce(s.stored, a, now, readFails, fails))
  {
    if readFails || s.stored.None? || s.stored.value.deleted {
      steps := AloneStops(s, w, readFails);
    } else {
      var (sent, outcome) := Judge(s.stored.value, a, now);
      steps := AloneIsJudge(s, w, a, now);
      JudgeKeepsVersion(s.stored.value, a, now);
      steps := AloneWrites(s, steps, w, sent, outcome, fails);
    }
  }

  lemma JudgeKeepsVersion(o: Object, a: Answers, now: int)
    ensures Judge(o, a, now).0.version == o.version
  {}
}
