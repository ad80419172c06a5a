/**
 The major version of the data on the PostgreSQL volume, over runs in which the StatefulSet comes and
 goes: when does the operator put a server of another major version on it? (guardPGMajorVersion and its
 place in reconcilePGStatefulSet, internal/controller/postgresql_reconciler.go)
 */
module PgDataMajor {
  import opened Decimal
  import opened Options
  import opened PgStatefulSet

  /**
   The major version of the server an image really has. The operator can only tell it from the
   reference, and only if it recognises that.
   */
  type Servers = string -> nat

  ghost predicate Truthful(server: Servers) {
    forall image: string :: Recognised(image) ==> server(image) == MajorVersion(image)
  }

  /** `data` is the major version of the server that initialised the volume; None while there is no data. */
  datatype World = World(state: State, data: Option<nat>)

  /** Others may also delete the StatefulSet or the volume, and PostgreSQL initialises an empty one. */
  datatype Step =
    | PassRuns(spec: Spec, authHash: string, looked: bool, now: State, outcome: Outcome)
    | OthersAct(after: World)

  function Next(w: World, step: Step): World {
    match step
    case PassRuns(_, _, _, now, _) => World(now, w.data)
    case OthersAct(after) => after
  }

  ghost predicate Enabled(server: Servers, w: World, step: Step) {
    match step
    case PassRuns(spec, authHash, looked, now, outcome) => Reconciled(w.state, spec, authHash, looked, now, outcome)
    case OthersAct(after) =>
      || after.data == w.data || after.data.None?
      || (w.data.None? && w.state.sts.Some? && after.data == Some(server(w.state.sts.value.template.image)))
  }

  ghost predicate EnabledRun(server: Servers, w: World, steps: seq<Step>)
    decreases |steps|
  {
    steps == [] || (Enabled(server, w, steps[0]) && EnabledRun(server, Next(w, steps[0]), steps[1..]))
  }

  function Run(w: World, steps: seq<Step>): World
    decreases |steps|
  {
    if steps == [] then w else Run(Next(w, steps[0]), steps[1..])
  }

  /** The server that runs, if one does, is of the data's major version. */
  predicate Fits(server: Servers, w: World) {
    w.state.sts.Some? && w.data.Some? ==> server(w.state.sts.value.template.image) == w.data.value
  }

  // ----- One pass -----

  /** The guard stands between the image asked for and the running one: the read worked, and both are recognised. */
  predicate Guarded(s: StatefulSet, spec: Spec, looked: bool) {
    looked && Recognised(s.template.image) && Recognised(spec.image)
  }

  /**
   A pass that may put a server of another major version on the data: it is asked for one, and either
   creates the StatefulSet anew over a volume that has data, or gets to update it past the guard.
   */
  predicate MayMisfit(server: Servers, w: World, spec: Spec, looked: bool) {
    && w.data.Some? && server(spec.image) != w.data.value
    && match w.state.sts
       case None => spec.size.Some?
       case Some(s) => GetsToWrite(s, spec, looked) && !Guarded(s, spec, looked)
  }

  lemma WantedServer(server: Servers, s: StatefulSet, spec: Spec, looked: bool)
    requires Truthful(server)
    ensures server(WantedImage(s, spec, looked)) == server(if Guarded(s, spec, looked) then s.template.image else spec.image)
  {
  }

  lemma WhatIsWritten(was: State, spec: Spec, authHash: string, looked: bool, now: State, outcome: Outcome)
    requires Reconciled(was, spec, authHash, looked, now, outcome) && now.sts.Some?
    ensures was.sts.None? ==> spec.size.Some? && now.sts.value.template.image == spec.image
    ensures was.sts.Some? && now.sts.value.template.image != was.sts.value.template.image ==>
      GetsToWrite(was.sts.value, spec, looked) && now.sts.value.template.image == WantedImage(was.sts.value, spec, looked)
  {
  }

  /** Exactly which passes put one there: those that may, and whose write of the StatefulSet went through. */
  lemma PassMisfitsIff(server: Servers, w: World, spec: Spec, authHash: string, looked: bool, now: State, outcome: Outcome)
    requires Truthful(server) && Fits(server, w) && Reconciled(w.state, spec, authHash, looked, now, outcome)
    ensures !Fits(server, World(now, w.data)) <==> MayMisfit(server, w, spec, looked) && now.sts != w.state.sts
  {
    if now.sts.Some? {
      WhatIsWritten(w.state, spec, authHash, looked, now, outcome);
    }
    if w.state.sts.Some? {
      WantedServer(server, w.state.sts.value, spec, looked);
    }
    if MayMisfit(server, w, spec, looked) && now.sts != w.state.sts {
      WriteIsTheWantedOne(server, w, spec, authHash, looked, now, outcome);
    }
  }

  lemma WriteIsTheWantedOne(server: Servers, w: World, spec: Spec, authHash: string, looked: bool, now: State, outcome: Outcome)
    requires Truthful(server) && Fits(server, w) && Reconciled(w.state, spec, authHash, looked, now, outcome)
    requires MayMisfit(server, w, spec, looked) && now.sts != w.state.sts
    ensures now.sts.Some? && now.sts.value.template.image == spec.image
  {
    if w.state.sts.Some? {
      var s := w.state.sts.value;
      assert server(WantedImage(s, spec, looked)) == server(spec.image) by {
        WantedServer(server, s, spec, looked);
      }
      WrittenImage(s, spec, authHash, looked);
    }
  }

  /** And every pass that may can: the calls need only succeed. */
  lemma MayMisfitDoes(server: Servers, w: World, spec: Spec, authHash: string, looked: bool) returns (now: State)
    requires Truthful(server) && Fits(server, w) && MayMisfit(server, w, spec, looked)
    ensures Reconciled(w.state, spec, authHash, looked, now, Done) && !Fits(server, World(now, w.data))
  {
    if w.state.sts.Some? {
      var s := w.state.sts.value;
      assert server(WantedImage(s, spec, looked)) == server(spec.image) by {
        WantedServer(server, s, spec, looked);
      }
      WrittenImage(s, spec, authHash, looked);
    }
    now := State(Some(Admit(PlanOf(w.state.sts, spec, authHash, looked).sts)), w.state.volume);
    PassMisfitsIff(server, w, spec, authHash, looked, now, Done);
  }

  // ----- Whole runs -----

  /** In every world of the run the server fits the data. */
  ghost predicate AlwaysFits(server: Servers, w: World, steps: seq<Step>)
    decreases |steps|
  {
    Fits(server, w) && (steps == [] || AlwaysFits(server, Next(w, steps[0]), steps[1..]))
  }

  /** No pass of the run that may put a misfit on the data gets its write through. */
  ghost predicate NoMisfitWritten(server: Servers, w: World, steps: seq<Step>)
    decreases |steps|
  {
    steps == [] || (
      && (steps[0].PassRuns? ==> !(MayMisfit(server, w, steps[0].spec, steps[0].looked) && steps[0].now.sts != w.state.sts))
      && NoMisfitWritten(server, Next(w, steps[0]), steps[1..]))
  }

  /** Others put no misfit there: they may delete anything, but change no image to one that does not fit. */
  ghost predicate OthersFit(server: Servers, w: World, steps: seq<Step>)
    decreases |steps|
  {
    steps == [] || (
      && (steps[0].OthersAct? ==> Fits(server, w) ==> Fits(server, steps[0].after))
      && OthersFit(server, Next(w, steps[0]), steps[1..]))
  }

  /**
   Over whole runs, StatefulSets lost and made again included: the server always fits the data exactly
   when no write goes through that is asked for another major version and creates the StatefulSet over
   data, follows a failed read, or involves an image that is not recognised.
   */
  lemma {:induction false} DataMajorIsKeptIff(server: Servers, w: World, steps: seq<Step>)
    requires Truthful(server) && Fits(server, w) && EnabledRun(server, w, steps) && OthersFit(server, w, steps)
    ensures AlwaysFits(server, w, steps) <==> NoMisfitWritten(server, w, steps)
    decreases |steps|
  {
    if steps != [] {
      var w1 := Next(w, steps[0]);
      match steps[0] {
        case PassRuns(spec, authHash, looked, now, outcome) => PassMisfitsIff(server, w, spec, authHash, looked, now, outcome);
        case OthersAct(_) =>
      }
      if Fits(server, w1) {
        DataMajorIsKeptIff(server, w1, steps[1..]);
      }
    }
  }

  /**
   Recognised images and successful reads are not enough: a StatefulSet with another selector is removed
   before the guard is reached, and the next pass makes a new one of any major version over its volume.
   */
  lemma MigrationStartsAnotherMajor(server: Servers, s: StatefulSet, spec: Spec, authHash: string, size: int,
    was: string, now: string)
    requires Truthful(server) && !s.terminating && Mismatched(s, spec.name) && spec.size.Some?
    requires was != "" && AllDigits(was) && 0 < Value(was) <= MAX_INT && s.template.image == Tagged(was)
    requires now != "" && AllDigits(now) && 0 < Value(now) <= MAX_INT && spec.image == Tagged(now) && Value(was) != Value(now)
    ensures var w0 := World(State(Some(s), Some(size)), Some(Value(was)));
      var made := State(Some(Admit(Created(spec, authHash))), Some(size));
      var steps := [PassRuns(spec, authHash, true, State(None, Some(size)), Requeue), PassRuns(spec, authHash, true, made, Done)];
      && Recognised(s.template.image) && Recognised(spec.image)
      && EnabledRun(server, w0, steps) && Fits(server, w0) && !Fits(server, Run(w0, steps))
  {
    TagIsTheMajor(was);
    TagIsTheMajor(now);
    var w0 := World(State(Some(s), Some(size)), Some(Value(was)));
    var made := State(Some(Admit(Created(spec, authHash))), Some(size));
    var s0 := PassRuns(spec, authHash, true, State(None, Some(size)), Requeue);
    var s1 := PassRuns(spec, authHash, true, made, Done);
    assert [s0, s1][1..] == [s1] && [s1][1..] == [];
    var w1 := Next(w0, s0);
    var w2 := Next(w1, s1);
    assert EnabledRun(server, w2, []) && Run(w2, []) == w2;
    assert EnabledRun(server, w1, [s1]) && Run(w1, [s1]) == w2;
  }
}
