/**
 The password and the data it belongs to, over whole runs: both outlive the CR, and only an explicit
 delete-data takes them away, together (the finalizer branch of Reconcile in
 internal/controller/openshiftpulse_controller.go and deletePGDataOnRequest in postgresql_reconciler.go).

 A pass reads the CR once, from a cache that may lag behind but does not go back, and acts on what it
 read one call at a time, while users go on editing. Only the write that drops the finalizer is refused
 when the CR has changed since. Passes run one at a time.

 The pair matters for images that set the password when they initialise an empty data directory, and not
 again: on such a volume another password never works.
 */
module PgPairRuns {
  import opened Options
  import opened PgCredentials

  // ----- Worlds and steps -----

  /** One version of the CR. */
  datatype Meta = Meta(finalizer: bool, deleting: bool, deleteData: bool)

  /** All versions of the CR so far, and the oldest one a pass may still read. */
  datatype Cr = Cr(versions: seq<Meta>, cached: nat)

  datatype Stage = BeforeSecret | BeforeVolume | BeforeDrop

  datatype Worker =
    | Idle
    | Reconciling
    | Finalizing(version: nat, deleteData: bool, stage: Stage, failed: bool)

  /** `volume` is the password the data on the retained volume was initialised with, if it holds data. */
  datatype World = World(cr: Option<Cr>, auth: Option<Data>, statefulSet: bool, volume: Option<string>, worker: Worker)

  datatype Step =
    | UserCreatesCr(deleteData: bool)
    | UserAnnotates(deleteData: bool)
    | UserDeletesCr
    | AddsFinalizer
    | PassStarts(version: nat)
    | PassEnds
    | ReconcilesSecret(auth: Option<Data>, generated: string, password: Option<string>)
    | SetsStatefulSet(present: bool)
    | DeletesSecret(auth: Option<Data>, failed: bool)
    | DeletesVolume(volume: Option<string>, failed: bool)
    | DropsFinalizer
    | InitialisesVolume
    | GarbageCollects

  ghost predicate Enabled(w: World, step: Step) {
    match step
    case UserCreatesCr(_) => w.cr.None?
    case UserAnnotates(_) => Exists(w)
    case UserDeletesCr => Exists(w)
    case AddsFinalizer => Exists(w) && w.worker.Idle? && !Current(w).finalizer && !Current(w).deleting
    case PassStarts(i) =>
      Exists(w) && w.worker.Idle? && w.cr.value.cached <= i < |w.cr.value.versions| && w.cr.value.versions[i].finalizer
    case PassEnds => true
    case ReconcilesSecret(auth, generated, password) => w.worker.Reconciling? && SecretReconciled(w.auth, auth, generated, password)
    case SetsStatefulSet(_) => w.worker.Reconciling?
    case DeletesSecret(auth, failed) => At(w, BeforeSecret) && Deleted(w.worker.deleteData, w.auth, auth, failed)
    case DeletesVolume(volume, failed) => At(w, BeforeVolume) && Deleted(w.worker.deleteData, w.volume, volume, failed)
    case DropsFinalizer => At(w, BeforeDrop) && !w.worker.failed && Exists(w) && w.worker.version == |w.cr.value.versions| - 1
    case InitialisesVolume => w.statefulSet && w.auth.Some? && PASSWORD_KEY in w.auth.value && w.volume.None?
    case GarbageCollects => w.cr.None?
  }

  predicate Exists(w: World) { w.cr.Some? && w.cr.value.versions != [] }

  function Current(w: World): Meta
    requires Exists(w)
  {
    w.cr.value.versions[|w.cr.value.versions| - 1]
  }

  predicate At(w: World, stage: Stage) { w.worker.Finalizing? && w.worker.stage == stage }

  function Edited(w: World, now: Meta): World
    requires Exists(w)
  {
    w.(cr := Some(w.cr.value.(versions := w.cr.value.versions + [now])))
  }

  /** A pass on a CR being deleted finalizes it; before that it reconciles. */
  function Started(cr: Cr, i: nat): Worker
    requires i < |cr.versions|
  {
    if cr.versions[i].deleting then Finalizing(i, cr.versions[i].deleteData, BeforeSecret, false) else Reconciling
  }

  function Next(w: World, step: Step): World
    requires Enabled(w, step)
  {
    match step
    case UserCreatesCr(deleteData) => w.(cr := Some(Cr([Meta(false, false, deleteData)], 0)))
    case UserAnnotates(deleteData) => Edited(w, Current(w).(deleteData := deleteData))
    case UserDeletesCr => if Current(w).finalizer then Edited(w, Current(w).(deleting := true)) else w.(cr := None)
    case AddsFinalizer => Edited(w, Current(w).(finalizer := true))
    case PassStarts(i) => w.(worker := Started(w.cr.value, i), cr := Some(w.cr.value.(cached := i)))
    case PassEnds => w.(worker := Idle)
    case ReconcilesSecret(auth, _, _) => w.(auth := auth)
    case SetsStatefulSet(present) => w.(statefulSet := present)
    case DeletesSecret(auth, failed) => w.(auth := auth, worker := w.worker.(stage := BeforeVolume, failed := failed))
    case DeletesVolume(volume, failed) =>
      w.(volume := volume, worker := w.worker.(stage := BeforeDrop, failed := w.worker.failed || failed))
    case DropsFinalizer => w.(cr := None, worker := Idle)
    case InitialisesVolume => w.(volume := Some(Password(w.auth.value)))
    case GarbageCollects => w.(statefulSet := false)
  }

  ghost predicate EnabledRun(w: World, steps: seq<Step>)
    decreases |steps|
  {
    steps == [] || (Enabled(w, steps[0]) && EnabledRun(Next(w, steps[0]), steps[1..]))
  }

  ghost function Run(w: World, steps: seq<Step>): World
    requires EnabledRun(w, steps)
    decreases |steps|
  {
    if steps == [] then w else Run(Next(w, steps[0]), steps[1..])
  }

  // ----- What always holds -----

  /** Finalizer and deletion are for good, and a finalizer pass remembers what it read and what it has done. */
  ghost predicate Honest(w: World) {
    && (w.cr.Some? ==> Exists(w) && w.cr.value.cached < |w.cr.value.versions| && forall i, j :: 0 <= i < j < |w.cr.value.versions| ==>
          && (w.cr.value.versions[i].finalizer ==> w.cr.value.versions[j].finalizer)
          && (w.cr.value.versions[i].deleting ==> w.cr.value.versions[j].deleting))
    && (w.worker.Finalizing? ==>
          && Exists(w) && w.worker.version < |w.cr.value.versions|
          && w.cr.value.versions[w.worker.version] == Meta(true, true, w.worker.deleteData)
          && (w.worker.deleteData && !w.worker.failed && w.worker.stage != BeforeSecret ==> w.auth.None?)
          && (w.worker.deleteData && !w.worker.failed && w.worker.stage == BeforeDrop ==> w.volume.None?))
  }

  lemma StepKeepsHonest(w: World, step: Step)
    requires Honest(w) && Enabled(w, step)
    ensures Honest(Next(w, step))
  {
  }

  // ----- The password -----

  /** No pass of the run reads a CR that is being deleted with delete-data. */
  ghost predicate KeepsData(w: World, steps: seq<Step>)
    requires EnabledRun(w, steps)
    decreases |steps|
  {
    steps == [] || (
      && (steps[0].PassStarts? ==> !Reads(w, steps[0].version))
      && KeepsData(Next(w, steps[0]), steps[1..]))
  }

  /** The version such a pass goes by asks for the data to be deleted. */
  ghost predicate Reads(w: World, i: nat) {
    Exists(w) && i < |w.cr.value.versions| && w.cr.value.versions[i].deleting && w.cr.value.versions[i].deleteData
  }

  /**
   Over any run of reconciles, legacy migrations, deletions and recreations in which no pass reads
   delete-data, the password never changes.
   */
  lemma {:induction false} PasswordNeverChanges(w: World, steps: seq<Step>)
    requires EnabledRun(w, steps) && KeepsData(w, steps) && w.auth.Some?
    requires w.worker.Finalizing? ==> !w.worker.deleteData
    ensures Run(w, steps).auth.Some? && Password(Run(w, steps).auth.value) == Password(w.auth.value)
    decreases |steps|
  {
    if steps != [] {
      match steps[0] {
        case ReconcilesSecret(auth, generated, password) => SecretKeepsItsPassword(w.auth, auth, generated, password);
        case _ =>
      }
      PasswordNeverChanges(Next(w, steps[0]), steps[1..]);
    }
  }

  // ----- The pair -----

  predicate TearingDown(w: World) { Exists(w) && Current(w) == Meta(true, true, true) }

  predicate Matches(w: World) {
    w.volume.Some? ==> w.auth.Some? && Password(w.auth.value) == w.volume.value
  }

  /** A pass that read delete-data is about to delete the Secret. */
  predicate Armed(w: World) { At(w, BeforeSecret) && w.worker.deleteData }

  /** Data and password agree and nobody is about to part them, unless both are on their way out. */
  predicate Paired(w: World) { TearingDown(w) || (Matches(w) && !Armed(w)) }

  /**
   What can part them. Delete-data is taken back when a pass that read it is under way and has yet to
   delete the Secret, or when the teardown has got half way; or a pass goes by an old version of the CR
   that still had it.
   */
  ghost predicate Breaks(w: World, step: Step) {
    match step
    case UserAnnotates(deleteData) => !deleteData && TearingDown(w) && (Armed(w) || !Matches(w))
    case PassStarts(i) => !TearingDown(w) && Reads(w, i)
    case _ => false
  }

  lemma StepKeepsPair(w: World, step: Step)
    requires Honest(w) && Enabled(w, step) && Paired(w)
    ensures Paired(Next(w, step)) <==> !Breaks(w, step)
  {
    if step.ReconcilesSecret? && w.auth.Some? {
      SecretKeepsItsPassword(w.auth, step.auth, step.generated, step.password);
    }
  }

  ghost predicate NeverBreaks(w: World, steps: seq<Step>)
    requires EnabledRun(w, steps)
    decreases |steps|
  {
    steps == [] || (!Breaks(w, steps[0]) && NeverBreaks(Next(w, steps[0]), steps[1..]))
  }

  /** Over any run without such a step, whatever fails and whoever edits, they stay a pair. */
  lemma {:induction false} PairSurvives(w: World, steps: seq<Step>)
    requires Honest(w) && EnabledRun(w, steps) && Paired(w) && NeverBreaks(w, steps)
    ensures Honest(Run(w, steps)) && Paired(Run(w, steps))
    decreases |steps|
  {
    if steps != [] {
      StepKeepsHonest(w, steps[0]);
      StepKeepsPair(w, steps[0]);
      PairSurvives(Next(w, steps[0]), steps[1..]);
    }
  }

  // ----- Exactly when the password can be lost -----

  /** A CR that is not being deleted has data whose password its Secret does not hold. */
  predicate Lost(w: World) {
    && Exists(w) && !Current(w).deleting
    && w.volume.Some? && w.auth.Some? && Password(w.auth.value) != w.volume.value
  }

  /** The run can go on to lose it with nobody breaking the pair any further. */
  ghost predicate MayLose(w: World) {
    exists steps: seq<Step> :: EnabledRun(w, steps) && NeverBreaks(w, steps) && Lost(Run(w, steps))
  }

  lemma LostMayLose(w: World)
    requires Lost(w)
    ensures MayLose(w)
  {
    var none: seq<Step> := [];
    assert EnabledRun(w, none) && NeverBreaks(w, none) && Run(w, none) == w;
  }

  lemma MayLoseBefore(w: World, step: Step)
    requires Enabled(w, step) && !Breaks(w, step) && MayLose(Next(w, step))
    ensures MayLose(w)
  {
    var steps: seq<Step> :| EnabledRun(Next(w, step), steps) && NeverBreaks(Next(w, step), steps) && Lost(Run(Next(w, step), steps));
    var all := [step] + steps;
    assert all[1..] == steps;
    assert EnabledRun(w, all) && NeverBreaks(w, all) && Run(w, all) == Run(Next(w, step), steps);
  }

  /** A new CR over data whose password is gone is given another one. */
  lemma RecreatedOverDataLoses(w: World)
    requires w.cr.None? && w.worker.Idle? && w.volume.Some? && !Matches(w)
    ensures MayLose(w)
  {
    var q := w.volume.value + "x";
    var s0, s1, s2, s3 := UserCreatesCr(false), AddsFinalizer, PassStarts(1), ReconcilesSecret(Some(FreshSecret(q)), q, Some(q));
    var w1 := Next(w, s0);
    if w.auth.Some? {
      LostMayLose(w1);
    } else {
      var w2 := Next(w1, s1);
      var w3 := Next(w2, s2);
      LostMayLose(Next(w3, s3));
      MayLoseBefore(w3, s3);
      MayLoseBefore(w2, s2);
      MayLoseBefore(w1, s1);
    }
    MayLoseBefore(w, s0);
  }

  /** Once delete-data is taken back with the pair already parted, the next pass lets the CR go. */
  lemma PartedLoses(w: World)
    requires Honest(w) && w.worker.Idle? && Exists(w) && Current(w) == Meta(true, true, false)
    requires w.volume.Some? && !Matches(w)
    ensures MayLose(w)
  {
    var start := PassStarts(|w.cr.value.versions| - 1);
    var w1 := Next(w, start);
    var w2 := Next(w1, DeletesSecret(w.auth, false));
    var w3 := Next(w2, DeletesVolume(w.volume, false));
    RecreatedOverDataLoses(Next(w3, DropsFinalizer));
    MayLoseBefore(w3, DropsFinalizer);
    MayLoseBefore(w2, DeletesVolume(w.volume, false));
    MayLoseBefore(w1, DeletesSecret(w.auth, false));
    MayLoseBefore(w, start);
  }

  /** A pass goes on to delete the Secret on an annotation that is no longer there; the volume's deletion fails. */
  lemma ArmedLoses(w: World)
    requires Honest(w) && Armed(w) && Current(w) == Meta(true, true, false) && w.volume.Some?
    ensures MayLose(w)
  {
    var w1 := Next(w, DeletesSecret(None, false));
    var w2 := Next(w1, DeletesVolume(w.volume, true));
    StepKeepsHonest(w, DeletesSecret(None, false));
    StepKeepsHonest(w1, DeletesVolume(w.volume, true));
    PartedLoses(Next(w2, PassEnds));
    MayLoseBefore(w2, PassEnds);
    MayLoseBefore(w1, DeletesVolume(w.volume, true));
    MayLoseBefore(w, DeletesSecret(None, false));
  }

  /** For data with its password: exactly the steps after which the password can be lost. */
  lemma PairCanBreakIff(w: World, step: Step)
    requires Honest(w) && Enabled(w, step) && Paired(w) && w.volume.Some?
    ensures MayLose(Next(w, step)) <==> Breaks(w, step)
  {
    var w' := Next(w, step);
    StepKeepsHonest(w, step);
    if Breaks(w, step) {
      if Armed(w') {
        ArmedLoses(w');
      } else {
        StepKeepsHonest(w', PassEnds);
        PartedLoses(Next(w', PassEnds));
        MayLoseBefore(w', PassEnds);
      }
    } else {
      StepKeepsPair(w, step);
      forall steps: seq<Step> | EnabledRun(w', steps) && NeverBreaks(w', steps) ensures !Lost(Run(w', steps)) {
        PairSurvives(w', steps);
      }
    }
  }

  /** A CR being deleted with delete-data, Secret and volume still whole, and no pass under way. */
  function Whole(p: string): World {
    World(Some(Cr([Meta(true, true, true)], 0)), Some(FreshSecret(p)), true, Some(p), Idle)
  }

  /** Delete-data is taken back between two finalizer passes, the first of which deleted the Secret only. */
  lemma RevokedTeardownLosesThePassword(p: string)
    ensures var w1 := Next(Whole(p), PassStarts(0));
      var w2 := Next(w1, DeletesSecret(None, false));
      var w3 := Next(w2, DeletesVolume(Some(p), true));
      var w4 := Next(w3, PassEnds);
      Honest(Whole(p)) && Paired(Whole(p)) && MayLose(Next(w4, UserAnnotates(false)))
  {
    var w1 := Next(Whole(p), PassStarts(0));
    var w2 := Next(w1, DeletesSecret(None, false));
    var w3 := Next(w2, DeletesVolume(Some(p), true));
    PairCanBreakIff(Next(w3, PassEnds), UserAnnotates(false));
  }

  /** Taken back while Secret and volume are both whole, but a pass has read it. */
  lemma RevokedUnderAPassLosesThePassword(p: string)
    ensures var w1 := Next(Whole(p), PassStarts(0));
      Honest(w1) && Paired(w1) && Matches(w1) && MayLose(Next(w1, UserAnnotates(false)))
  {
    var w1 := Next(Whole(p), PassStarts(0));
    PairCanBreakIff(w1, UserAnnotates(false));
  }

  /** Taken back with no pass under way, but the next one reads the version before. */
  lemma OldVersionLosesThePassword(p: string)
    ensures var w1 := Next(Whole(p), UserAnnotates(false));
      Honest(w1) && Paired(w1) && Matches(w1) && MayLose(Next(w1, PassStarts(0)))
  {
    var w1 := Next(Whole(p), UserAnnotates(false));
    PairCanBreakIff(w1, PassStarts(0));
  }

  // ----- A full teardown -----

  /**
   Exactly what is left when a CR with delete-data goes: nothing, since the write that drops the
   finalizer is refused to a pass that read anything else, if it held the finalizer; everything, if it
   never did (rejected, or not reconciled yet).
   */
  lemma TeardownIsComplete(w: World, step: Step)
    requires Honest(w) && Enabled(w, step) && Exists(w) && Current(w).deleteData
    requires Next(w, step).cr.None?
    ensures var w' := Next(w, step);
      if Current(w).finalizer then w'.auth.None? && w'.volume.None? else w'.auth == w.auth && w'.volume == w.volume
  {
  }

  lemma {:induction false} HonestAlongRun(w: World, steps: seq<Step>)
    requires Honest(w) && EnabledRun(w, steps)
    ensures Honest(Run(w, steps))
    decreases |steps|
  {
    if steps != [] {
      StepKeepsHonest(w, steps[0]);
      HonestAlongRun(Next(w, steps[0]), steps[1..]);
    }
  }

  /** So in every run that starts without a CR, whatever passes read and however they break off. */
  lemma TeardownIsAlwaysComplete(w0: World, steps: seq<Step>, step: Step)
    requires w0.cr.None? && w0.worker.Idle? && EnabledRun(w0, steps)
    requires var w := Run(w0, steps);
      Enabled(w, step) && Exists(w) && Current(w).finalizer && Current(w).deleteData && Next(w, step).cr.None?
    ensures var w' := Next(Run(w0, steps), step); w'.auth.None? && w'.volume.None?
  {
    HonestAlongRun(w0, steps);
    TeardownIsComplete(Run(w0, steps), step);
  }
}
