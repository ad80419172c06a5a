/**
 Whole histories of release runs, and the version the :latest tags point at
 (.github/workflows/release.yml, whose runs are serialized).
 */
module LatestRuns {
  import opened Options
  import opened ReleaseChain

  /** `newest` is what --is-highest printed. */
  datatype Run = Run(version: Version, newest: Option<bool>)

  /** `published` are the tags pushed so far; one run at a time holds the release group. */
  datatype World = World(published: set<Version>, latest: Option<Version>, run: Option<Run>)

  /** `read` are the tags the run sees: all of them after a fetch, the local ones if that failed. */
  datatype Step =
    | PushTag(version: Version)
    | StartRun(version: Version)
    | AskIsHighest(read: seq<Version>)
    | MoveLatest
    | EndRun

  predicate Enabled(w: World, step: Step) {
    match step
    case PushTag(_) => true
    case StartRun(v) => v in w.published && w.run.None?
    case AskIsHighest(read) => w.run.Some? && w.run.value.newest.None? && forall v <- read :: v in w.published
    case MoveLatest => w.run.Some? && w.run.value.newest == Some(true)
    case EndRun => w.run.Some?
  }

  function Next(w: World, step: Step): World
    requires Enabled(w, step)
  {
    match step
    case PushTag(v) => w.(published := w.published + {v})
    case StartRun(v) => w.(run := Some(Run(v, None)))
    case AskIsHighest(read) => w.(run := Some(w.run.value.(newest := Some(IsHighest(w.run.value.version, read)))))
    case MoveLatest => w.(latest := Some(w.run.value.version))
    case EndRun => w.(run := None)
  }

  predicate EnabledRun(w: World, steps: seq<Step>)
    decreases |steps|
  {
    steps == [] || (Enabled(w, steps[0]) && EnabledRun(Next(w, steps[0]), steps[1..]))
  }

  function After(w: World, steps: seq<Step>): World
    requires EnabledRun(w, steps)
    decreases |steps|
  {
    if steps == [] then w else After(Next(w, steps[0]), steps[1..])
  }

  predicate NotBelow(now: Option<Version>, was: Option<Version>) {
    was.Some? ==> now.Some? && AtMost(VersionKey(was.value), VersionKey(now.value))
  }

  /** The list has the version :latest points at, or one above it. */
  predicate ReachesUpTo(read: seq<Version>, latest: Option<Version>) {
    latest.Some? ==> exists r <- read :: AtMost(VersionKey(latest.value), VersionKey(r))
  }

  /** Every question is put to such a list. */
  predicate SeesLatest(w: World, step: Step) {
    step.AskIsHighest? ==> ReachesUpTo(step.read, w.latest)
  }

  predicate AlwaysSeesLatest(w: World, steps: seq<Step>)
    requires EnabledRun(w, steps)
    decreases |steps|
  {
    steps == [] || (SeesLatest(w, steps[0]) && AlwaysSeesLatest(Next(w, steps[0]), steps[1..]))
  }

  /** What :latest points at is published, and a run that may move it would not move it down. */
  predicate Inv(w: World) {
    && (w.latest.Some? ==> w.latest.value in w.published)
    && (w.run.Some? ==> w.run.value.version in w.published)
    && (w.run.Some? && w.run.value.newest == Some(true) ==> NotBelow(Some(w.run.value.version), w.latest))
  }

  lemma StepKeepsInv(w: World, step: Step)
    requires Inv(w) && Enabled(w, step) && SeesLatest(w, step)
    ensures Inv(Next(w, step)) && NotBelow(Next(w, step).latest, w.latest)
  {
    if step.AskIsHighest? && w.latest.Some? {
      var r :| r in step.read && AtMost(VersionKey(w.latest.value), VersionKey(r));
      assert IsHighest(w.run.value.version, step.read) ==> AtMost(VersionKey(r), VersionKey(w.run.value.version));
    }
  }

  /** Tags pushed and runs started, cancelled and re-run in any order: :latest never goes down. */
  lemma {:induction false} LatestNeverGoesDown(w: World, steps: seq<Step>)
    requires Inv(w) && EnabledRun(w, steps) && AlwaysSeesLatest(w, steps)
    ensures NotBelow(After(w, steps).latest, w.latest)
    decreases |steps|
  {
    if steps != [] {
      StepKeepsInv(w, steps[0]);
      LatestNeverGoesDown(Next(w, steps[0]), steps[1..]);
    }
  }

  /**
   A complete fetch meets what LatestNeverGoesDown asks of the lists, and more: what a run then makes
   :latest is the highest tag there was.
   */
  lemma CompleteFetchSeesLatest(w: World, read: seq<Version>)
    requires Inv(w) && Enabled(w, AskIsHighest(read)) && forall v <- w.published :: v in read
    ensures SeesLatest(w, AskIsHighest(read))
    ensures Next(w, AskIsHighest(read)).run.value.newest == Some(true)
      <==> forall v <- w.published :: AtMost(VersionKey(v), VersionKey(w.run.value.version))
  {
  }

  /**
   One failed fetch is enough: the checkout of an older tag has no other, the answer is "true", and
   :latest goes down to it.
   */
  lemma FailedFetchLowersLatest(older: Version, newer: Version)
    requires Below(VersionKey(older), VersionKey(newer))
    ensures var w := World({older, newer}, Some(newer), None);
      var steps := [StartRun(older), AskIsHighest([older]), MoveLatest];
      Inv(w) && EnabledRun(w, steps) && !NotBelow(After(w, steps).latest, w.latest)
  {
    var w0 := World({older, newer}, Some(newer), None);
    var s0, s1, s2 := StartRun(older), AskIsHighest([older]), MoveLatest;
    assert [s0, s1, s2][1..] == [s1, s2] && [s1, s2][1..] == [s2] && [s2][1..] == [];
    var w1 := Next(w0, s0);
    var w2 := Next(w1, s1);
    assert EnabledRun(Next(w2, s2), []) && After(Next(w2, s2), []) == Next(w2, s2);
    assert EnabledRun(w2, [s2]) && After(w2, [s2]) == Next(w2, s2);
    assert EnabledRun(w1, [s1, s2]) && After(w1, [s1, s2]) == After(w2, [s2]);
  }

  /** What a run for `version` that reads this list may make of :latest. */
  function Moved(w: World, version: Version, read: seq<Version>): Option<Version>
    requires version in w.published && forall v <- read :: v in w.published
  {
    var asked := Next(w.(run := Some(Run(version, None))), AskIsHighest(read));
    if Enabled(asked, MoveLatest) then Next(asked, MoveLatest).latest else asked.latest
  }

  ghost predicate CannotLower(w: World, read: seq<Version>)
    requires forall v <- read :: v in w.published
  {
    forall v :: v in w.published ==> NotBelow(Moved(w, v, read), w.latest)
  }

  lemma HighestOf(read: seq<Version>) returns (highest: Version)
    requires read != []
    ensures highest in read && IsHighest(highest, read)
  {
    var versions := set v | v in read;
    assert read[0] in versions;
    highest := Greatest(versions);
  }

  lemma MovedIs(w: World, version: Version, read: seq<Version>)
    requires version in w.published && forall v <- read :: v in w.published
    ensures Moved(w, version, read) == if IsHighest(version, read) then Some(version) else w.latest
  {
  }

  lemma ShortListCanLower(w: World, read: seq<Version>)
    requires w.latest.Some? && read != [] && (forall v <- read :: v in w.published) && CannotLower(w, read)
    ensures ReachesUpTo(read, w.latest)
  {
    var highest := HighestOf(read);
    MovedIs(w, highest, read);
    assert NotBelow(Moved(w, highest, read), w.latest);
  }

  lemma LongListCannotLower(w: World, read: seq<Version>, version: Version)
    requires w.latest.Some? && (forall v <- read :: v in w.published) && version in w.published && ReachesUpTo(read, w.latest)
    ensures NotBelow(Moved(w, version, read), w.latest)
  {
    var r :| r in read && AtMost(VersionKey(w.latest.value), VersionKey(r));
    MovedIs(w, version, read);
    assert IsHighest(version, read) ==> AtMost(VersionKey(r), VersionKey(version));
  }

  /**
   Exactly which lists of tags are safe to answer from, whichever published version's run asks: those
   that reach up to :latest. An empty list says "true" to every version, so it takes that none is lower.
   */
  lemma ListIsSafeIff(w: World, read: seq<Version>)
    requires w.latest.Some? && forall v <- read :: v in w.published
    ensures read != [] ==> (CannotLower(w, read) <==> ReachesUpTo(read, w.latest))
    ensures read == [] ==> (CannotLower(w, read) <==> forall v :: v in w.published ==> NotBelow(Some(v), w.latest))
  {
    if read == [] {
      forall v | v in w.published ensures Moved(w, v, read) == Some(v) {
        MovedIs(w, v, read);
      }
    } else if CannotLower(w, read) {
      ShortListCanLower(w, read);
    } else {
      var v :| v in w.published && !NotBelow(Moved(w, v, read), w.latest);
      if ReachesUpTo(read, w.latest) {
        LongListCannotLower(w, read, v);
      }
    }
  }
}
