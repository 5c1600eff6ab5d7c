/** The game's frame loop and its character: fighting earns experience through jobs on the character's
    own executor, served by the memory service. */
module Game {
  import opened Programs
  import opened Services

  /** One second in nanoseconds. */
  const SECOND := 1_000_000_000

  datatype Phase = Uninit | Initializing | Idle | Fighting

  datatype Job = Init | EarnXp | Reincarnate

  datatype Entry = FightBegan | Fought(elapsed: nat) | Spawned(job: Job) | Finished(job: Job)

  datatype World = World(phase: Phase, timeSinceXp: nat, jobs: seq<Job>, player: Player, log: seq<Entry>)

  function NewWorld(): World {
    World(Uninit, 0, [], BLANK, [])
  }

  // ---- a frame ----

  function SpawnJob(w: World, job: Job): World {
    w.(jobs := w.jobs + [job], log := w.log + [Spawned(job)])
  }

  function ProcessInput(w: World, input: string): World {
    if w.phase == Idle && input == "fight" then w.(phase := Fighting, timeSinceXp := 0, log := w.log + [FightBegan])
    else if w.phase == Fighting && input == "rest" then w.(phase := Idle)
    else if w.phase == Idle && input == "reincarnate" then SpawnJob(w, Reincarnate)
    else w
  }

  function Earned(p: Player): Player {
    if Given(p, 100).xp >= 1000 then LeveledUp(Given(p, 100)) else Given(p, 100)
  }

  /** The first job in the queue, run to its end: the memory service never suspends it. */
  function RunJob(w: World): World
    requires w.jobs != []
  {
    var u := w.(jobs := w.jobs[1..], log := w.log + [Finished(w.jobs[0])]);
    match w.jobs[0]
    case Init => u.(phase := Idle)
    case EarnXp => u.(player := Earned(w.player))
    case Reincarnate => u.(player := BLANK)
  }

  function PreUpdate(w: World): World
    decreases |w.jobs|
  {
    if w.jobs == [] then w else PreUpdate(RunJob(w))
  }

  function Advance(w: World, elapsed: nat): World {
    match w.phase
    case Uninit => SpawnJob(w.(phase := Initializing), Init)
    case Fighting =>
      var u := w.(timeSinceXp := w.timeSinceXp + elapsed, log := w.log + [Fought(elapsed)]);
      if u.timeSinceXp >= SECOND then SpawnJob(u.(timeSinceXp := u.timeSinceXp - SECOND), EarnXp) else u
    case _ => w
  }

  /** An input, when there is one, and the time since the frame before. */
  datatype Frame = Frame(input: Option<string>, elapsed: nat)

  function Handled(w: World, f: Frame): World {
    if f.input.Some? then ProcessInput(w, f.input.value) else w
  }

  predicate Quits(f: Frame) {
    f.input == Some("quit")
  }

  function Play(w: World, frames: seq<Frame>): World
    decreases |frames|
  {
    if frames == [] || Quits(frames[0]) then w
    else Play(Advance(PreUpdate(Handled(w, frames[0])), frames[0].elapsed), frames[1..])
  }

  // ---- what the log says ----

  /** EarnXp jobs finished since the last Reset. */
  function EarnedSinceReset(log: seq<Entry>): nat {
    if log == [] then 0
    else
      var rest, last := EarnedSinceReset(log[..|log| - 1]), log[|log| - 1];
      if last == Finished(Reincarnate) then 0 else if last == Finished(EarnXp) then rest + 1 else rest
  }

  function SpawnedSinceFight(log: seq<Entry>): nat {
    if log == [] then 0
    else
      var rest, last := SpawnedSinceFight(log[..|log| - 1]), log[|log| - 1];
      if last == FightBegan then 0 else if last == Spawned(EarnXp) then rest + 1 else rest
  }

  function FoughtSinceFight(log: seq<Entry>): nat {
    if log == [] then 0
    else
      var rest, last := FoughtSinceFight(log[..|log| - 1]), log[|log| - 1];
      if last == FightBegan then 0 else if last.Fought? then rest + last.elapsed else rest
  }

  function SpawnedJobs(log: seq<Entry>): seq<Job> {
    if log == [] then []
    else
      var rest, last := SpawnedJobs(log[..|log| - 1]), log[|log| - 1];
      if last.Spawned? then rest + [last.job] else rest
  }

  function FinishedJobs(log: seq<Entry>): seq<Job> {
    if log == [] then []
    else
      var rest, last := FinishedJobs(log[..|log| - 1]), log[|log| - 1];
      if last.Finished? then rest + [last.job] else rest
  }

  lemma Logged(log: seq<Entry>, e: Entry)
    ensures EarnedSinceReset(log + [e]) ==
      if e == Finished(Reincarnate) then 0 else EarnedSinceReset(log) + if e == Finished(EarnXp) then 1 else 0
    ensures SpawnedSinceFight(log + [e]) ==
      if e == FightBegan then 0 else SpawnedSinceFight(log) + if e == Spawned(EarnXp) then 1 else 0
    ensures FoughtSinceFight(log + [e]) ==
      if e == FightBegan then 0 else FoughtSinceFight(log) + if e.Fought? then e.elapsed else 0
    ensures SpawnedJobs(log + [e]) == SpawnedJobs(log) + if e.Spawned? then [e.job] else []
    ensures FinishedJobs(log + [e]) == FinishedJobs(log) + if e.Finished? then [e.job] else []
  {
    assert (log + [e])[..|log|] == log;
  }

  // ---- the invariant ----

  /** All the experience a player stands for. */
  function Total(p: Player): int {
    (p.level - 1) * 1000 + p.xp
  }

  /** Nothing of the experience is lost or made up. */
  predicate XpOk(w: World) {
    && Total(w.player) == 100 * EarnedSinceReset(w.log)
    && 0 <= w.player.xp < 1000
  }

  /** Time fought is either still counting or was turned into an EarnXp. */
  predicate TimeOk(w: World) {
    w.timeSinceXp + SECOND * SpawnedSinceFight(w.log) == FoughtSinceFight(w.log)
  }

  /** Every job spawned is finished once, in order, or still queued. */
  predicate JobsOk(w: World) {
    FinishedJobs(w.log) + w.jobs == SpawnedJobs(w.log)
  }

  /** Init is spawned once, first, and its end makes the character playable. */
  predicate PhaseOk(w: World) {
    match w.phase
    case Uninit => w.jobs == []
    case Initializing => w.jobs == [Init]
    case _ => Init !in w.jobs
  }

  predicate Inv(w: World) {
    XpOk(w) && TimeOk(w) && JobsOk(w) && PhaseOk(w)
  }

  lemma SpawnKeeps(w: World, job: Job)
    requires JobsOk(w)
    ensures JobsOk(SpawnJob(w, job)) && (XpOk(w) ==> XpOk(SpawnJob(w, job)))
    ensures job != EarnXp && TimeOk(w) ==> TimeOk(SpawnJob(w, job))
  {
    Logged(w.log, Spawned(job));
  }

  lemma InputKeepsInv(w: World, input: string)
    requires Inv(w)
    ensures Inv(ProcessInput(w, input))
  {
    if w.phase == Idle {
      Logged(w.log, FightBegan);
      SpawnKeeps(w, Reincarnate);
    }
  }

  lemma JobKeepsOrder(w: World)
    requires JobsOk(w) && w.jobs != []
    ensures JobsOk(RunJob(w))
  {
    Logged(w.log, Finished(w.jobs[0]));
    assert w.jobs == [w.jobs[0]] + w.jobs[1..];
    assert FinishedJobs(w.log) + [w.jobs[0]] + w.jobs[1..] == FinishedJobs(w.log) + w.jobs;
  }

  /** Levelling up loses nothing: 100 at a time, the experience meets 1000 exactly. */
  lemma EarnedAddsUp(p: Player, earned: nat)
    requires Total(p) == 100 * earned && 0 <= p.xp < 1000
    ensures Total(Earned(p)) == 100 * (earned + 1) && 0 <= Earned(p).xp < 1000
  {
    var hundreds := earned - 10 * (p.level - 1);
    assert p.xp == 100 * hundreds && hundreds <= 9;
  }

  lemma JobKeepsXp(w: World)
    requires XpOk(w) && w.jobs != []
    ensures XpOk(RunJob(w))
  {
    Logged(w.log, Finished(w.jobs[0]));
    if w.jobs[0] == EarnXp { EarnedAddsUp(w.player, EarnedSinceReset(w.log)); }
  }

  lemma JobKeepsTime(w: World)
    requires TimeOk(w) && w.jobs != []
    ensures TimeOk(RunJob(w))
  {
    Logged(w.log, Finished(w.jobs[0]));
  }

  lemma JobKeepsInv(w: World)
    requires Inv(w) && w.jobs != []
    ensures Inv(RunJob(w))
  {
    JobKeepsOrder(w);
    JobKeepsXp(w);
    JobKeepsTime(w);
  }

  lemma {:induction false} PreUpdateKeepsInv(w: World)
    requires Inv(w)
    ensures Inv(PreUpdate(w)) && PreUpdate(w).jobs == []
    ensures SpawnedJobs(PreUpdate(w).log) == SpawnedJobs(w.log)
    ensures PreUpdate(w).timeSinceXp == w.timeSinceXp
    decreases |w.jobs|
  {
    if w.jobs != [] {
      JobKeepsInv(w);
      Logged(w.log, Finished(w.jobs[0]));
      PreUpdateKeepsInv(RunJob(w));
    }
  }

  lemma AdvanceKeepsInv(w: World, elapsed: nat)
    requires Inv(w)
    ensures Inv(Advance(w, elapsed))
  {
    match w.phase
    case Uninit => SpawnKeeps(w.(phase := Initializing), Init);
    case Fighting =>
      Logged(w.log, Fought(elapsed));
      Logged(w.log + [Fought(elapsed)], Spawned(EarnXp));
    case _ =>
  }

  lemma FrameKeepsInv(w: World, f: Frame)
    requires Inv(w)
    ensures Inv(Handled(w, f)) && Inv(PreUpdate(Handled(w, f))) && Inv(Advance(PreUpdate(Handled(w, f)), f.elapsed))
  {
    if f.input.Some? { InputKeepsInv(w, f.input.value); }
    PreUpdateKeepsInv(Handled(w, f));
    AdvanceKeepsInv(PreUpdate(Handled(w, f)), f.elapsed);
  }

  lemma {:induction false} PlayKeepsInv(w: World, frames: seq<Frame>)
    requires Inv(w)
    ensures Inv(Play(w, frames))
    decreases |frames|
  {
    if frames != [] && !Quits(frames[0]) {
      FrameKeepsInv(w, frames[0]);
      PlayKeepsInv(Advance(PreUpdate(Handled(w, frames[0])), frames[0].elapsed), frames[1..]);
    }
  }

  /** After any play and the PreUpdate of any further frame: all jobs spawned so far are finished,
      each once and in order; the experience is 100 for each EarnXp since the last Reset; and the
      time fought since the last "fight" is what is left plus a second for each EarnXp spawned. */
  lemma GameConserves(frames: seq<Frame>, f: Frame)
    ensures var w := PreUpdate(Handled(Play(NewWorld(), frames), f));
      && (w.player.level - 1) * 1000 + w.player.xp == 100 * EarnedSinceReset(w.log) && 0 <= w.player.xp < 1000
      && w.timeSinceXp + SECOND * SpawnedSinceFight(w.log) == FoughtSinceFight(w.log)
      && w.jobs == [] && FinishedJobs(w.log) == SpawnedJobs(w.log)
  {
    PlayKeepsInv(NewWorld(), frames);
    FrameKeepsInv(Play(NewWorld(), frames), f);
    PreUpdateKeepsInv(Handled(Play(NewWorld(), frames), f));
  }

  // ---- a second is paid at most once a frame ----

  lemma {:induction false} PlayKeepsUp(w: World, frames: seq<Frame>)
    requires Inv(w) && w.timeSinceXp < SECOND && forall f | f in frames :: f.elapsed <= SECOND
    ensures Play(w, frames).timeSinceXp < SECOND
    decreases |frames|
  {
    if frames != [] && !Quits(frames[0]) {
      FrameKeepsInv(w, frames[0]);
      PreUpdateKeepsInv(Handled(w, frames[0]));
      PlayKeepsUp(Advance(PreUpdate(Handled(w, frames[0])), frames[0].elapsed), frames[1..]);
    }
  }

  /** While no frame takes longer than a second, the EarnXp spawned are the whole seconds fought. */
  lemma SpawnsKeepUp(frames: seq<Frame>)
    requires forall f | f in frames :: f.elapsed <= SECOND
    ensures var w := Play(NewWorld(), frames); SpawnedSinceFight(w.log) == FoughtSinceFight(w.log) / SECOND
  {
    PlayKeepsInv(NewWorld(), frames);
    PlayKeepsUp(NewWorld(), frames);
  }

  /** A slow frame is paid in full only by the frames after it. */
  lemma SlowFrameLags(w: World, elapsed: nat)
    requires Inv(w) && w.phase == Fighting && w.timeSinceXp < SECOND
    ensures var t := Advance(w, elapsed);
      SpawnedSinceFight(t.log) == FoughtSinceFight(t.log) / SECOND <==> w.timeSinceXp + elapsed < 2 * SECOND
  {
    AdvanceKeepsInv(w, elapsed);
  }

  // ---- what the frames alone say ----

  /** The frames up to "quit". */
  function Played(frames: seq<Frame>): seq<Frame> {
    if frames == [] || frames[0].input == Some("quit") then [] else [frames[0]] + Played(frames[1..])
  }

  function Before(frames: seq<Frame>): seq<Frame>
    requires frames != []
  {
    frames[..|frames| - 1]
  }

  function Last(frames: seq<Frame>): Frame
    requires frames != []
  {
    frames[|frames| - 1]
  }

  /** The character's phase after these frames. The first frame spawns Init, the second runs it; from the third
      on the inputs count. */
  function PhaseAfter(frames: seq<Frame>): Phase {
    match |frames|
    case 0 => Uninit
    case 1 => Initializing
    case 2 => Idle
    case _ =>
      var phase := PhaseAfter(Before(frames));
      if phase == Idle && Last(frames).input == Some("fight") then Fighting
      else if phase == Fighting && Last(frames).input == Some("rest") then Idle
      else phase
  }

  /** A "fight" that is heard. */
  predicate Begins(frames: seq<Frame>)
    requires frames != []
  {
    PhaseAfter(Before(frames)) == Idle && PhaseAfter(frames) == Fighting
  }

  /** A "reincarnate" that is heard. */
  predicate Renews(frames: seq<Frame>)
    requires frames != []
  {
    PhaseAfter(Before(frames)) == Idle && Last(frames).input == Some("reincarnate")
  }

  /** How long the frames of a fight took: of the one under way, or of the latest. */
  function Bout(frames: seq<Frame>): seq<nat>
    decreases |frames|, 1
  {
    if frames == [] then []
    else BoutBefore(frames) + if PhaseAfter(frames) == Fighting then [Last(frames).elapsed] else []
  }

  /** That fight before its last frame. */
  function BoutBefore(frames: seq<Frame>): seq<nat>
    requires frames != []
    decreases |frames|, 0
  {
    if Begins(frames) then [] else Bout(Before(frames))
  }

  function Sum(times: seq<nat>): nat {
    if times == [] then 0 else Sum(times[..|times| - 1]) + times[|times| - 1]
  }

  /** The seconds of a fight that are paid: all that are over, but one more a frame at most. */
  function Paid(times: seq<nat>): nat {
    if times == [] then 0
    else
      var before, over := Paid(times[..|times| - 1]), Sum(times) / 1_000_000_000;
      if over > before then before + 1 else before
  }

  /** The jobs that the input of the last frame spawns. */
  function AskedFor(frames: seq<Frame>): seq<Job>
    requires frames != []
  {
    if Renews(frames) then [Reincarnate] else []
  }

  /** The jobs that the update of the last frame spawns. */
  function ComesUp(frames: seq<Frame>): seq<Job>
    requires frames != []
  {
    if |frames| == 1 then [Init]
    else if PhaseAfter(frames) == Fighting && Paid(Bout(frames)) > Paid(BoutBefore(frames)) then [EarnXp]
    else []
  }

  function JobsOf(frames: seq<Frame>): seq<Job> {
    if frames == [] then [] else JobsOf(Before(frames)) + AskedFor(frames) + ComesUp(frames)
  }

  /** EarnXp since the last Reincarnate. */
  function EarnedIn(jobs: seq<Job>): nat {
    if jobs == [] then 0
    else
      match jobs[|jobs| - 1]
      case Reincarnate => 0
      case EarnXp => EarnedIn(jobs[..|jobs| - 1]) + 1
      case Init => EarnedIn(jobs[..|jobs| - 1])
  }

  lemma PaidLast(times: seq<nat>, time: nat)
    ensures Sum(times + [time]) == Sum(times) + time
    ensures Paid(times + [time]) ==
      Paid(times) + if Sum(times) + time >= 1_000_000_000 * (Paid(times) + 1) then 1 else 0
  {
    assert (times + [time])[..|times|] == times;
  }

  lemma {:induction false} EarnedFromJobs(log: seq<Entry>)
    ensures EarnedSinceReset(log) == EarnedIn(FinishedJobs(log))
  {
    if log != [] {
      var n := |log| - 1;
      EarnedFromJobs(log[..n]);
      if log[n].Finished? { assert FinishedJobs(log)[..|FinishedJobs(log)| - 1] == FinishedJobs(log[..n]); }
    }
  }

  /** The world after these frames, as far as they alone decide it. */
  ghost predicate Follows(w: World, past: seq<Frame>) {
    && w.phase == PhaseAfter(past) && SpawnedJobs(w.log) == JobsOf(past)
    && w.jobs == (if past == [] then [] else ComesUp(past))
    && w.timeSinceXp + 1_000_000_000 * Paid(Bout(past)) == Sum(Bout(past))
  }

  /** The input does what it asks for, and nothing where it is not heard. */
  lemma InputFollows(w: World, past: seq<Frame>, f: Frame)
    requires w.phase == PhaseAfter(past) && !Quits(f)
    ensures var u, now := Handled(w, f), past + [f];
      && u.phase == (if |past| <= 1 then PhaseAfter(past) else PhaseAfter(now))
      && u.jobs == w.jobs + AskedFor(now) && SpawnedJobs(u.log) == SpawnedJobs(w.log) + AskedFor(now)
      && u.timeSinceXp == if Begins(now) then 0 else w.timeSinceXp
  {
    hide SpawnedJobs, PhaseAfter, ProcessInput, Quits;
    assert Before(past + [f]) == past && Last(past + [f]) == f;
    PhaseNext(past, f);
    WordsDiffer();
    assert w.jobs + [] == w.jobs && SpawnedJobs(w.log) + [] == SpawnedJobs(w.log);
    if f.input.Some? { InputDoes(w, f.input.value); }
  }

  lemma WordsDiffer()
    ensures "fight" != "rest" && "fight" != "reincarnate" && "rest" != "reincarnate"
  {
    assert |"fight"| == 5 && |"rest"| == 4 && |"reincarnate"| == 11;
  }

  lemma InputDoes(w: World, input: string)
    ensures var u := ProcessInput(w, input);
      var asked := if w.phase == Idle && input == "reincarnate" then [Reincarnate] else [];
      && u.phase == (if w.phase == Idle && input == "fight" then Fighting
                     else if w.phase == Fighting && input == "rest" then Idle else w.phase)
      && u.jobs == w.jobs + asked && SpawnedJobs(u.log) == SpawnedJobs(w.log) + asked
      && u.timeSinceXp == if w.phase == Idle && input == "fight" then 0 else w.timeSinceXp
  {
    hide SpawnedJobs;
    WordsDiffer();
    Logged(w.log, FightBegan);
    Logged(w.log, Spawned(Reincarnate));
    assert w.jobs + [] == w.jobs && SpawnedJobs(w.log) + [] == SpawnedJobs(w.log);
  }

  lemma PhaseNext(past: seq<Frame>, f: Frame)
    ensures var phase, next := PhaseAfter(past), PhaseAfter(past + [f]);
      if past == [] then phase == Uninit && next == Initializing
      else if |past| == 1 then phase == Initializing && next == Idle
      else
        next == if phase == Idle && f.input == Some("fight") then Fighting
                else if phase == Fighting && f.input == Some("rest") then Idle else phase
  {
    assert Before(past + [f]) == past;
  }

  lemma NotUninit(frames: seq<Frame>)
    requires |frames| > 1
    ensures PhaseAfter(frames) == Idle || PhaseAfter(frames) == Fighting
  {
  }

  lemma NoneIsPaid()
    ensures Paid([]) == 0 && Sum([]) == 0
  {
  }

  lemma {:induction false} JobsKeepPhase(w: World)
    ensures PreUpdate(w).phase == if Init in w.jobs then Idle else w.phase
    ensures PreUpdate(w).timeSinceXp == w.timeSinceXp && SpawnedJobs(PreUpdate(w).log) == SpawnedJobs(w.log)
    ensures PreUpdate(w).jobs == []
    decreases |w.jobs|
  {
    if w.jobs != [] {
      Logged(w.log, Finished(w.jobs[0]));
      JobsKeepPhase(RunJob(w));
      assert Init in w.jobs <==> w.jobs[0] == Init || Init in w.jobs[1..];
    }
  }

  /** The world between the jobs of a frame and its update. */
  ghost predicate JobsDone(w: World, now: seq<Frame>)
    requires now != []
  {
    && w.phase == (if |now| == 1 then Uninit else PhaseAfter(now)) && w.jobs == []
    && SpawnedJobs(w.log) == JobsOf(Before(now)) + AskedFor(now)
    && w.timeSinceXp + 1_000_000_000 * Paid(BoutBefore(now)) == Sum(BoutBefore(now))
  }

  lemma FirstUpdate(w: World, now: seq<Frame>)
    requires |now| == 1 && JobsDone(w, now)
    ensures Follows(Advance(w, Last(now).elapsed), now)
  {
    Logged(w.log, Spawned(Init));
    assert Before(now) == [] && Bout(Before(now)) == [];
  }

  lemma FightUpdate(w: World, now: seq<Frame>)
    requires |now| > 1 && JobsDone(w, now) && w.phase == Fighting
    ensures Follows(Advance(w, Last(now).elapsed), now)
  {
    hide PhaseAfter, Paid, Sum, SpawnedJobs, AskedFor, Begins;
    var elapsed := Last(now).elapsed;
    Logged(w.log, Fought(elapsed));
    Logged(w.log + [Fought(elapsed)], Spawned(EarnXp));
    PaidLast(BoutBefore(now), elapsed);
  }

  lemma IdleUpdate(w: World, now: seq<Frame>)
    requires |now| > 1 && JobsDone(w, now) && w.phase != Fighting
    ensures Follows(Advance(w, Last(now).elapsed), now)
  {
    hide Paid, Sum, SpawnedJobs, AskedFor, Begins;
    NotUninit(now);
    assert BoutBefore(now) + [] == BoutBefore(now);
  }

  lemma FrameFollows(w: World, past: seq<Frame>, f: Frame)
    requires Follows(w, past) && !Quits(f)
    ensures Follows(Advance(PreUpdate(Handled(w, f)), f.elapsed), past + [f])
  {
    hide Advance;
    var now := past + [f];
    JobsFollow(w, past, f);
    var u := PreUpdate(Handled(w, f));
    assert Last(now) == f;
    if |now| == 1 {
      FirstUpdate(u, now);
    } else if u.phase == Fighting {
      FightUpdate(u, now);
    } else {
      IdleUpdate(u, now);
    }
  }

  lemma JobsFollow(w: World, past: seq<Frame>, f: Frame)
    requires Follows(w, past) && !Quits(f)
    ensures JobsDone(PreUpdate(Handled(w, f)), past + [f])
  {
    hide Handled, PreUpdate, Paid, Sum, SpawnedJobs;
    InputFollows(w, past, f);
    JobsKeepPhase(Handled(w, f));
    NoneIsPaid();
    assert Before(past + [f]) == past;
    if |past| == 1 { assert Init in Handled(w, f).jobs; }
  }

  lemma {:induction false} PlayFollows(w: World, past: seq<Frame>, frames: seq<Frame>)
    requires Follows(w, past)
    ensures Follows(Play(w, frames), past + Played(frames))
    decreases |frames|
  {
    hide Follows, Advance, PreUpdate, Handled;
    if frames == [] || Quits(frames[0]) {
      assert past + [] == past;
    } else {
      FrameFollows(w, past, frames[0]);
      PlayFollows(Advance(PreUpdate(Handled(w, frames[0])), frames[0].elapsed), past + [frames[0]], frames[1..]);
      assert past + [frames[0]] + Played(frames[1..]) == past + Played(frames);
    }
  }

  lemma NewFollows()
    ensures Follows(NewWorld(), [])
  {
  }

  lemma NewIsGood()
    ensures Inv(NewWorld())
  {
  }

  lemma PlayersDo(frames: seq<Frame>)
    ensures var w := Play(NewWorld(), frames);
      && Total(w.player) == 100 * EarnedIn(FinishedJobs(w.log)) && 0 <= w.player.xp < 1000 && JobsOk(w)
  {
    hide Play, EarnedSinceReset, SpawnedJobs, FinishedJobs, EarnedIn;
    NewIsGood();
    PlayKeepsInv(NewWorld(), frames);
    EarnedFromJobs(Play(NewWorld(), frames).log);
  }

  /** From the frames alone: the character's phase; the jobs spawned, Init once in the first frame, one Reincarnate
      for each that is heard, one EarnXp for each second of a fight, at most one a frame; of these, all but those
      of the last update are finished, in order; and the experience they add up to. */
  lemma GameFollowsFrames(frames: seq<Frame>)
    ensures var w, played := Play(NewWorld(), frames), Played(frames);
      && w.phase == PhaseAfter(played) && SpawnedJobs(w.log) == JobsOf(played)
      && w.jobs == (if played == [] then [] else ComesUp(played)) && FinishedJobs(w.log) + w.jobs == JobsOf(played)
      && (w.player.level - 1) * 1000 + w.player.xp == 100 * EarnedIn(FinishedJobs(w.log)) && 0 <= w.player.xp < 1000
      && w.timeSinceXp + 1_000_000_000 * Paid(Bout(played)) == Sum(Bout(played))
  {
    hide Play, Played, PhaseAfter, ComesUp, SpawnedJobs, FinishedJobs;
    NewFollows();
    PlayFollows(NewWorld(), [], frames);
    assert [] + Played(frames) == Played(frames);
    PlayersDo(frames);
  }

  // ---- the entities ----

  class Character {
    const service: CharacterServiceMemory
    var phase: Phase
    var timeSinceXp: nat
    var jobs: seq<Job>  // of the character's executor
    var log: seq<Entry>

    ghost function Now(): World
      reads this, service
    {
      World(phase, timeSinceXp, jobs, service.player, log)
    }

    constructor (service: CharacterServiceMemory)
      requires service.player == BLANK
      ensures this.service == service && Now() == NewWorld()
    {
      this.service := service;
      phase, timeSinceXp, jobs, log := Uninit, 0, [], [];
    }

    method Spawn(job: Job)
      modifies this`jobs, this`log
      ensures Now() == SpawnJob(old(Now()), job)
    {
      jobs := jobs + [job];
      log := log + [Spawned(job)];
    }

    method OnInput(input: string)
      modifies this
      ensures Now() == ProcessInput(old(Now()), input)
    {
      if phase == Idle && input == "fight" {
        phase := Fighting;
        timeSinceXp := 0;
        log := log + [FightBegan];
      } else if phase == Fighting && input == "rest" {
        phase := Idle;
      } else if phase == Idle && input == "reincarnate" {
        Spawn(Reincarnate);
      }
    }

    method Gain()
      modifies service
      ensures service.player == Earned(old(service.player))
    {
      var newXp := service.GiveXp(100);
      if newXp >= 1000 {
        var newLevel := service.LevelUp();
      }
    }

    method RunJobs()
      modifies this, service
      ensures Now() == PreUpdate(old(Now()))
    {
      while jobs != []
        invariant PreUpdate(Now()) == PreUpdate(old(Now()))
        decreases |jobs|
      {
        var job := jobs[0];
        jobs := jobs[1..];
        match job {
          case Init =>
            var player := service.GetPlayer();
            phase := Idle;
          case EarnXp =>
            Gain();
          case Reincarnate =>
            service.Reset();
        }
        log := log + [Finished(job)];
      }
    }

    method Update(elapsed: nat)
      modifies this
      ensures Now() == Advance(old(Now()), elapsed)
    {
      match phase
      case Uninit =>
        phase := Initializing;
        Spawn(Init);
      case Fighting =>
        timeSinceXp := timeSinceXp + elapsed;
        log := log + [Fought(elapsed)];
        if timeSinceXp >= SECOND {
          timeSinceXp := timeSinceXp - SECOND;
          Spawn(EarnXp);
        }
      case _ =>
    }
  }

  class Loop {
    const character: Character
    var done: bool
    var lastTick: nat

    constructor (character: Character, now: nat)
      ensures this.character == character && !done && lastTick == now
    {
      this.character := character;
      done, lastTick := false, now;
    }

    /** One frame; `now` is a steady clock. */
    method Update(input: Option<string>, now: nat)
      requires lastTick <= now
      modifies this, character, character.service
      ensures done == (old(done) || input == Some("quit"))
      ensures var f := Frame(input, now - old(lastTick));
        if Quits(f) then character.Now() == old(character.Now()) && lastTick == old(lastTick)
        else character.Now() == Advance(PreUpdate(Handled(old(character.Now()), f)), f.elapsed) && lastTick == now
    {
      if input.Some? {
        if input.value == "quit" {
          done := true;
          return;
        }
        character.OnInput(input.value);
      }
      character.RunJobs();
      character.Update(now - lastTick);
      lastTick := now;
    }
  }
}
