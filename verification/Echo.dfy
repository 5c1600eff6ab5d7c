/** The bidirectional echo handler: a reader and a writer coroutine that share an alarm, a message and
    a status. `Echo` is what both share, `Apply` one completion and everything it lets run. */
module Echo {
  import opened Programs

  type uint32 = n: int | 0 <= n < 0x1_0000_0000

  datatype Command = Message(text: string, delay: uint32) | Start | Stop

  /** grpc::Status of the handler: fine, or why a command was turned down. */
  datatype Status = Fine | RunningAlready | StartedAlready | NoValidMessage | NotRunning

  datatype Reader =
    | Reading
    | Joining(atEnd: bool)    // co_await std::move(subroutine), in a Stop or after the loop
    | Finishing
    | Ended

  datatype Writer = NoWriter | Waiting | Writing | Done

  /** grpc::Alarm: unset, running, expired with its completion on the way, or cancelled likewise. */
  datatype Alarm = Unset | Armed | Expired | Cancelled

  /** Completions still to come, by the operation that asked for them. */
  datatype Outstanding = Outstanding(reading: nat, writing: nat, timing: nat, finishing: nat)

  /** What the handler does that others see. */
  datatype Action = Handled(command: Command) | AskedRead | AskedFinish | Wrote(text: string) | SetAlarm(delay: uint32)

  datatype State = State(
    status: Status,
    message: string,
    delay: uint32,
    subroutine: bool,
    reader: Reader,
    writer: Writer,
    alarm: Alarm,
    pending: Outstanding,
    log: seq<Action>)

  datatype Event =
    | ReadDone(ok: bool, command: Command)
    | AlarmExpires
    | AlarmDone
    | WriteDone(ok: bool)
    | FinishDone(ok: bool)

  // ---- the writer ----

  /** Head of the writer's loop: set the alarm and wait for it. */
  function Wait(s: State): State {
    s.(writer := Waiting, alarm := Armed,
       pending := s.pending.(timing := s.pending.timing + 1), log := s.log + [SetAlarm(s.delay)])
  }

  function Write(s: State): State {
    s.(writer := Writing, pending := s.pending.(writing := s.pending.writing + 1), log := s.log + [Wrote(s.message)])
  }

  /** The writer's body returns; whoever awaits it goes on. */
  function WriterEnds(s: State): State {
    match s.reader
    case Joining(atEnd) => if atEnd then Finish(Joined(s)) else Loop(Joined(s))
    case _ => s.(writer := Done)
  }

  // ---- the reader ----

  function Joined(s: State): State {
    s.(subroutine := false, writer := NoWriter)
  }

  function Finish(s: State): State {
    s.(reader := Finishing, pending := s.pending.(finishing := s.pending.finishing + 1), log := s.log + [AskedFinish])
  }

  /** alarm.Cancel(): no effect unless the alarm is still running. */
  function Cancel(s: State): State {
    if s.alarm == Armed then s.(alarm := Cancelled) else s
  }

  /** Head of the reader's loop. */
  function Loop(s: State): State {
    if s.status == Fine then
      s.(reader := Reading, pending := s.pending.(reading := s.pending.reading + 1), log := s.log + [AskedRead])
    else AfterLoop(s)
  }

  function AfterLoop(s: State): State {
    if !s.subroutine then Finish(s)
    else if s.writer == Done then Finish(Joined(Cancel(s)))
    else Cancel(s).(reader := Joining(true))
  }

  function Handle(s: State, command: Command): State {
    match command
    case Message(text, delay) =>
      if s.subroutine then Loop(s.(status := RunningAlready)) else Loop(s.(message := text, delay := delay))
    case Start =>
      if s.subroutine then Loop(s.(status := StartedAlready))
      else if s.message == "" || s.delay == 0 then Loop(s.(status := NoValidMessage))
      else Loop(Wait(s.(subroutine := true)))
    case Stop =>
      if !s.subroutine then Loop(s.(status := NotRunning))
      else if s.writer == Done then Loop(Joined(Cancel(s)))
      else Cancel(s).(reader := Joining(false))
  }

  // ---- runs ----

  function Init(): State {
    Loop(State(Fine, "", 0, false, Reading, NoWriter, Unset, Outstanding(0, 0, 0, 0), []))
  }

  predicate Enabled(s: State, e: Event) {
    match e
    case ReadDone(_, _) => s.pending.reading > 0
    case AlarmExpires => s.alarm == Armed
    case AlarmDone => s.pending.timing > 0 && (s.alarm == Expired || s.alarm == Cancelled)
    case WriteDone(_) => s.pending.writing > 0
    case FinishDone(_) => s.pending.finishing > 0
  }

  function Apply(s: State, e: Event): State
    requires Enabled(s, e)
  {
    match e
    case ReadDone(ok, command) =>
      var u := s.(pending := s.pending.(reading := s.pending.reading - 1));
      if ok then Handle(u.(log := u.log + [Handled(command)]), command) else AfterLoop(u)
    case AlarmExpires => s.(alarm := Expired)
    case AlarmDone =>
      var u := s.(pending := s.pending.(timing := s.pending.timing - 1), alarm := Unset);
      if s.alarm == Expired then Write(u) else WriterEnds(u)
    case WriteDone(ok) =>
      var u := s.(pending := s.pending.(writing := s.pending.writing - 1));
      if ok then Wait(u) else WriterEnds(u)
    case FinishDone(_) => s.(pending := s.pending.(finishing := s.pending.finishing - 1), reader := Ended)
  }

  ghost predicate IsRun(s: State, events: seq<Event>, t: State)
    decreases |events|
  {
    if events == [] then s == t else Enabled(s, events[0]) && IsRun(Apply(s, events[0]), events[1..], t)
  }

  // ---- stream discipline ----

  function Count(b: bool): nat {
    if b then 1 else 0
  }

  /** Each coroutine has exactly the operation outstanding that it is parked on; the alarm runs only
      for a waiting writer; the reader outlives the writer; a rejected command ends the reading. */
  predicate Disciplined(s: State) {
    && s.pending == Outstanding(Count(s.reader == Reading), Count(s.writer == Writing), Count(s.writer == Waiting),
                                Count(s.reader == Finishing))
    && (s.alarm != Unset <==> s.writer == Waiting)
    && (s.alarm == Cancelled ==> s.reader.Joining?)
    && (s.subroutine <==> s.writer != NoWriter)
    && (s.reader.Joining? ==> s.writer == Waiting || s.writer == Writing)
    && (s.reader == Finishing || s.reader == Ended ==> s.writer == NoWriter)
    && (s.reader == Reading || s.reader == Joining(false) ==> s.status == Fine)
    && (s.subroutine ==> s.message != "" && s.delay > 0)
  }

  /** The same while the reader runs: it is parked on nothing. */
  predicate ReaderRuns(s: State) {
    && s.pending == Outstanding(0, Count(s.writer == Writing), Count(s.writer == Waiting), 0)
    && (s.alarm != Unset <==> s.writer == Waiting) && s.alarm != Cancelled
    && (s.subroutine <==> s.writer != NoWriter)
    && (s.subroutine ==> s.message != "" && s.delay > 0)
  }

  lemma LoopParks(s: State)
    requires ReaderRuns(s)
    ensures Disciplined(Loop(s)) && Disciplined(AfterLoop(s))
  {
  }

  lemma HandleParks(s: State, command: Command)
    requires ReaderRuns(s) && s.status == Fine
    ensures Disciplined(Handle(s, command))
  {
    match command
    case Message(text, delay) =>
      if s.subroutine { LoopParks(s.(status := RunningAlready)); }
      else { LoopParks(s.(message := text, delay := delay)); }
    case Start =>
      if s.subroutine { LoopParks(s.(status := StartedAlready)); }
      else if s.message == "" || s.delay == 0 { LoopParks(s.(status := NoValidMessage)); }
      else {
        LoopParks(Wait(s.(subroutine := true)));
      }
    case Stop =>
      if !s.subroutine { LoopParks(s.(status := NotRunning)); }
      else if s.writer == Done { LoopParks(Joined(Cancel(s))); }
  }

  lemma ReadParks(s: State, ok: bool, command: Command)
    requires Disciplined(s) && s.reader == Reading
    ensures Disciplined(Apply(s, ReadDone(ok, command)))
  {
    var u := s.(pending := s.pending.(reading := s.pending.reading - 1));
    if ok { HandleParks(u.(log := u.log + [Handled(command)]), command); } else { LoopParks(u); }
  }

  /** The writer's end, for a state in which it is parked on nothing any more. */
  lemma WriterEndsParks(s: State, u: State)
    requires Disciplined(s) && (s.writer == Waiting || s.writer == Writing)
    requires var pending := Outstanding(Count(s.reader == Reading), 0, 0, Count(s.reader == Finishing));
      u == s.(pending := pending, alarm := Unset)
    ensures Disciplined(WriterEnds(u))
  {
    if s.reader.Joining? { LoopParks(Joined(u)); }
  }

  lemma AlarmParks(s: State)
    requires Disciplined(s) && s.writer == Waiting && s.alarm != Armed
    ensures Disciplined(Apply(s, AlarmDone))
  {
    var u := s.(pending := s.pending.(timing := s.pending.timing - 1), alarm := Unset);
    if s.alarm == Cancelled { WriterEndsParks(s, u); }
  }

  lemma WriteParks(s: State, ok: bool)
    requires Disciplined(s) && s.writer == Writing
    ensures Disciplined(Apply(s, WriteDone(ok)))
  {
    var u := s.(pending := s.pending.(writing := s.pending.writing - 1));
    if !ok { WriterEndsParks(s, u); }
  }

  lemma EventKeepsDiscipline(s: State, e: Event)
    requires Disciplined(s) && Enabled(s, e)
    ensures Disciplined(Apply(s, e))
  {
    match e
    case ReadDone(ok, command) => ReadParks(s, ok, command);
    case AlarmExpires =>
    case AlarmDone => AlarmParks(s);
    case WriteDone(ok) => WriteParks(s, ok);
    case FinishDone(_) =>
  }

  // ---- what the commands alone say ----

  /** The service as its commands describe it, without any writer, alarm or stream. */
  datatype View = View(status: Status, running: bool, message: string, delay: uint32)

  function Accept(v: View, command: Command): View {
    if v.status != Fine then v else
    match command
    case Message(text, delay) => if v.running then v.(status := RunningAlready) else v.(message := text, delay := delay)
    case Start =>
      if v.running then v.(status := StartedAlready)
      else if v.message == "" || v.delay == 0 then v.(status := NoValidMessage)
      else v.(running := true)
    case Stop => if v.running then v.(running := false) else v.(status := NotRunning)
  }

  function Fold(log: seq<Action>): View {
    if log == [] then View(Fine, false, "", 0)
    else
      var v, last := Fold(log[..|log| - 1]), log[|log| - 1];
      if last.Handled? then Accept(v, last.command) else v
  }

  lemma FoldLast(log: seq<Action>, a: Action)
    ensures Fold(log + [a]) == if a.Handled? then Accept(Fold(log), a.command) else Fold(log)
  {
    assert (log + [a])[..|log|] == log;
  }

  /** Nothing is read once a command was rejected; what is written is the message of the latest
      accepted Message, after its delay, neither of which is empty. */
  predicate EntryOk(before: View, a: Action) {
    match a
    case Handled(_) => before.status == Fine
    case AskedRead => before.status == Fine
    case AskedFinish => true
    case Wrote(text) => text == before.message && text != "" && before.delay > 0
    case SetAlarm(delay) => delay == before.delay && delay > 0 && before.message != ""
  }

  ghost predicate LogOk(log: seq<Action>) {
    forall k {:trigger log[k]} | 0 <= k < |log| :: EntryOk(Fold(log[..k]), log[k])
  }

  /** The shared variables are what the commands say. */
  predicate Agrees(s: State) {
    var v := Fold(s.log);
    && s.status == v.status && s.message == v.message && s.delay == v.delay
    && (s.reader == Reading ==> s.subroutine == v.running)
    && (s.reader == Joining(false) ==> !v.running)
    && (s.reader == Finishing || s.reader == Ended ==> !s.subroutine)
  }

  ghost predicate Inv(s: State) {
    Disciplined(s) && Agrees(s) && LogOk(s.log)
  }

  lemma LogGrows(log: seq<Action>, a: Action)
    requires LogOk(log) && EntryOk(Fold(log), a)
    ensures LogOk(log + [a])
  {
    var longer := log + [a];
    forall k | 0 <= k < |longer| ensures EntryOk(Fold(longer[..k]), longer[k]) {
      if k < |log| {
        assert longer[..k] == log[..k] && longer[k] == log[k];
      } else {
        assert longer[..k] == log;
      }
    }
  }

  /** Going round the reader's loop, or leaving it, from a state that agrees. */
  lemma LoopAgrees(s: State)
    requires LogOk(s.log) && s.status == Fold(s.log).status
    requires s.message == Fold(s.log).message && s.delay == Fold(s.log).delay
    requires s.status == Fine ==> s.subroutine == Fold(s.log).running
    ensures Agrees(Loop(s)) && LogOk(Loop(s).log)
  {
    FoldLast(s.log, AskedRead);
    FoldLast(s.log, AskedFinish);
    LogGrows(s.log, AskedFinish);
    if s.status == Fine { LogGrows(s.log, AskedRead); }
  }

  lemma HandleAgrees(s: State, command: Command)
    requires Inv(s) && s.reader == Reading
    ensures var u := s.(pending := s.pending.(reading := s.pending.reading - 1), log := s.log + [Handled(command)]);
      Agrees(Handle(u, command)) && LogOk(Handle(u, command).log)
  {
    var log := s.log + [Handled(command)];
    var u := s.(pending := s.pending.(reading := s.pending.reading - 1), log := log);
    FoldLast(s.log, Handled(command));
    LogGrows(s.log, Handled(command));
    match command
    case Message(text, delay) =>
      if s.subroutine { LoopAgrees(u.(status := RunningAlready)); }
      else { LoopAgrees(u.(message := text, delay := delay)); }
    case Start =>
      if s.subroutine { LoopAgrees(u.(status := StartedAlready)); }
      else if s.message == "" || s.delay == 0 { LoopAgrees(u.(status := NoValidMessage)); }
      else {
        FoldLast(log, SetAlarm(s.delay));
        LogGrows(log, SetAlarm(s.delay));
        LoopAgrees(Wait(u.(subroutine := true)));
      }
    case Stop =>
      if !s.subroutine { LoopAgrees(u.(status := NotRunning)); }
      else if s.writer == Done { LoopAgrees(Joined(Cancel(u))); }
  }

  /** The writer's end lets a joining reader go on; nothing else changes for the reader. */
  lemma WriterEndAgrees(s: State, u: State)
    requires Inv(s) && (s.writer == Waiting || s.writer == Writing)
    requires u == s.(pending := u.pending, alarm := u.alarm)
    ensures Agrees(WriterEnds(u)) && LogOk(WriterEnds(u).log)
  {
    FoldLast(s.log, AskedFinish);
    LogGrows(s.log, AskedFinish);
    if s.reader == Joining(false) { LoopAgrees(Joined(u)); }
  }

  lemma ReadAgrees(s: State, ok: bool, command: Command)
    requires Inv(s) && s.reader == Reading
    ensures Agrees(Apply(s, ReadDone(ok, command))) && LogOk(Apply(s, ReadDone(ok, command)).log)
  {
    if ok {
      HandleAgrees(s, command);
    } else {
      FoldLast(s.log, AskedFinish);
      LogGrows(s.log, AskedFinish);
    }
  }

  lemma AlarmAgrees(s: State)
    requires Inv(s) && s.writer == Waiting && s.alarm != Armed
    ensures Agrees(Apply(s, AlarmDone)) && LogOk(Apply(s, AlarmDone).log)
  {
    if s.alarm == Expired {
      FoldLast(s.log, Wrote(s.message));
      LogGrows(s.log, Wrote(s.message));
    } else {
      WriterEndAgrees(s, s.(pending := s.pending.(timing := s.pending.timing - 1), alarm := Unset));
    }
  }

  lemma WriteAgrees(s: State, ok: bool)
    requires Inv(s) && s.writer == Writing
    ensures Agrees(Apply(s, WriteDone(ok))) && LogOk(Apply(s, WriteDone(ok)).log)
  {
    if ok {
      FoldLast(s.log, SetAlarm(s.delay));
      LogGrows(s.log, SetAlarm(s.delay));
    } else {
      WriterEndAgrees(s, s.(pending := s.pending.(writing := s.pending.writing - 1)));
    }
  }

  /** Every event keeps the discipline and the agreement with the commands. */
  lemma EventKeepsInv(s: State, e: Event)
    requires Inv(s) && Enabled(s, e)
    ensures Inv(Apply(s, e))
  {
    EventKeepsDiscipline(s, e);
    match e
    case ReadDone(ok, command) => ReadAgrees(s, ok, command);
    case AlarmExpires =>
    case AlarmDone => AlarmAgrees(s);
    case WriteDone(ok) => WriteAgrees(s, ok);
    case FinishDone(_) =>
  }

  lemma InitIsGood()
    ensures Inv(Init())
  {
    var s := State(Fine, "", 0, false, Reading, NoWriter, Unset, Outstanding(0, 0, 0, 0), []);
    LoopAgrees(s);
  }

  /** Over every run, across any number of Stop and Start rounds. */
  lemma {:induction false} RunKeepsInv(s: State, events: seq<Event>, t: State)
    requires Inv(s) && IsRun(s, events, t)
    ensures Inv(t)
    decreases |events|
  {
    if events != [] {
      EventKeepsInv(s, events[0]);
      RunKeepsInv(Apply(s, events[0]), events[1..], t);
    }
  }

  /** At most one operation of each kind is outstanding, Finish only alone, and a handler that has
      ended left neither a writer nor an operation behind. */
  lemma StreamDiscipline(events: seq<Event>, t: State)
    requires IsRun(Init(), events, t)
    ensures t.pending.reading <= 1 && t.pending.writing <= 1 && t.pending.timing <= 1
    ensures t.pending.finishing > 0 ==> t.pending == Outstanding(0, 0, 0, 1) && t.writer == NoWriter && t.alarm == Unset
    ensures t.reader == Ended ==> t.pending == Outstanding(0, 0, 0, 0) && t.writer == NoWriter && t.alarm == Unset
  {
    InitIsGood();
    RunKeepsInv(Init(), events, t);
  }

  // ---- the commands that arrived ----

  function CommandOf(e: Event): seq<Command> {
    if e.ReadDone? && e.ok then [e.command] else []
  }

  /** What the stream delivered. */
  function Commands(events: seq<Event>): seq<Command> {
    if events == [] then [] else CommandOf(events[0]) + Commands(events[1..])
  }

  /** What the handler took up. */
  function TakenUp(log: seq<Action>): seq<Command> {
    if log == [] then []
    else
      var last := log[|log| - 1];
      TakenUp(log[..|log| - 1]) + if last.Handled? then [last.command] else []
  }

  function AcceptAll(commands: seq<Command>): View {
    if commands == [] then View(Fine, false, "", 0)
    else Accept(AcceptAll(commands[..|commands| - 1]), commands[|commands| - 1])
  }

  lemma TakenUpLast(log: seq<Action>, a: Action)
    ensures TakenUp(log + [a]) == TakenUp(log) + if a.Handled? then [a.command] else []
  {
    assert (log + [a])[..|log|] == log;
  }

  lemma {:induction false} FoldIsAcceptAll(log: seq<Action>)
    ensures Fold(log) == AcceptAll(TakenUp(log))
  {
    if log != [] {
      var n := |log| - 1;
      FoldIsAcceptAll(log[..n]);
      if log[n].Handled? {
        assert TakenUp(log)[..|TakenUp(log)| - 1] == TakenUp(log[..n]);
      } else {
        assert TakenUp(log) == TakenUp(log[..n]);
      }
    }
  }

  /** Nothing but actions that are no command. */
  predicate Follows(log: seq<Action>, longer: seq<Action>) {
    log <= longer && forall k | |log| <= k < |longer| :: !longer[k].Handled?
  }

  lemma {:induction false} FollowsTakesNone(log: seq<Action>, longer: seq<Action>)
    requires Follows(log, longer)
    ensures TakenUp(longer) == TakenUp(log)
    decreases |longer|
  {
    if longer != log {
      FollowsTakesNone(log, longer[..|longer| - 1]);
    }
  }

  lemma LoopFollows(s: State)
    ensures Follows(s.log, Loop(s).log) && Follows(s.log, AfterLoop(s).log)
  {
  }

  lemma HandleFollows(s: State, command: Command)
    ensures Follows(s.log, Handle(s, command).log)
  {
    hide Loop;
    match command
    case Message(text, delay) =>
      LoopFollows(s.(status := RunningAlready));
      LoopFollows(s.(message := text, delay := delay));
    case Start =>
      LoopFollows(s.(status := StartedAlready));
      LoopFollows(s.(status := NoValidMessage));
      LoopFollows(Wait(s.(subroutine := true)));
    case Stop =>
      LoopFollows(s.(status := NotRunning));
      LoopFollows(Joined(Cancel(s)));
  }

  lemma WriterEndFollows(s: State)
    ensures Follows(s.log, WriterEnds(s).log)
  {
    hide Loop;
    LoopFollows(Joined(s));
  }

  lemma ReadFollows(s: State, ok: bool, command: Command)
    requires s.pending.reading > 0
    ensures Follows(s.log + if ok then [Handled(command)] else [], Apply(s, ReadDone(ok, command)).log)
  {
    hide Handle, AfterLoop, Follows;
    assert s.log + [] == s.log;
    var u := s.(pending := s.pending.(reading := s.pending.reading - 1));
    if ok { HandleFollows(u.(log := s.log + [Handled(command)]), command); } else { LoopFollows(u); }
  }

  lemma OthersFollow(s: State, e: Event)
    requires Enabled(s, e) && !e.ReadDone?
    ensures Follows(s.log, Apply(s, e).log)
  {
    hide WriterEnds;
    match e
    case AlarmDone =>
      WriterEndFollows(s.(pending := s.pending.(timing := s.pending.timing - 1), alarm := Unset));
    case WriteDone(ok) =>
      WriterEndFollows(s.(pending := s.pending.(writing := s.pending.writing - 1)));
    case _ =>
  }

  lemma EventTakesUp(s: State, e: Event)
    requires Enabled(s, e)
    ensures TakenUp(Apply(s, e).log) == TakenUp(s.log) + CommandOf(e)
  {
    hide Apply, Follows, TakenUp;
    if e.ReadDone? {
      ReadFollows(s, e.ok, e.command);
      FollowsTakesNone(s.log + if e.ok then [Handled(e.command)] else [], Apply(s, e).log);
      if e.ok { TakenUpLast(s.log, Handled(e.command)); } else { assert s.log + [] == s.log; }
    } else {
      OthersFollow(s, e);
      FollowsTakesNone(s.log, Apply(s, e).log);
    }
  }

  /** Every command that is delivered is taken up, once and in order. */
  lemma {:induction false} RunTakesUp(s: State, events: seq<Event>, t: State)
    requires IsRun(s, events, t)
    ensures TakenUp(t.log) == TakenUp(s.log) + Commands(events)
    decreases |events|
  {
    if events != [] {
      EventTakesUp(s, events[0]);
      RunTakesUp(Apply(s, events[0]), events[1..], t);
    }
  }

  /** Every action is one the commands taken up before it call for. */
  ghost predicate Answers(log: seq<Action>) {
    forall k {:trigger log[k]} | 0 <= k < |log| :: EntryOk(AcceptAll(TakenUp(log[..k])), log[k])
  }

  lemma LogAnswers(log: seq<Action>)
    requires LogOk(log)
    ensures Answers(log)
  {
    forall k | 0 <= k < |log| ensures EntryOk(AcceptAll(TakenUp(log[..k])), log[k]) {
      FoldIsAcceptAll(log[..k]);
    }
  }

  /** Reader and writer together do what the commands that arrived alone say: every one is taken up, once and
      in order, the shared variables are what they make of them, and each action is one they call for. */
  lemma AgreesWithCommands(events: seq<Event>, t: State)
    requires IsRun(Init(), events, t)
    ensures TakenUp(t.log) == Commands(events) && Answers(t.log)
    ensures var v := AcceptAll(Commands(events)); t.status == v.status && t.message == v.message && t.delay == v.delay
  {
    InitIsGood();
    RunKeepsInv(Init(), events, t);
    RunTakesUp(Init(), events, t);
    assert Init().log == [] + [AskedRead];
    TakenUpLast([], AskedRead);
    FoldIsAcceptAll(t.log);
    LogAnswers(t.log);
  }

  /** The message and the delay are frozen while a subroutine is in its variable. */
  lemma FrozenWhileRunning(s: State, e: Event)
    requires Inv(s) && Enabled(s, e) && s.subroutine
    ensures Apply(s, e).message == s.message && Apply(s, e).delay == s.delay
  {
  }

  /** The completion tells the writer to stop. */
  predicate ReportsFalse(s: State, e: Event) {
    (e == AlarmDone && s.alarm == Cancelled) || e == WriteDone(false)
  }

  // ---- how often each thing is done ----

  /** What a log holds of each kind of action. */
  datatype Tally = Tally(asked: nat, finishes: nat, alarms: nat, writes: nat)

  function Told(log: seq<Action>): Tally {
    if log == [] then Tally(0, 0, 0, 0)
    else
      var n, last := Told(log[..|log| - 1]), log[|log| - 1];
      match last
      case Handled(_) => n
      case AskedRead => n.(asked := n.asked + 1)
      case AskedFinish => n.(finishes := n.finishes + 1)
      case SetAlarm(_) => n.(alarms := n.alarms + 1)
      case Wrote(_) => n.(writes := n.writes + 1)
  }

  lemma ToldLast(log: seq<Action>, a: Action)
    ensures var n, m := Told(log), Told(log + [a]);
      && m.asked == n.asked + Count(a == AskedRead) && m.finishes == n.finishes + Count(a == AskedFinish)
      && m.alarms == n.alarms + Count(a.SetAlarm?) && m.writes == n.writes + Count(a.Wrote?)
  {
    assert (log + [a])[..|log|] == log;
  }

  /** What the events of a run bring: reads answered and whether one was false, alarms that expired or were
      answered, writes answered by true and by false, and answers to Finish. */
  datatype Seen = Seen(answered: nat, ended: bool, expiries: nat, alarms: nat, written: nat, failed: nat, finished: nat)

  function Brought(events: seq<Event>): Seen {
    if events == [] then Seen(0, false, 0, 0, 0, 0, 0)
    else
      var n, last := Brought(events[..|events| - 1]), events[|events| - 1];
      match last
      case ReadDone(ok, _) => n.(answered := n.answered + 1, ended := n.ended || !ok)
      case AlarmExpires => n.(expiries := n.expiries + 1)
      case AlarmDone => n.(alarms := n.alarms + 1)
      case WriteDone(ok) => if ok then n.(written := n.written + 1) else n.(failed := n.failed + 1)
      case FinishDone(_) => n.(finished := n.finished + 1)
  }

  lemma BroughtLast(events: seq<Event>, e: Event)
    ensures var n, m := Brought(events), Brought(events + [e]);
      && m.answered == n.answered + Count(e.ReadDone?) && m.ended == (n.ended || (e.ReadDone? && !e.ok))
      && m.expiries == n.expiries + Count(e == AlarmExpires) && m.alarms == n.alarms + Count(e == AlarmDone)
      && m.written == n.written + Count(e == WriteDone(true)) && m.failed == n.failed + Count(e == WriteDone(false))
      && m.finished == n.finished + Count(e.FinishDone?)
  {
    assert (events + [e])[..|events|] == events;
  }

  /** A Start that is accepted: the service runs from then on. */
  predicate Accepts(v: View, command: Command) {
    command.Start? && v.status == Fine && !v.running && v.message != "" && v.delay > 0
  }

  /** Accepted Starts. */
  function Starts(commands: seq<Command>): nat {
    if commands == [] then 0
    else
      var before := commands[..|commands| - 1];
      Starts(before) + Count(Accepts(AcceptAll(before), commands[|commands| - 1]))
  }

  lemma StartsLast(commands: seq<Command>, c: Command)
    ensures Starts(commands + [c]) == Starts(commands) + Count(Accepts(AcceptAll(commands), c))
  {
    assert (commands + [c])[..|commands|] == commands;
  }

  /** The writer waits or writes. */
  predicate Live(s: State) {
    s.writer == Waiting || s.writer == Writing
  }

  /** The reader has left its loop. */
  predicate Left(s: State) {
    s.reader == Joining(true) || s.reader == Finishing || s.reader == Ended
  }

  /** Every action so far has its cause among the events so far, and every cause its action. */
  ghost predicate Counted(s: State, past: seq<Event>) {
    var n, e := Told(s.log), Brought(past);
    && n.asked == e.answered + Count(s.reader == Reading)
    && n.finishes == Count(s.reader == Finishing || s.reader == Ended) && e.finished == Count(s.reader == Ended)
    && n.alarms == Starts(TakenUp(s.log)) + e.written
    && n.alarms == e.alarms + Count(s.writer == Waiting)
    && n.writes == e.written + e.failed + Count(s.writer == Writing)
    && n.writes + Count(s.alarm == Expired) == e.expiries
    && (Left(s) <==> e.ended || s.status != Fine)
  }

  /** The writer and its alarm are left alone, but for a cancel, a finished join or a start. */
  predicate WriterKept(s: State, t: State, started: bool) {
    && (t.writer == Waiting <==> s.writer == Waiting || started) && (t.writer == Writing <==> s.writer == Writing)
    && (t.alarm == Expired <==> s.alarm == Expired)
  }

  /** State t is s, or what became of it, with so many actions more in the log. */
  ghost predicate Adds(s: State, t: State, asked: nat, finishes: nat, alarms: nat) {
    var n := Told(s.log);
    Told(t.log) == Tally(n.asked + asked, n.finishes + finishes, n.alarms + alarms, n.writes)
  }

  /** The reader has gone on from s to where it parks in t, and added what it parks on. */
  ghost predicate Parks(s: State, t: State, started: bool) {
    && (t.reader == Reading || t.reader.Joining? || t.reader == Finishing)
    && (Left(t) <==> t.status != Fine)
    && Adds(s, t, Count(t.reader == Reading), Count(t.reader == Finishing), Count(started))
    && WriterKept(s, t, started)
  }

  lemma LeavesAdds(s: State)
    ensures var t := AfterLoop(s);
      && (t.reader == Joining(true) || t.reader == Finishing) && t.status == s.status
      && Adds(s, t, 0, Count(t.reader == Finishing), 0) && WriterKept(s, t, false)
  {
    hide Told;
    ToldLast(s.log, AskedFinish);
  }

  lemma LoopAdds(s: State)
    ensures Parks(s, Loop(s), false)
  {
    hide Told, AfterLoop;
    ToldLast(s.log, AskedRead);
    LeavesAdds(s);
  }

  lemma LoopReads(s: State)
    ensures s.status == Fine ==> Loop(s) == s.(reader := Reading, pending := Loop(s).pending, log := Loop(s).log)
  {
  }

  predicate Begins(s: State, command: Command) {
    command.Start? && !s.subroutine && s.message != "" && s.delay > 0
  }

  lemma HandleAdds(s: State, command: Command)
    requires ReaderRuns(s) && s.status == Fine
    ensures Parks(s, Handle(s, command), Begins(s, command))
  {
    hide Loop, Told;
    match command
    case Message(text, delay) =>
      if s.subroutine { LoopAdds(s.(status := RunningAlready)); }
      else { LoopAdds(s.(message := text, delay := delay)); }
    case Start => StartAdds(s);
    case Stop =>
      if !s.subroutine { LoopAdds(s.(status := NotRunning)); } else { LoopAdds(Joined(Cancel(s))); }
  }

  lemma StartAdds(s: State)
    requires ReaderRuns(s) && s.status == Fine
    ensures Parks(s, Handle(s, Command.Start), Begins(s, Command.Start))
  {
    hide Loop, Told;
    if s.subroutine {
      LoopAdds(s.(status := StartedAlready));
    } else if s.message == "" || s.delay == 0 {
      LoopAdds(s.(status := NoValidMessage));
    } else {
      ToldLast(s.log, SetAlarm(s.delay));
      LoopAdds(Wait(s.(subroutine := true)));
    }
  }

  /** The writer's end lets a joining reader go on. */
  lemma WriterEndAdds(s: State)
    requires s.reader == Joining(false) ==> s.status == Fine
    ensures var t := WriterEnds(s);
      && t.reader == (if s.reader == Joining(false) then Reading else if s.reader == Joining(true) then Finishing
                      else s.reader)
      && Adds(s, t, Count(s.reader == Joining(false)), Count(s.reader == Joining(true)), 0)
      && !Live(t) && t.alarm == s.alarm && t.status == s.status
  {
    hide Told, Loop;
    ToldLast(s.log, AskedFinish);
    LoopAdds(Joined(s));
    LoopReads(Joined(s));
  }

  lemma ReadCounts(s: State, past: seq<Event>, ok: bool, command: Command)
    requires Inv(s) && Counted(s, past) && s.reader == Reading
    ensures Counted(Apply(s, ReadDone(ok, command)), past + [ReadDone(ok, command)])
  {
    hide Counted, Apply;
    if ok { CommandCounts(s, past, command); } else { StreamEndCounts(s, past, command); }
  }

  lemma StreamEndCounts(s: State, past: seq<Event>, command: Command)
    requires Inv(s) && Counted(s, past) && s.reader == Reading
    ensures Counted(Apply(s, ReadDone(false, command)), past + [ReadDone(false, command)])
  {
    hide Told, Brought, Starts, TakenUp, Fold, AfterLoop;
    BroughtLast(past, ReadDone(false, command));
    EventTakesUp(s, ReadDone(false, command));
    assert TakenUp(s.log) + [] == TakenUp(s.log);
    LeavesAdds(s.(pending := s.pending.(reading := s.pending.reading - 1)));
  }

  /** The commands so far say whether the next one is an accepted Start. */
  lemma BeginsIff(s: State, command: Command)
    requires Inv(s) && s.reader == Reading
    ensures Starts(TakenUp(s.log) + [command]) == Starts(TakenUp(s.log)) + Count(Begins(s, command))
  {
    hide Fold, AcceptAll, Starts, TakenUp;
    FoldIsAcceptAll(s.log);
    StartsLast(TakenUp(s.log), command);
  }

  lemma CommandCounts(s: State, past: seq<Event>, command: Command)
    requires Inv(s) && Counted(s, past) && s.reader == Reading
    ensures Counted(Apply(s, ReadDone(true, command)), past + [ReadDone(true, command)])
  {
    hide Told, Brought, Starts, TakenUp, Fold, Handle, LogOk;
    BroughtLast(past, ReadDone(true, command));
    EventTakesUp(s, ReadDone(true, command));
    BeginsIff(s, command);
    ToldLast(s.log, Handled(command));
    var u := s.(pending := s.pending.(reading := s.pending.reading - 1), log := s.log + [Handled(command)]);
    HandleAdds(u, command);
  }

  lemma AlarmCounts(s: State, past: seq<Event>)
    requires Inv(s) && Counted(s, past) && s.writer == Waiting && s.alarm != Armed
    ensures Counted(Apply(s, AlarmDone), past + [AlarmDone])
  {
    hide Told, Brought, Starts, TakenUp, Fold, LogOk;
    BroughtLast(past, AlarmDone);
    EventTakesUp(s, AlarmDone);
    assert TakenUp(s.log) + [] == TakenUp(s.log);
    ToldLast(s.log, Wrote(s.message));
    WriterEndAdds(s.(pending := s.pending.(timing := s.pending.timing - 1), alarm := Unset));
  }

  lemma WriteCounts(s: State, past: seq<Event>, ok: bool)
    requires Inv(s) && Counted(s, past) && s.writer == Writing
    ensures Counted(Apply(s, WriteDone(ok)), past + [WriteDone(ok)])
  {
    hide Told, Brought, Starts, TakenUp, Fold, LogOk;
    BroughtLast(past, WriteDone(ok));
    EventTakesUp(s, WriteDone(ok));
    assert TakenUp(s.log) + [] == TakenUp(s.log);
    ToldLast(s.log, SetAlarm(s.delay));
    WriterEndAdds(s.(pending := s.pending.(writing := s.pending.writing - 1)));
  }

  lemma EventCounts(s: State, past: seq<Event>, e: Event)
    requires Inv(s) && Counted(s, past) && Enabled(s, e)
    ensures Counted(Apply(s, e), past + [e])
  {
    match e
    case ReadDone(ok, command) => ReadCounts(s, past, ok, command);
    case AlarmDone => AlarmCounts(s, past);
    case WriteDone(ok) => WriteCounts(s, past, ok);
    case _ => BroughtLast(past, e);
  }

  lemma {:induction false} RunCounts(s: State, past: seq<Event>, events: seq<Event>, t: State)
    requires Inv(s) && Counted(s, past) && IsRun(s, events, t)
    ensures Counted(t, past + events)
    decreases |events|
  {
    hide Counted, Inv, Apply;
    if events == [] {
      assert past + events == past;
    } else {
      EventKeepsInv(s, events[0]);
      EventCounts(s, past, events[0]);
      RunCounts(Apply(s, events[0]), past + [events[0]], events[1..], t);
      assert past + [events[0]] + events[1..] == past + events;
    }
  }

  /** Over every run, from the events alone. The handler reads again after every command that leaves the status
      fine, and stops at the end of the stream or at a rejected command; then it calls Finish, once, as soon as
      no writer is left, and it ends when that is answered. Each accepted Start and each Write that went through
      sets the alarm, and each alarm that expired writes. */
  lemma HandlerFollowsEvents(events: seq<Event>, t: State)
    requires IsRun(Init(), events, t)
    ensures var n, e, v := Told(t.log), Brought(events), AcceptAll(Commands(events));
      && (Left(t) <==> e.ended || v.status != Fine)
      && n.asked == e.answered + Count(t.reader == Reading)
      && n.finishes == Count(Left(t) && !Live(t)) && (t.reader == Ended <==> e.finished == 1) && e.finished <= 1
      && n.alarms == Starts(Commands(events)) + e.written
      && n.writes + Count(t.alarm == Expired) == e.expiries
      && n.alarms == e.alarms + Count(t.writer == Waiting)
      && n.writes == e.written + e.failed + Count(t.writer == Writing)
    ensures !Left(t) ==> t.reader == if Live(t) && !AcceptAll(Commands(events)).running then Joining(false) else Reading
    ensures Left(t) && Live(t) ==> t.reader == Joining(true)
  {
    InitIsGood();
    ToldLast([], AskedRead);
    assert Init().log == [] + [AskedRead];
    TakenUpLast([], AskedRead);
    RunKeepsInv(Init(), events, t);
    RunCounts(Init(), [], events, t);
    assert [] + events == events;
    AgreesWithCommands(events, t);
    FoldIsAcceptAll(t.log);
  }

  /** The writer begins exactly with an accepted Start, and ends exactly with an alarm or a Write that reports
      false. Only the answer to Finish ends the handler. */
  lemma WriterLives(s: State, e: Event)
    requires Inv(s) && Enabled(s, e)
    ensures Live(s) && !Live(Apply(s, e)) <==> ReportsFalse(s, e)
    ensures !Live(s) && Live(Apply(s, e)) <==> e.ReadDone? && e.ok && Accepts(Fold(s.log), e.command)
    ensures s.reader != Ended && Apply(s, e).reader == Ended <==> e.FinishDone?
  {
  }

  // ---- the Stop handshake ----

  /** A Stop, a rejected command or the end of the stream made the handler cancel and join. When
      Cancel found the alarm running, nothing can happen but the cancelled alarm's completion, which
      ends the writer without another Write and resumes the handler, once. */
  lemma CancelInTime(s: State, ok: bool, command: Command)
    requires Inv(s) && s.reader == Reading && s.alarm == Armed && Apply(s, ReadDone(ok, command)).reader.Joining?
    ensures var t := Apply(s, ReadDone(ok, command));
      && t.alarm == Cancelled && t.reader.atEnd == !(ok && command == Stop)
      && (forall e :: Enabled(t, e) <==> e == AlarmDone)
      && var u := Apply(t, AlarmDone);
         && u.reader == (if t.reader.atEnd then Finishing else Reading) && u.writer == NoWriter && !u.subroutine
         && u.log == t.log + [if t.reader.atEnd then AskedFinish else AskedRead]
  {
    EventKeepsInv(s, ReadDone(ok, command));
  }

  /** When the alarm had already fired or a Write was under way, Cancel changes nothing. */
  lemma CancelTooLate(s: State, ok: bool, command: Command)
    requires Inv(s) && s.reader == Reading && s.alarm != Armed && Apply(s, ReadDone(ok, command)).reader.Joining?
    ensures var t := Apply(s, ReadDone(ok, command));
      && t.alarm == s.alarm && t.writer == s.writer && t.reader.atEnd == !(ok && command == Stop)
      && t.log == s.log + (if ok then [Handled(command)] else [])
      && (s.alarm == Expired || s.writer == Writing)
  {
    EventKeepsInv(s, ReadDone(ok, command));
  }

  /** The handler cancels and joins exactly when it has a live writer and stops reading. */
  lemma JoinsIff(s: State, ok: bool, command: Command)
    requires Inv(s) && s.reader == Reading
    ensures Apply(s, ReadDone(ok, command)).reader.Joining? <==> s.subroutine && s.writer != Done
  {
  }

  /** A joining handler goes on exactly when an alarm or a Write reports false. */
  lemma JoinEndsIff(s: State, e: Event)
    requires Inv(s) && s.reader.Joining? && Enabled(s, e)
    ensures Apply(s, e).reader == s.reader <==> !ReportsFalse(s, e)
    ensures !ReportsFalse(s, e) ==>
      Apply(s, e).log == s.log || exists a :: FromWriter(a, s.message, s.delay) && Apply(s, e).log == s.log + [a]
  {
  }

  /** A run in which no completion tells the writer to stop. */
  predicate NoneReportsFalse(s: State, events: seq<Event>)
    decreases |events|
  {
    events == [] ||
      (Enabled(s, events[0]) && !ReportsFalse(s, events[0]) && NoneReportsFalse(Apply(s, events[0]), events[1..]))
  }

  predicate FromWriter(a: Action, text: string, delay: uint32) {
    a == Wrote(text) || a == SetAlarm(delay)
  }

  predicate AllFromWriter(actions: seq<Action>, text: string, delay: uint32) {
    forall k | 0 <= k < |actions| :: FromWriter(actions[k], text, delay)
  }

  lemma StepStaysParked(s: State, e: Event)
    requires Inv(s) && s.reader.Joining? && Enabled(s, e) && !ReportsFalse(s, e)
    ensures var u := Apply(s, e);
      && Inv(u) && u.reader == s.reader && u.message == s.message && u.delay == s.delay
      && s.log <= u.log && AllFromWriter(u.log[|s.log|..], s.message, s.delay)
  {
    EventKeepsInv(s, e);
    JoinEndsIff(s, e);
    FrozenWhileRunning(s, e);
  }

  /** Until then it stays parked, with no Read and no Finish, while the writer goes on writing. */
  lemma {:induction false} StaysParked(s: State, events: seq<Event>, t: State)
    requires Inv(s) && s.reader.Joining? && IsRun(s, events, t) && NoneReportsFalse(s, events)
    ensures Inv(t) && t.reader == s.reader && t.message == s.message && t.delay == s.delay
    ensures s.log <= t.log && AllFromWriter(t.log[|s.log|..], s.message, s.delay)
    decreases |events|
  {
    if events != [] {
      var u := Apply(s, events[0]);
      StepStaysParked(s, events[0]);
      StaysParked(u, events[1..], t);
      AllFromWriterJoins(s.log, u.log, t.log, s.message, s.delay);
    }
  }

  lemma AllFromWriterJoins(s: seq<Action>, u: seq<Action>, t: seq<Action>, text: string, delay: uint32)
    requires s <= u <= t
    requires AllFromWriter(u[|s|..], text, delay) && AllFromWriter(t[|u|..], text, delay)
    ensures AllFromWriter(t[|s|..], text, delay)
  {
    assert u[|s|..] + t[|u|..] == t[|s|..];
  }

  lemma RunGoesOn(s: State, e: Event, rest: seq<Event>, t: State)
    requires Enabled(s, e) && !ReportsFalse(s, e)
    requires IsRun(Apply(s, e), rest, t) && NoneReportsFalse(Apply(s, e), rest)
    ensures IsRun(s, [e] + rest, t) && NoneReportsFalse(s, [e] + rest)
  {
    assert ([e] + rest)[1..] == rest;
  }

  /** The wait need not end: a writer that is never told to stop writes for ever. */
  lemma {:induction false} StopCanBeDelayed(s: State, n: nat) returns (events: seq<Event>, t: State)
    requires Inv(s) && s.reader.Joining? && s.writer == Writing
    ensures |events| == 3 * n && IsRun(s, events, t) && NoneReportsFalse(s, events)
    ensures t.reader == s.reader && t.writer == Writing && |t.log| == |s.log| + 2 * n
    decreases n
  {
    if n == 0 {
      return [], s;
    }
    var a, b, c := WriterGoesRound(s);
    var rest;
    rest, t := StopCanBeDelayed(c, n - 1);
    RunGoesOn(b, AlarmDone, rest, t);
    RunGoesOn(a, AlarmExpires, [AlarmDone] + rest, t);
    RunGoesOn(s, WriteDone(true), [AlarmExpires] + ([AlarmDone] + rest), t);
    events := [WriteDone(true)] + ([AlarmExpires] + ([AlarmDone] + rest));
  }

  /** One successful round of the writer, seen from the end of a Write. */
  lemma WriterGoesRound(s: State) returns (a: State, b: State, c: State)
    requires Inv(s) && s.reader.Joining? && s.writer == Writing
    ensures Enabled(s, WriteDone(true)) && a == Apply(s, WriteDone(true)) && a.alarm == Armed
    ensures b == Apply(a, AlarmExpires)
    ensures Enabled(b, AlarmDone) && b.alarm == Expired && c == Apply(b, AlarmDone)
    ensures Inv(c) && c.reader == s.reader && c.writer == Writing && |c.log| == |s.log| + 2
  {
    a := Apply(s, WriteDone(true));
    EventKeepsInv(s, WriteDone(true));
    b := Apply(a, AlarmExpires);
    EventKeepsInv(a, AlarmExpires);
    c := Apply(b, AlarmDone);
    EventKeepsInv(b, AlarmDone);
  }

  // ---- the handler itself ----

  /** The coroutine frame: its local variables, the stream it serves, and where its two coroutines
      are parked. Each method is one segment, from a completion to the next suspension. */
  class Handler {
    var status: Status
    var message: string
    var delay: uint32
    var subroutine: bool
    var reader: Reader
    var writer: Writer
    var alarm: Alarm
    var pending: Outstanding
    var log: seq<Action>

    ghost function Now(): State
      reads this
    {
      State(status, message, delay, subroutine, reader, writer, alarm, pending, log)
    }

    constructor ()
      ensures Now() == Init()
    {
      status, message, delay, subroutine := Fine, "", 0, false;
      writer, alarm := NoWriter, Unset;
      pending := Outstanding(1, 0, 0, 0);
      reader, log := Reading, [AskedRead];
    }

    method ReadLoop()
      modifies this
      ensures Now() == Loop(old(Now()))
    {
      if status == Fine {
        AskRead();
      } else {
        LeaveLoop();
      }
    }

    method AskRead()
      modifies this`reader, this`pending, this`log
      ensures reader == Reading && pending == old(pending).(reading := old(pending).reading + 1)
      ensures log == old(log) + [AskedRead]
    {
      pending := pending.(reading := pending.reading + 1);
      log := log + [AskedRead];
      reader := Reading;
    }

    method AskFinish()
      modifies this`reader, this`pending, this`log
      ensures Now() == Finish(old(Now()))
    {
      pending := pending.(finishing := pending.finishing + 1);
      log := log + [AskedFinish];
      reader := Finishing;
    }

    method CancelAlarm()
      modifies this`alarm
      ensures Now() == Cancel(old(Now()))
    {
      if alarm == Armed {
        alarm := Cancelled;
      }
    }

    /** co_await std::move(subroutine): over at once when the writer has ended already. */
    method JoinWriter(atEnd: bool) returns (over: bool)
      modifies this`reader, this`subroutine, this`writer
      ensures over == (old(writer) == Done)
      ensures Now() == if over then Joined(old(Now())) else old(Now()).(reader := Joining(atEnd))
    {
      over := writer == Done;
      if over {
        subroutine, writer := false, NoWriter;
      } else {
        reader := Joining(atEnd);
      }
    }

    method LeaveLoop()
      modifies this
      ensures Now() == AfterLoop(old(Now()))
    {
      if subroutine {
        CancelAlarm();
        var over := JoinWriter(true);
        if !over { return; }
      }
      AskFinish();
    }

    method StartWaiting()
      modifies this`writer, this`alarm, this`pending, this`log
      ensures Now() == Wait(old(Now()))
    {
      log := log + [SetAlarm(delay)];
      alarm := Armed;
      pending := pending.(timing := pending.timing + 1);
      writer := Waiting;
    }

    method HandleCommand(command: Command)
      modifies this
      ensures Now() == Handle(old(Now()), command)
    {
      match command {
      case Message(text, milliseconds) =>
        if subroutine {
          status := RunningAlready;
        } else {
          message, delay := text, milliseconds;
        }
      case Start =>
        if subroutine {
          status := StartedAlready;
        } else if message == "" || delay == 0 {
          status := NoValidMessage;
        } else {
          subroutine := true;
          StartWaiting();
        }
      case Stop =>
        if !subroutine {
          status := NotRunning;
        } else {
          CancelAlarm();
          var over := JoinWriter(false);
          if !over { return; }
        }
      }
      ReadLoop();
    }

    /** The writer's last segment: it ends, and a handler that joins it goes on. */
    method EndWriter()
      modifies this
      ensures Now() == WriterEnds(old(Now()))
    {
      writer := Done;
      if reader.Joining? {
        var atEnd := reader.atEnd;
        subroutine, writer := false, NoWriter;
        if atEnd {
          AskFinish();
        } else {
          ReadLoop();
        }
      }
    }

    method OnRead(ok: bool, command: Command)
      requires Enabled(Now(), ReadDone(ok, command))
      modifies this
      ensures Now() == Apply(old(Now()), ReadDone(ok, command))
    {
      pending := pending.(reading := pending.reading - 1);
      if ok {
        log := log + [Handled(command)];
        HandleCommand(command);
      } else {
        LeaveLoop();
      }
    }

    method OnAlarm()
      requires Enabled(Now(), AlarmDone)
      modifies this
      ensures Now() == Apply(old(Now()), AlarmDone)
    {
      pending := pending.(timing := pending.timing - 1);
      var ok := alarm == Expired;
      alarm := Unset;
      if ok {
        writer := Writing;
        pending := pending.(writing := pending.writing + 1);
        log := log + [Wrote(message)];
      } else {
        EndWriter();
      }
    }

    method OnWrite(ok: bool)
      requires Enabled(Now(), WriteDone(ok))
      modifies this
      ensures Now() == Apply(old(Now()), WriteDone(ok))
    {
      pending := pending.(writing := pending.writing - 1);
      if ok {
        StartWaiting();
      } else {
        EndWriter();
      }
    }
  }
}
