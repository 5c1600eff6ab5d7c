/** The character service twice: kept in memory, and as reads, writes and deletes on a remote store.

    Each remote operation may fail; the service ignores that. And each is a suspension point: two calls
    of the service may take turns on the store. `Ops` lists what a call does there; the methods are
    proved against it, alone, and `SerialIff` says when two calls that overlap still act like one after
    the other. */
module Services {
  import opened Programs

  datatype Player = Player(level: int, xp: int)

  const BLANK := Player(1, 0)

  // ---- in memory ----

  function Given(p: Player, amount: int): Player {
    p.(xp := p.xp + amount)
  }

  function LeveledUp(p: Player): Player {
    Player(p.level + 1, 0)
  }

  class CharacterServiceMemory {
    var player: Player

    constructor ()
      ensures player == BLANK
    {
      player := BLANK;
    }

    method GetPlayer() returns (p: Player)
      ensures p == player
    {
      p := player;
    }

    method GiveXp(amount: int) returns (xp: int)
      modifies this
      ensures player == Given(old(player), amount) && xp == player.xp
    {
      player := player.(xp := player.xp + amount);
      xp := player.xp;
    }

    method LevelUp() returns (level: int)
      modifies this
      ensures player == LeveledUp(old(player)) && level == player.level
    {
      player := player.(xp := 0);
      player := player.(level := player.level + 1);
      level := player.level;
    }

    method Reset()
      modifies this
      ensures player == BLANK
    {
      player := BLANK;
    }
  }

  // ---- the variable store ----

  type Store = map<string, int>

  class VariableService {
    var storage: Store

    constructor ()
      ensures storage == map[]
    {
      storage := map[];
    }

    method Write(key: string, value: int) returns (wasInserted: bool)
      modifies this
      ensures storage == old(storage)[key := value] && wasInserted == (key !in old(storage))
    {
      wasInserted := key !in storage;
      storage := storage[key := value];
    }

    method Read(key: string) returns (found: Option<int>)
      ensures found == if key in storage then Some(storage[key]) else None
    {
      if key in storage {
        found := Some(storage[key]);
      } else {
        found := None;
      }
    }

    method Del(key: string) returns (wasDeleted: bool)
      modifies this
      ensures storage == old(storage) - {key} && wasDeleted == (key in old(storage))
    {
      wasDeleted := key in storage;
      storage := storage - {key};
    }
  }

  // ---- on the store ----

  datatype Key = Level | Xp {
    function Name(): string {
      match this case Level => "level" case Xp => "xp"
    }

    function Default(): int {
      match this case Level => 1 case Xp => 0
    }
  }

  function ValueAt(store: Store, key: Key): int {
    if key.Name() in store then store[key.Name()] else key.Default()
  }

  /** The player a store stands for. */
  function View(store: Store): Player {
    Player(ValueAt(store, Level), ValueAt(store, Xp))
  }

  datatype Request = GiveXp(amount: int) | LevelUp | Reset

  /** One operation on the store. PutSum writes what the call has read, and n more. */
  datatype Op = Fetch(key: Key) | PutSum(key: Key, n: int) | Put(key: Key, value: int) | Remove(key: Key)

  function Ops(r: Request): seq<Op> {
    match r
    case GiveXp(amount) => [Fetch(Xp), PutSum(Xp, amount)]
    case LevelUp => [Fetch(Level), PutSum(Level, 1), Put(Xp, 0)]
    case Reset => [Remove(Level), Remove(Xp)]
  }

  /** The store, and what a call has read. */
  datatype Call = Call(store: Store, read: int)

  /** A read that fails gives the default, a write or delete that fails changes nothing. */
  function Perform(c: Call, op: Op, reached: bool): Call {
    if !reached then
      if op.Fetch? then c.(read := op.key.Default()) else c
    else
      match op
      case Fetch(key) => c.(read := ValueAt(c.store, key))
      case PutSum(key, n) => c.(store := c.store[key.Name() := c.read + n])
      case Put(key, value) => c.(store := c.store[key.Name() := value])
      case Remove(key) => c.(store := c.store - {key.Name()})
  }

  function PerformAll(c: Call, ops: seq<Op>, reached: seq<bool>): Call
    requires |ops| == |reached|
    decreases |ops|
  {
    if ops == [] then c else PerformAll(Perform(c, ops[0], reached[0]), ops[1..], reached[1..])
  }

  /** A call that nothing comes between; `reached` says which of its operations do not fail. */
  function Alone(store: Store, r: Request, reached: seq<bool>): Call
    requires |reached| == |Ops(r)|
  {
    PerformAll(Call(store, 0), Ops(r), reached)
  }

  lemma AloneIs(store: Store, r: Request, reached: seq<bool>)
    requires |reached| == |Ops(r)|
    ensures var c := Perform(Perform(Call(store, 0), Ops(r)[0], reached[0]), Ops(r)[1], reached[1]);
      Alone(store, r, reached) == if r.LevelUp? then Perform(c, Ops(r)[2], reached[2]) else c
  {
    var ops := Ops(r);
    var c := Perform(Call(store, 0), ops[0], reached[0]);
    var d := Perform(c, ops[1], reached[1]);
    assert PerformAll(c, ops[1..], reached[1..]) == PerformAll(d, ops[1..][1..], reached[1..][1..]);
    if r.LevelUp? {
      assert ops[1..][1..] == [ops[2]] && reached[1..][1..] == [reached[2]] && [ops[2]][1..] == [];
      assert PerformAll(d, [ops[2]], [reached[2]]) == PerformAll(Perform(d, ops[2], reached[2]), [], []);
    } else {
      assert ops[1..][1..] == [];
    }
  }

  lemma KeysDiffer()
    ensures Level.Name() != Xp.Name()
  {
    assert |"level"| != |"xp"|;
  }

  class CharacterServiceGrpc {
    const variables: VariableService

    constructor (variables: VariableService)
      ensures this.variables == variables
    {
      this.variables := variables;
    }

    method Read(key: string, reached: bool) returns (value: Option<Option<int>>)
      ensures value == if !reached then None
        else Some(if key in variables.storage then Some(variables.storage[key]) else None)
    {
      if !reached {
        return None;
      }
      var found := variables.Read(key);
      value := Some(found);
    }

    method Write(key: string, value: int, reached: bool)
      modifies variables
      ensures variables.storage == if reached then old(variables.storage)[key := value] else old(variables.storage)
    {
      if reached {
        var wasInserted := variables.Write(key, value);
      }
    }

    method Del(key: string, reached: bool)
      modifies variables
      ensures variables.storage == if reached then old(variables.storage) - {key} else old(variables.storage)
    {
      if reached {
        var wasDeleted := variables.Del(key);
      }
    }

    /** It sees the player if and only if each read arrives or its default is right. */
    method GetPlayer(first: bool, second: bool) returns (sent: Player)
      ensures first && second ==> sent == View(variables.storage)
      ensures sent == View(variables.storage) <==>
        (first || View(variables.storage).level == 1) && (second || View(variables.storage).xp == 0)
    {
      sent := BLANK;
      var level := Read("level", first);
      if level.Some? {
        sent := sent.(level := match level.value case Some(n) => n case None => 1);
      }
      var xp := Read("xp", second);
      if xp.Some? {
        sent := sent.(xp := match xp.value case Some(n) => n case None => 0);
      }
    }

    method GiveXp(amount: int, first: bool, second: bool) returns (xp: int)
      modifies variables
      ensures Call(variables.storage, xp) == Alone(old(variables.storage), Request.GiveXp(amount), [first, second])
    {
      AloneIs(variables.storage, Request.GiveXp(amount), [first, second]);
      var found := Read("xp", first);
      xp := match found case Some(Some(n)) => n case _ => 0;
      Write("xp", xp + amount, second);
    }

    method LevelUp(first: bool, second: bool, third: bool) returns (level: int)
      modifies variables
      ensures Call(variables.storage, level) == Alone(old(variables.storage), Request.LevelUp, [first, second, third])
    {
      AloneIs(variables.storage, Request.LevelUp, [first, second, third]);
      var found := Read("level", first);
      level := match found case Some(Some(n)) => n case _ => 1;
      Write("level", level + 1, second);
      Write("xp", 0, third);
    }

    method Reset(first: bool, second: bool)
      modifies variables
      ensures variables.storage == Alone(old(variables.storage), Request.Reset, [first, second]).store
    {
      AloneIs(variables.storage, Request.Reset, [first, second]);
      Del("level", first);
      Del("xp", second);
    }
  }

  // ---- when the store does what the memory does ----

  /** What the memory's service makes of the player. */
  function Does(p: Player, r: Request): Player {
    match r
    case GiveXp(amount) => Given(p, amount)
    case LevelUp => LeveledUp(p)
    case Reset => BLANK
  }

  /** The failures under which a call still does what it should: an operation may fail if the default it
      falls back to, or the value it leaves, is right anyway. */
  predicate Harmless(p: Player, r: Request, reached: seq<bool>)
    requires |reached| == |Ops(r)|
  {
    match r
    case GiveXp(amount) => if reached[1] then reached[0] || p.xp == 0 else amount == 0
    case LevelUp => reached[1] && (reached[0] || p.level == 1) && (reached[2] || p.xp == 0)
    case Reset => (reached[0] || p.level == 1) && (reached[1] || p.xp == 0)
  }

  /** Under every combination of failures. The memory's service answers with the new values, as the header
      promises; this one with what it read. */
  lemma CallAgreesIff(store: Store, r: Request, reached: seq<bool>)
    requires |reached| == |Ops(r)|
    ensures View(Alone(store, r, reached).store) == Does(View(store), r) <==> Harmless(View(store), r, reached)
    ensures r.GiveXp? && reached[0] ==>
      (Alone(store, r, reached).read == Does(View(store), r).xp <==> r.amount == 0)
    ensures r.LevelUp? && reached[0] ==> Alone(store, r, reached).read == Does(View(store), r).level - 1
  {
    KeysDiffer();
    AloneIs(store, r, reached);
  }

  function AllReached(r: Request): seq<bool> {
    seq(|Ops(r)|, _ => true)
  }

  function InMemory(p: Player, requests: seq<Request>): Player {
    if requests == [] then p else Does(InMemory(p, requests[..|requests| - 1]), requests[|requests| - 1])
  }

  function OnStore(store: Store, requests: seq<Request>): Store {
    if requests == [] then store
    else
      var r := requests[|requests| - 1];
      Alone(OnStore(store, requests[..|requests| - 1]), r, AllReached(r)).store
  }

  /** The store, read with its defaults, is at all times the player kept in memory. */
  lemma {:induction false} StoreSimulatesMemory(store: Store, requests: seq<Request>)
    ensures View(OnStore(store, requests)) == InMemory(View(store), requests)
  {
    if requests != [] {
      var n := |requests| - 1;
      StoreSimulatesMemory(store, requests[..n]);
      CallAgreesIff(OnStore(store, requests[..n]), requests[n], AllReached(requests[n]));
    }
  }

  // ---- two calls that take turns ----

  /** How often `who` has its turn. */
  function Turns(schedule: seq<bool>, who: bool): nat {
    if schedule == [] then 0
    else Turns(schedule[..|schedule| - 1], who) + if schedule[|schedule| - 1] == who then 1 else 0
  }

  /** Two calls: that of `false` and that of `true`. */
  datatype Two = Two(a: Request, b: Request) {
    function Of(who: bool): Request { if who then b else a }
  }

  /** A schedule of operations of the two, in each one's order. */
  predicate Fits(two: Two, schedule: seq<bool>) {
    Turns(schedule, false) <= |Ops(two.a)| && Turns(schedule, true) <= |Ops(two.b)|
  }

  predicate Complete(two: Two, schedule: seq<bool>) {
    Turns(schedule, false) == |Ops(two.a)| && Turns(schedule, true) == |Ops(two.b)|
  }

  datatype Overlap = Overlap(store: Store, read: map<bool, int>)

  /** The operations in the order of the schedule, each call with what it has read itself. */
  function Interleaved(store: Store, two: Two, schedule: seq<bool>): (o: Overlap)
    requires Fits(two, schedule)
    ensures o.read.Keys == {false, true}
    decreases |schedule|
  {
    if schedule == [] then Overlap(store, map[false := 0, true := 0])
    else
      var n := |schedule| - 1;
      var who := schedule[n];
      var o := Interleaved(store, two, schedule[..n]);
      var c := Perform(Call(o.store, o.read[who]), Ops(two.Of(who))[Turns(schedule[..n], who)], true);
      Overlap(c.store, o.read[who := c.read])
  }

  /** What a call does to one value: nothing, or add to what it read, or set it. */
  datatype Change = Nothing | Sum(n: int) | Fixed(value: int) {
    function Of(v: int): int {
      match this case Nothing => v case Sum(n) => v + n case Fixed(value) => value
    }
  }

  function ChangeOf(r: Request, key: Key): Change {
    match (r, key)
    case (GiveXp(amount), Level) => Nothing
    case (GiveXp(amount), Xp) => Sum(amount)
    case (LevelUp, Level) => Sum(1)
    case (LevelUp, Xp) => Fixed(0)
    case (Reset, _) => Fixed(key.Default())
  }

  /** How many operations a call has done before the one that changes the value. */
  function WriteTurn(r: Request, key: Key): nat {
    match r
    case GiveXp(_) => 1
    case LevelUp => if key.Level? then 1 else 2
    case Reset => if key.Level? then 0 else 1
  }

  /** After `before`, the next operation of `who` changes the value. */
  predicate Writes(two: Two, before: seq<bool>, who: bool, key: Key) {
    !ChangeOf(two.Of(who), key).Nothing? && Turns(before, who) == WriteTurn(two.Of(who), key)
  }

  /** It does so after the other call has read the value and before that call writes it back. */
  predicate Tears(two: Two, before: seq<bool>, who: bool, key: Key) {
    && Writes(two, before, who, key)
    && ChangeOf(two.Of(!who), key).Sum? && Turns(before, !who) == WriteTurn(two.Of(!who), key)
  }

  /** What `who` has read, or what it wrote upon that, misses a change by the other call. */
  predicate Stale(two: Two, schedule: seq<bool>, who: bool, key: Key) {
    exists n :: 0 <= n < |schedule| && schedule[n] == !who && Tears(two, schedule[..n], !who, key)
  }

  /** A change that is one is lost. */
  ghost predicate Torn(two: Two, schedule: seq<bool>) {
    exists who, key :: Stale(two, schedule, who, key) && ChangeOf(two.Of(!who), key) != Sum(0)
  }

  lemma StaleGrows(two: Two, schedule: seq<bool>, who: bool, key: Key)
    requires schedule != []
    ensures var n := |schedule| - 1;
      Stale(two, schedule, who, key) <==>
        Stale(two, schedule[..n], who, key) || (schedule[n] == !who && Tears(two, schedule[..n], !who, key))
  {
    var n := |schedule| - 1;
    forall k | 0 <= k < n ensures schedule[..n][..k] == schedule[..k] {}
    if Stale(two, schedule[..n], who, key) {
      var k :| 0 <= k < n && schedule[..n][k] == !who && Tears(two, schedule[..n][..k], !who, key);
      assert schedule[k] == !who && Tears(two, schedule[..k], !who, key);
    }
    if Stale(two, schedule, who, key) {
      var k :| 0 <= k < |schedule| && schedule[k] == !who && Tears(two, schedule[..k], !who, key);
      if k < n { assert schedule[..n][k] == !who && Tears(two, schedule[..n][..k], !who, key); }
    }
  }

  /** Who has changed the value, in order. */
  function Writers(two: Two, schedule: seq<bool>, key: Key): seq<bool> {
    if schedule == [] then []
    else
      var n := |schedule| - 1;
      Writers(two, schedule[..n], key) + if Writes(two, schedule[..n], schedule[n], key) then [schedule[n]] else []
  }

  /** The value after the schedule, told from who changed it and who is stale. */
  function Told(two: Two, schedule: seq<bool>, key: Key, v: int): int {
    var w := Writers(two, schedule, key);
    if w == [] then v
    else
      var last := w[|w| - 1];
      var change := ChangeOf(two.Of(last), key);
      if |w| == 1 || Stale(two, schedule, last, key) then change.Of(v)
      else change.Of(ChangeOf(two.Of(w[0]), key).Of(v))
  }

  /** Each call changes the value once, when its turn for that has come. */
  predicate WritersOk(two: Two, schedule: seq<bool>, key: Key) {
    var w := Writers(two, schedule, key);
    && |w| <= 2 && (|w| == 2 ==> w[0] != w[1])
    && forall who ::
         who in w <==> !ChangeOf(two.Of(who), key).Nothing? && Turns(schedule, who) > WriteTurn(two.Of(who), key)
  }

  lemma {:induction false} WritersAre(two: Two, schedule: seq<bool>, key: Key)
    ensures WritersOk(two, schedule, key)
    decreases |schedule|
  {
    if schedule != [] {
      WritersAre(two, schedule[..|schedule| - 1], key);
    }
  }

  /** A call is stale from its read on; if it writes, it does so last. */
  predicate StaleOk(two: Two, schedule: seq<bool>, who: bool, key: Key) {
    var w := Writers(two, schedule, key);
    Stale(two, schedule, who, key) ==>
      && ChangeOf(two.Of(who), key).Sum? && Turns(schedule, who) >= WriteTurn(two.Of(who), key)
      && !who in w && (who in w ==> w == [!who, who])
  }

  lemma {:induction false} StaleIs(two: Two, schedule: seq<bool>, who: bool, key: Key)
    ensures StaleOk(two, schedule, who, key)
    decreases |schedule|
  {
    if schedule != [] {
      StaleIs(two, schedule[..|schedule| - 1], who, key);
      WritersAre(two, schedule[..|schedule| - 1], key);
      WritersAre(two, schedule, key);
      StaleGrows(two, schedule, who, key);
    }
  }

  predicate HistoryOk(two: Two, schedule: seq<bool>, key: Key) {
    WritersOk(two, schedule, key) && StaleOk(two, schedule, false, key) && StaleOk(two, schedule, true, key)
  }

  lemma HistoryIs(two: Two, schedule: seq<bool>, key: Key)
    ensures HistoryOk(two, schedule, key)
  {
    WritersAre(two, schedule, key);
    StaleIs(two, schedule, false, key);
    StaleIs(two, schedule, true, key);
  }

  /** What `who` takes the value to be: what the other call has made of it, unless that is missed. */
  function Taken(two: Two, schedule: seq<bool>, who: bool, key: Key, v: int): int {
    if !who in Writers(two, schedule, key) && !Stale(two, schedule, who, key) then ChangeOf(two.Of(!who), key).Of(v)
    else v
  }

  lemma ToldNext(two: Two, schedule: seq<bool>, key: Key, v: int)
    requires schedule != []
    ensures var before, who := schedule[..|schedule| - 1], schedule[|schedule| - 1];
      Told(two, schedule, key, v) ==
        if Writes(two, before, who, key) then ChangeOf(two.Of(who), key).Of(Taken(two, before, who, key, v))
        else Told(two, before, key, v)
  {
    HistoryIs(two, schedule[..|schedule| - 1], key);
    HistoryIs(two, schedule, key);
    StaleGrows(two, schedule, false, key);
    StaleGrows(two, schedule, true, key);
  }

  /** A call that begins takes the value as it is; once it has, only its own turns change that. */
  lemma TakenNext(two: Two, schedule: seq<bool>, who: bool, key: Key, v: int)
    requires schedule != [] && ChangeOf(two.Of(who), key).Sum?
    requires Turns(schedule, who) == WriteTurn(two.Of(who), key) == 1
    ensures var before, last := schedule[..|schedule| - 1], schedule[|schedule| - 1];
      Taken(two, schedule, who, key, v) ==
        if last == who then Told(two, before, key, v) else Taken(two, before, who, key, v)
  {
    HistoryIs(two, schedule[..|schedule| - 1], key);
    HistoryIs(two, schedule, key);
    StaleGrows(two, schedule, false, key);
    StaleGrows(two, schedule, true, key);
  }

  /** The value is the one told, and a call between its read and its write has read what it takes it to be. */
  ghost predicate ToldOk(store: Store, two: Two, schedule: seq<bool>, key: Key)
    requires Fits(two, schedule)
  {
    var o, v := Interleaved(store, two, schedule), ValueAt(store, key);
    && ValueAt(o.store, key) == Told(two, schedule, key, v)
    && forall who | ChangeOf(two.Of(who), key).Sum? && Turns(schedule, who) == 1 ::
         o.read[who] == Taken(two, schedule, who, key, v)
  }

  /** What one operation does to the value, and to what the call has read of it. */
  lemma OpDoes(c: Call, r: Request, turn: nat, key: Key)
    requires turn < |Ops(r)|
    ensures var d, change := Perform(c, Ops(r)[turn], true), ChangeOf(r, key);
      && ValueAt(d.store, key) == (
           if change.Nothing? || turn != WriteTurn(r, key) then ValueAt(c.store, key)
           else if change.Sum? then c.read + change.n else change.value)
      && (change.Sum? ==> WriteTurn(r, key) == 1 && d.read == if turn == 0 then ValueAt(c.store, key) else c.read)
  {
    KeysDiffer();
  }

  lemma {:induction false} ToldIs(store: Store, two: Two, schedule: seq<bool>, key: Key)
    requires Fits(two, schedule)
    ensures ToldOk(store, two, schedule, key)
    decreases |schedule|
  {
    if schedule != [] {
      var n := |schedule| - 1;
      var who := schedule[n];
      var o := Interleaved(store, two, schedule[..n]);
      OpDoes(Call(o.store, o.read[who]), two.Of(who), Turns(schedule[..n], who), key);
      ToldIs(store, two, schedule[..n], key);
      ToldNext(two, schedule, key, ValueAt(store, key));
      forall w | ChangeOf(two.Of(w), key).Sum? && Turns(schedule, w) == 1
        ensures Interleaved(store, two, schedule).read[w] == Taken(two, schedule, w, key, ValueAt(store, key))
      {
        WriteAfterRead(two.Of(w), key);
        TakenNext(two, schedule, w, key, ValueAt(store, key));
      }
      WriteAfterRead(two.Of(who), key);
    }
  }

  lemma WriteAfterRead(r: Request, key: Key)
    ensures ChangeOf(r, key).Sum? ==> WriteTurn(r, key) == 1
  {
  }

  // ---- when they act like one after the other ----

  function At(p: Player, key: Key): int {
    match key case Level => p.level case Xp => p.xp
  }

  lemma DoesChanges(p: Player, r: Request, key: Key)
    ensures At(Does(p, r), key) == ChangeOf(r, key).Of(At(p, key))
  {
  }

  /** The calls' effect on the store is the one the memory's service has for one of the two orders. */
  predicate ActsSerially(store: Store, two: Two, schedule: seq<bool>)
    requires Fits(two, schedule)
  {
    var p, q := View(store), View(Interleaved(store, two, schedule).store);
    q == Does(Does(p, two.a), two.b) || q == Does(Does(p, two.b), two.a)
  }

  lemma WriteComes(r: Request, key: Key)
    ensures WriteTurn(r, key) < |Ops(r)|
  {
  }

  /** When both calls are over, each has made its changes. */
  lemma TurnsTaken(two: Two, schedule: seq<bool>, key: Key)
    requires Complete(two, schedule)
    ensures HistoryOk(two, schedule, key)
    ensures forall who :: who in Writers(two, schedule, key) <==> !ChangeOf(two.Of(who), key).Nothing?
  {
    HistoryIs(two, schedule, key);
    WriteComes(two.a, key);
    WriteComes(two.b, key);
  }

  lemma ViewIsTold(store: Store, two: Two, schedule: seq<bool>, key: Key)
    requires Fits(two, schedule)
    ensures At(View(Interleaved(store, two, schedule).store), key) == Told(two, schedule, key, At(View(store), key))
  {
    ToldIs(store, two, schedule, key);
  }

  /** If no change is lost, they were made one upon the other. */
  lemma UntornIsTold(two: Two, schedule: seq<bool>, key: Key, v: int)
    requires Complete(two, schedule) && !Torn(two, schedule)
    ensures var w := Writers(two, schedule, key);
      && (forall who :: who in w <==> !ChangeOf(two.Of(who), key).Nothing?)
      && |w| <= 2 && (|w| == 2 ==> w[0] != w[1])
      && Told(two, schedule, key, v) == (
           if |w| == 0 then v else if |w| == 1 then ChangeOf(two.Of(w[0]), key).Of(v)
           else ChangeOf(two.Of(!w[0]), key).Of(ChangeOf(two.Of(w[0]), key).Of(v)))
  {
    TurnsTaken(two, schedule, key);
    var w := Writers(two, schedule, key);
    if |w| == 2 && Stale(two, schedule, w[1], key) { assert ChangeOf(two.Of(w[0]), key) == Sum(0); }
  }

  /** The order in which the level was changed, if both changed it, or else that of the experience. */
  function Leader(two: Two, schedule: seq<bool>): bool {
    var levels, xps := Writers(two, schedule, Level), Writers(two, schedule, Xp);
    if |levels| == 2 then levels[0] else if |xps| == 2 then xps[0] else false
  }

  lemma UntornInOrderOf(two: Two, schedule: seq<bool>, key: Key, v: int, first: bool)
    requires Complete(two, schedule) && !Torn(two, schedule)
    requires var w := Writers(two, schedule, key); |w| == 2 ==> w[0] == first
    ensures Told(two, schedule, key, v) == ChangeOf(two.Of(!first), key).Of(ChangeOf(two.Of(first), key).Of(v))
  {
    UntornIsTold(two, schedule, key, v);
    var w := Writers(two, schedule, key);
    assert |w| == 1 ==> w[0] in w;
  }

  /** Calls that both change the level both clear the experience. */
  lemma BothClear(two: Two, schedule: seq<bool>)
    requires Complete(two, schedule) && |Writers(two, schedule, Level)| == 2
    ensures ChangeOf(two.a, Xp) == ChangeOf(two.b, Xp) == Fixed(0)
  {
    TurnsTaken(two, schedule, Level);
    var w := Writers(two, schedule, Level);
    assert w[0] in w && w[1] in w;
  }

  lemma UntornInOrder(two: Two, schedule: seq<bool>, key: Key, v: int)
    requires Complete(two, schedule) && !Torn(two, schedule)
    ensures var first := Leader(two, schedule);
      Told(two, schedule, key, v) == ChangeOf(two.Of(!first), key).Of(ChangeOf(two.Of(first), key).Of(v))
  {
    var w := Writers(two, schedule, key);
    UntornInOrderOf(two, schedule, key, v, if |w| == 2 then w[0] else Leader(two, schedule));
    if |Writers(two, schedule, Level)| == 2 { BothClear(two, schedule); }
  }

  lemma UntornIsSerial(store: Store, two: Two, schedule: seq<bool>)
    requires Complete(two, schedule) && !Torn(two, schedule)
    ensures ActsSerially(store, two, schedule)
  {
    var first, p := Leader(two, schedule), View(store);
    var q, r := View(Interleaved(store, two, schedule).store), Does(Does(p, two.Of(first)), two.Of(!first));
    forall key ensures At(q, key) == At(r, key) {
      ViewIsTold(store, two, schedule, key);
      UntornInOrder(two, schedule, key, At(p, key));
      DoesChanges(p, two.Of(first), key);
      DoesChanges(Does(p, two.Of(first)), two.Of(!first), key);
    }
    assert At(q, Level) == At(r, Level) && At(q, Xp) == At(r, Xp);
  }

  /** A value for which it shows that a change got lost. */
  function Witness(mine: Change, other: Change): int {
    (if other.Fixed? then other.value else 0) + if mine == Sum(-1) then 2 else 1
  }

  lemma StaleIsTold(two: Two, schedule: seq<bool>, who: bool, key: Key, v: int)
    requires Complete(two, schedule) && Stale(two, schedule, who, key)
    ensures ChangeOf(two.Of(who), key).Sum? && !ChangeOf(two.Of(!who), key).Nothing?
    ensures Told(two, schedule, key, v) == ChangeOf(two.Of(who), key).Of(v)
  {
    TurnsTaken(two, schedule, key);
  }

  /** In either order the other call's change would have counted. */
  lemma ChangeShows(mine: Change, other: Change)
    requires mine.Sum? && !other.Nothing? && other != Sum(0)
    ensures var v := Witness(mine, other); mine.Of(v) != other.Of(mine.Of(v)) && mine.Of(v) != mine.Of(other.Of(v))
  {
  }

  lemma StoreOf(key: Key, v: int)
    ensures var store: Store := map[key.Name() := v]; At(View(store), key) == v
  {
    KeysDiffer();
  }

  lemma TornAt(two: Two, schedule: seq<bool>, who: bool, key: Key) returns (store: Store)
    requires Complete(two, schedule) && Stale(two, schedule, who, key) && ChangeOf(two.Of(!who), key) != Sum(0)
    ensures !ActsSerially(store, two, schedule)
  {
    hide Stale, ChangeOf, Told, Interleaved, View, Does, Witness;
    var v := Witness(ChangeOf(two.Of(who), key), ChangeOf(two.Of(!who), key));
    store := map[key.Name() := v];
    StoreOf(key, v);
    var p := View(store);
    StaleIsTold(two, schedule, who, key, v);
    ChangeShows(ChangeOf(two.Of(who), key), ChangeOf(two.Of(!who), key));
    ViewIsTold(store, two, schedule, key);
    DoesChanges(p, two.Of(who), key);
    DoesChanges(p, two.Of(!who), key);
    DoesChanges(Does(p, two.Of(who)), two.Of(!who), key);
    DoesChanges(Does(p, two.Of(!who)), two.Of(who), key);
  }

  lemma TornIsNot(two: Two, schedule: seq<bool>) returns (store: Store)
    requires Complete(two, schedule) && Torn(two, schedule)
    ensures !ActsSerially(store, two, schedule)
  {
    hide Stale, ChangeOf, ActsSerially;
    var who, key :| Stale(two, schedule, who, key) && ChangeOf(two.Of(!who), key) != Sum(0);
    store := TornAt(two, schedule, who, key);
  }

  /** Any two calls, under any interleaving of their operations on the store: they act like one after the other,
      for every store, exactly when no change falls between the other's read and write of the same value. */
  lemma SerialIff(two: Two, schedule: seq<bool>)
    requires Complete(two, schedule)
    ensures (forall store :: ActsSerially(store, two, schedule)) <==> !Torn(two, schedule)
  {
    if Torn(two, schedule) {
      var store := TornIsNot(two, schedule);
    } else {
      forall store ensures ActsSerially(store, two, schedule) { UntornIsSerial(store, two, schedule); }
    }
  }
}
