/** The cache under concurrency: callers that look, miss, and board a flight per key
    (singleflight) whose leader looks again, fills, stores and lands. A body is known by the
    number of the fill that produced it. */
module CacheProtocol {
  import opened Wrappers
  import opened ResponseCache

  /** One run of a fill function. */
  datatype Fill = Fill(key: string, started: int, finished: Option<int>, ok: bool)

  /** What a flight ends with: an entry its leader found live at a moment, or its own fill. */
  datatype Outcome = FromCache(fill: nat, at: int) | FromFill(fill: nat) | FillFailed(fill: nat)

  datatype Stage = Checking | Filling(fill: nat) | Storing(fill: nat) | Landing(out: Outcome)

  datatype Flight = Flight(id: nat, stage: Stage)

  /** `boarded` is the stage in which the caller found its flight: Checking if it opened the
      flight, or needed none because it found a live entry itself. */
  datatype Phase = Calling | Missed | Aboard(flight: nat, boarded: Stage) | Returned(out: Outcome, boarded: Stage)

  datatype Call = Call(key: string, began: int, phase: Phase)

  datatype State = State(now: int, m: Entries<nat>, fills: seq<Fill>, flights: map<string, Flight>, next: nat,
    calls: map<nat, Call>)

  datatype Config = Config(ttl: int, cap: nat)

  datatype Action =
    | Tick(to: int)
    | Begin(c: nat, key: string)
    | Look(c: nat)
    | Board(c: nat)
    | Recheck(key: string)
    | FinishFill(key: string, ok: bool)
    | Store(key: string)
    | Land(key: string)

  function AfterLoad(m: Entries<nat>, key: string, now: int): Entries<nat> {
    if key in m && Seen(m, key, now).None? then m - {key} else m
  }

  function Landed(call: Call, key: string, flight: Flight, out: Outcome): Call {
    if call.key == key && call.phase.Aboard? && call.phase.flight == flight.id
    then call.(phase := Returned(out, call.phase.boarded)) else call
  }

  ghost predicate Looks(s: State, c: nat, s': State) {
    && c in s.calls && s.calls[c].phase == Calling
    && var call := s.calls[c];
       var e := Seen(s.m, call.key, s.now);
       s' == s.(m := AfterLoad(s.m, call.key, s.now),
                calls := s.calls[c := call.(phase := if e.Some? then Returned(FromCache(e.value.body, s.now), Checking)
                                                     else Missed)])
  }

  /** Board the key's flight, or open one. */
  ghost predicate Boards(s: State, c: nat, s': State) {
    && c in s.calls && s.calls[c].phase == Missed
    && var call := s.calls[c];
       if call.key in s.flights then
         s' == s.(calls := s.calls[c := call.(phase := Aboard(s.flights[call.key].id, s.flights[call.key].stage))])
       else
         s' == s.(flights := s.flights[call.key := Flight(s.next, Checking)], next := s.next + 1,
                  calls := s.calls[c := call.(phase := Aboard(s.next, Checking))])
  }

  ghost predicate Rechecks(s: State, key: string, s': State) {
    && key in s.flights && s.flights[key].stage == Checking
    && var e := Seen(s.m, key, s.now);
       if e.Some? then
         s' == s.(flights := s.flights[key := s.flights[key].(stage := Landing(FromCache(e.value.body, s.now)))])
       else
         s' == s.(m := AfterLoad(s.m, key, s.now), fills := s.fills + [Fill(key, s.now, None, false)],
                  flights := s.flights[key := s.flights[key].(stage := Filling(|s.fills|))])
  }

  ghost predicate Finishes(s: State, key: string, ok: bool, s': State) {
    && key in s.flights && s.flights[key].stage.Filling? && s.flights[key].stage.fill < |s.fills|
    && var f := s.flights[key].stage.fill;
       s' == s.(fills := s.fills[f := s.fills[f].(finished := Some(s.now), ok := ok)],
                flights := s.flights[key := s.flights[key].(stage := if ok then Storing(f)
                                                                   else Landing(FillFailed(f)))])
  }

  ghost predicate Stores(cfg: Config, s: State, key: string, s': State) {
    && key in s.flights && s.flights[key].stage.Storing? && s.flights[key].stage.fill < |s.fills|
    && var f := s.flights[key].stage.fill;
    && s.fills[f].finished.Some?
    && Stored(s.m, s'.m, key, Entry(f, s.fills[f].finished.value + cfg.ttl), s.now, cfg.cap)
    && s' == s.(m := s'.m, flights := s.flights[key := s.flights[key].(stage := Landing(FromFill(f)))])
  }

  ghost predicate Lands(s: State, key: string, s': State) {
    && key in s.flights && s.flights[key].stage.Landing?
    && s' == s.(flights := s.flights - {key},
                calls := map c | c in s.calls :: Landed(s.calls[c], key, s.flights[key], s.flights[key].stage.out))
  }

  ghost predicate Next(cfg: Config, s: State, a: Action, s': State) {
    match a
    case Tick(to) => s.now <= to && s' == s.(now := to)
    case Begin(c, key) => c !in s.calls && s' == s.(calls := s.calls[c := Call(key, s.now, Calling)])
    case Look(c) => Looks(s, c, s')
    case Board(c) => Boards(s, c, s')
    case Recheck(key) => Rechecks(s, key, s')
    case FinishFill(key, ok) => Finishes(s, key, ok, s')
    case Store(key) => Stores(cfg, s, key, s')
    case Land(key) => Lands(s, key, s')
  }

  // ---------------------------------------------------------------- what is kept

  ghost predicate Done(fills: seq<Fill>, f: nat, key: string, ok: bool) {
    f < |fills| && fills[f].key == key && fills[f].finished.Some? && fills[f].ok == ok
  }

  /** The answer comes from a fill of the key that is over; an entry was live when found. */
  ghost predicate Sound(cfg: Config, fills: seq<Fill>, key: string, out: Outcome) {
    && Done(fills, out.fill, key, !out.FillFailed?)
    && (out.FromCache? ==> fills[out.fill].finished.value <= out.at < fills[out.fill].finished.value + cfg.ttl)
  }

  function Finish(fills: seq<Fill>, f: nat): int {
    if f < |fills| && fills[f].finished.Some? then fills[f].finished.value else 0
  }

  /** When the answer was produced: the lookup that found it live, or the end of its fill. */
  function DateOf(fills: seq<Fill>, out: Outcome): int { if out.FromCache? then out.at else Finish(fills, out.fill) }

  /** Entries hold bodies of successful fills of their key and expire a lifetime after them. */
  ghost predicate GoodEntries(cfg: Config, s: State) {
    && |s.m| <= cfg.cap
    && forall k :: k in s.m ==>
         Done(s.fills, s.m[k].body, k, true) && s.m[k].expires == s.fills[s.m[k].body].finished.value + cfg.ttl
                                && s.fills[s.m[k].body].finished.value <= s.now
  }

  ghost predicate GoodFlight(cfg: Config, s: State, key: string, flight: Flight) {
    && flight.id < s.next
    && match flight.stage
       case Checking => true
       case Filling(f) => f < |s.fills| && s.fills[f].key == key && s.fills[f].finished.None?
       case Storing(f) => Done(s.fills, f, key, true)
       case Landing(out) => Sound(cfg, s.fills, key, out)
  }

  ghost predicate GoodFlights(cfg: Config, s: State) {
    && (forall k :: k in s.flights ==> GoodFlight(cfg, s, k, s.flights[k]))
    && (forall j, k :: j in s.flights && k in s.flights && j != k ==> s.flights[j].id != s.flights[k].id)
  }

  /** A fill still running is the one of its key's flight. */
  ghost predicate RunningFillsFly(s: State) {
    forall f :: 0 <= f < |s.fills| && s.fills[f].finished.None? ==>
      s.fills[f].key in s.flights && s.flights[s.fills[f].key].stage == Filling(f)
  }

  /** Fills of one key never overlap: the earlier had finished when the later started. */
  ghost predicate NoOverlap(fills: seq<Fill>) {
    forall f, g :: 0 <= f < g < |fills| && fills[f].key == fills[g].key ==>
      fills[f].finished.Some? && fills[f].finished.value <= fills[g].started
  }

  ghost predicate TimesAreReal(s: State) {
    forall f :: 0 <= f < |s.fills| ==>
      && s.fills[f].started <= s.now
      && (s.fills[f].finished.Some? ==> s.fills[f].started <= s.fills[f].finished.value <= s.now)
  }

  /** Where a flight can be that a caller boarded in this stage: a flight boarded before its
      fill was over has its answer still to come, or dated within the call. */
  ghost predicate GotTo(fills: seq<Fill>, began: int, boarded: Stage, stage: Stage) {
    match boarded
    case Storing(f) => stage == Storing(f) || stage == Landing(FromFill(f))
    case Landing(_) => stage == boarded
    case _ =>
      match stage
      case Storing(f) => began <= Finish(fills, f)
      case Landing(out) => began <= DateOf(fills, out)
      case _ => true
  }

  ghost predicate GoodCall(cfg: Config, s: State, call: Call) {
    && call.began <= s.now
    && match call.phase
       case Calling => true
       case Missed => true
       case Aboard(id, boarded) =>
         && call.key in s.flights && s.flights[call.key].id == id
         && GotTo(s.fills, call.began, boarded, s.flights[call.key].stage)
       case Returned(out, boarded) =>
         Sound(cfg, s.fills, call.key, out) && GotTo(s.fills, call.began, boarded, Landing(out))
  }

  ghost predicate Inv(cfg: Config, s: State) {
    && GoodEntries(cfg, s) && GoodFlights(cfg, s) && RunningFillsFly(s) && NoOverlap(s.fills) && TimesAreReal(s)
    && (forall c :: c in s.calls ==> GoodCall(cfg, s, s.calls[c]))
  }

  // ---------------------------------------------------------------- what steps leave alone

  /** Finished fills stay as they are; the others keep their key and start. */
  ghost predicate Grown(a: seq<Fill>, b: seq<Fill>) {
    |a| <= |b| && forall f :: 0 <= f < |a| ==>
      b[f].key == a[f].key && b[f].started == a[f].started && (a[f].finished.Some? ==> b[f] == a[f])
  }

  /** A flight is where it was, or one step on. */
  ghost predicate MovesOn(s: State, s': State, a: Flight, b: Flight) {
    && b.id == a.id
    && (b.stage == a.stage
        || (match a.stage
            case Storing(f) => b.stage == Landing(FromFill(f))
            case Landing(_) => false
            case _ => GotTo(s'.fills, s.now, Checking, b.stage)))
  }

  /** Time goes on, fills grow, and flights keep their number and move on. */
  ghost predicate Later(s: State, s': State) {
    && s.now <= s'.now && s.next <= s'.next && Grown(s.fills, s'.fills)
    && (forall k :: k in s.flights ==> k in s'.flights && MovesOn(s, s', s.flights[k], s'.flights[k]))
  }

  lemma CallStays(cfg: Config, s: State, s': State, call: Call)
    requires Later(s, s') && GoodFlights(cfg, s) && GoodCall(cfg, s, call)
    ensures GoodCall(cfg, s', call)
  {
    if call.phase.Aboard? {
      assert GoodFlight(cfg, s, call.key, s.flights[call.key]);
      assert MovesOn(s, s', s.flights[call.key], s'.flights[call.key]);
    }
  }

  /** An unchanged call list stays good. */
  lemma CallsStay(cfg: Config, s: State, s': State)
    requires Inv(cfg, s) && Later(s, s') && s'.calls == s.calls
    ensures forall c :: c in s'.calls ==> GoodCall(cfg, s', s'.calls[c])
  {
    forall c | c in s'.calls ensures GoodCall(cfg, s', s'.calls[c]) { CallStays(cfg, s, s', s.calls[c]); }
  }

  /** With one flight still good, all are, while the others and their fills stay. */
  lemma FlightsStay(cfg: Config, s: State, s': State, key: string)
    requires GoodFlights(cfg, s) && Later(s, s') && s'.flights.Keys == s.flights.Keys
    requires forall k :: k in s'.flights && k != key ==> s'.flights[k] == s.flights[k]
    requires forall f :: 0 <= f < |s.fills| && s.fills[f].key != key ==> s'.fills[f] == s.fills[f]
    requires key in s'.flights && GoodFlight(cfg, s', key, s'.flights[key])
    ensures GoodFlights(cfg, s')
  {
    forall k | k in s'.flights && k != key ensures GoodFlight(cfg, s', k, s'.flights[k]) {
      assert GoodFlight(cfg, s, k, s.flights[k]);
    }
  }

  // ---------------------------------------------------------------- every step keeps it

  lemma TickKeepsInv(cfg: Config, s: State, a: Action, s': State)
    requires Inv(cfg, s) && Next(cfg, s, a, s') && (a.Tick? || a.Begin?)
    ensures Inv(cfg, s')
  {
    forall k | k in s'.flights ensures GoodFlight(cfg, s', k, s'.flights[k]) { }
    forall c | c in s'.calls ensures GoodCall(cfg, s', s'.calls[c]) {
      if c in s.calls { CallStays(cfg, s, s', s.calls[c]); }
    }
  }

  lemma LookKeepsInv(cfg: Config, s: State, c: nat, s': State)
    requires Inv(cfg, s) && Looks(s, c, s')
    ensures Inv(cfg, s')
  {
    forall k | k in s'.flights ensures GoodFlight(cfg, s', k, s'.flights[k]) { }
    forall d | d in s'.calls ensures GoodCall(cfg, s', s'.calls[d]) {
      if d != c { CallStays(cfg, s, s', s.calls[d]); }
    }
  }

  lemma BoardKeepsInv(cfg: Config, s: State, c: nat, s': State)
    requires Inv(cfg, s) && Boards(s, c, s')
    ensures Inv(cfg, s')
  {
    var key := s.calls[c].key;
    forall k | k in s'.flights ensures GoodFlight(cfg, s', k, s'.flights[k]) {
    }
    forall j, k | j in s'.flights && k in s'.flights && j != k ensures s'.flights[j].id != s'.flights[k].id {
      if j in s.flights { assert GoodFlight(cfg, s, j, s.flights[j]); }
      if k in s.flights { assert GoodFlight(cfg, s, k, s.flights[k]); }
    }
    forall d | d in s'.calls ensures GoodCall(cfg, s', s'.calls[d]) {
      if d != c { CallStays(cfg, s, s', s.calls[d]); } else { assert GoodCall(cfg, s, s.calls[d]); }
    }
  }

  lemma RecheckNoOverlap(cfg: Config, s: State, key: string, s': State)
    requires Inv(cfg, s) && Rechecks(s, key, s')
    ensures NoOverlap(s'.fills) && TimesAreReal(s') && Later(s, s')
  {
    forall f, g | 0 <= f < g < |s'.fills| && s'.fills[f].key == s'.fills[g].key
      ensures s'.fills[f].finished.Some? && s'.fills[f].finished.value <= s'.fills[g].started
    {
    }
  }

  lemma RecheckRunning(cfg: Config, s: State, key: string, s': State)
    requires Inv(cfg, s) && Rechecks(s, key, s')
    ensures RunningFillsFly(s')
  {
  }

  lemma RecheckEntries(cfg: Config, s: State, key: string, s': State)
    requires Inv(cfg, s) && Rechecks(s, key, s') && Later(s, s')
    ensures GoodEntries(cfg, s')
  {
  }

  lemma RecheckKeepsInv(cfg: Config, s: State, key: string, s': State)
    requires Inv(cfg, s) && Rechecks(s, key, s')
    ensures Inv(cfg, s')
  {
    RecheckNoOverlap(cfg, s, key, s');
    RecheckRunning(cfg, s, key, s');
    RecheckEntries(cfg, s, key, s');
    CallsStay(cfg, s, s');
    FlightsStay(cfg, s, s', key);
  }

  lemma FinishFills(cfg: Config, s: State, key: string, ok: bool, s': State)
    requires Inv(cfg, s) && Finishes(s, key, ok, s')
    ensures NoOverlap(s'.fills) && TimesAreReal(s') && RunningFillsFly(s') && Later(s, s')
    ensures forall h :: 0 <= h < |s.fills| && s.fills[h].key != key ==> s'.fills[h] == s.fills[h]
  {
    var f := s.flights[key].stage.fill;
    assert GoodFlight(cfg, s, key, s.flights[key]);
    forall h | 0 <= h < |s'.fills| && s'.fills[h].finished.None?
      ensures s'.fills[h].key in s'.flights && s'.flights[s'.fills[h].key].stage == Filling(h)
    {
      assert s.fills[h].finished.None? && s.flights[s.fills[h].key].stage == Filling(h);
    }
    forall h, g | 0 <= h < g < |s'.fills| && s'.fills[h].key == s'.fills[g].key
      ensures s'.fills[h].finished.Some? && s'.fills[h].finished.value <= s'.fills[g].started
    {
      assert s.fills[h].finished.Some?;
    }
  }

  lemma FinishKeepsInv(cfg: Config, s: State, key: string, ok: bool, s': State)
    requires Inv(cfg, s) && Finishes(s, key, ok, s')
    ensures Inv(cfg, s')
  {
    FinishFills(cfg, s, key, ok, s');
    CallsStay(cfg, s, s');
    FlightsStay(cfg, s, s', key);
  }

  lemma StoredEntriesAreGood(cfg: Config, s: State, key: string, s': State)
    requires Inv(cfg, s) && Stores(cfg, s, key, s')
    ensures GoodEntries(cfg, s')
  {
    assert GoodFlight(cfg, s, key, s.flights[key]);
    forall k | k in s'.m
      ensures Done(s'.fills, s'.m[k].body, k, true)
      ensures s'.m[k].expires == s'.fills[s'.m[k].body].finished.value + cfg.ttl
      ensures s'.fills[s'.m[k].body].finished.value <= s'.now
    {
      if k != key { assert k in s'.m - {key}; }
    }
  }

  lemma StoreFlight(cfg: Config, s: State, key: string, s': State)
    requires Inv(cfg, s) && Stores(cfg, s, key, s')
    ensures GoodFlight(cfg, s', key, s'.flights[key]) && RunningFillsFly(s')
  {
    assert GoodFlight(cfg, s, key, s.flights[key]);
  }

  lemma StoreKeepsInv(cfg: Config, s: State, key: string, s': State)
    requires Inv(cfg, s) && Stores(cfg, s, key, s')
    ensures Inv(cfg, s')
  {
    StoredEntriesAreGood(cfg, s, key, s');
    CallsStay(cfg, s, s');
    StoreFlight(cfg, s, key, s');
    FlightsStay(cfg, s, s', key);
  }

  lemma LandedCallIsGood(cfg: Config, s: State, key: string, s': State, c: nat)
    requires Inv(cfg, s) && Lands(s, key, s') && c in s'.calls
    ensures GoodCall(cfg, s', s'.calls[c])
  {
    assert GoodFlight(cfg, s, key, s.flights[key]);
    assert GoodCall(cfg, s, s.calls[c]);
  }

  lemma LandKeepsInv(cfg: Config, s: State, key: string, s': State)
    requires Inv(cfg, s) && Lands(s, key, s')
    ensures Inv(cfg, s')
  {
    forall k | k in s'.flights ensures GoodFlight(cfg, s', k, s'.flights[k]) {
      assert GoodFlight(cfg, s, k, s.flights[k]);
    }
    forall c | c in s'.calls ensures GoodCall(cfg, s', s'.calls[c]) { LandedCallIsGood(cfg, s, key, s', c); }
  }

  lemma StepKeepsInv(cfg: Config, s: State, a: Action, s': State)
    requires Inv(cfg, s) && Next(cfg, s, a, s')
    ensures Inv(cfg, s')
  {
    match a
    case Tick(_) => TickKeepsInv(cfg, s, a, s');
    case Begin(_, _) => TickKeepsInv(cfg, s, a, s');
    case Look(c) => LookKeepsInv(cfg, s, c, s');
    case Board(c) => BoardKeepsInv(cfg, s, c, s');
    case Recheck(key) => RecheckKeepsInv(cfg, s, key, s');
    case FinishFill(key, ok) => FinishKeepsInv(cfg, s, key, ok, s');
    case Store(key) => StoreKeepsInv(cfg, s, key, s');
    case Land(key) => LandKeepsInv(cfg, s, key, s');
  }

  // ---------------------------------------------------------------- whole runs

  const EMPTY := State(0, map[], [], map[], 0, map[])

  /** The first k actions lead from state to state. */
  ghost predicate Steps(cfg: Config, states: seq<State>, actions: seq<Action>, k: nat)
    requires k <= |actions| < |states|
  {
    k == 0 || (Steps(cfg, states, actions, k - 1) && Next(cfg, states[k - 1], actions[k - 1], states[k]))
  }

  lemma {:induction false} StepAt(cfg: Config, states: seq<State>, actions: seq<Action>, k: nat, i: nat)
    requires i < k <= |actions| < |states| && Steps(cfg, states, actions, k)
    ensures Next(cfg, states[i], actions[i], states[i + 1])
  {
    if i < k - 1 { StepAt(cfg, states, actions, k - 1, i); }
  }

  ghost predicate Run(cfg: Config, states: seq<State>, actions: seq<Action>) {
    && |states| == |actions| + 1 && states[0] == EMPTY
    && Steps(cfg, states, actions, |actions|)
  }

  lemma {:induction false} RunsAreGood(cfg: Config, states: seq<State>, actions: seq<Action>, i: nat)
    requires Run(cfg, states, actions) && i < |states|
    ensures Inv(cfg, states[i])
  {
    if i > 0 {
      RunsAreGood(cfg, states, actions, i - 1);
      StepAt(cfg, states, actions, |actions|, i - 1);
      StepKeepsInv(cfg, states[i - 1], actions[i - 1], states[i]);
    }
  }

  /** The answer to a caller that began then is produced within its call exactly if it found
      the flight before its fill was over, or late but the answer is dated within the call. */
  ghost predicate InTime(fills: seq<Fill>, boarded: Stage, began: int) {
    match boarded
    case Storing(f) => began <= Finish(fills, f)
    case Landing(out) => began <= DateOf(fills, out)
    case _ => true
  }

  /** The same with the lifetime's grace: the fill was over less than a lifetime before. */
  ghost predicate InDate(cfg: Config, fills: seq<Fill>, boarded: Stage, began: int) {
    match boarded
    case Storing(f) => began < Finish(fills, f) + cfg.ttl
    case Landing(out) => began < Finish(fills, out.fill) + cfg.ttl
    case _ => true
  }

  /** In every reachable state: the cache is within its capacity; what it stores are finished,
      successful fills of the key; fills of a key do not overlap; and every answer is from a
      fill of the caller's key, live when found if it was an entry. It was produced within the
      call, and its fill finished within the call or less than a lifetime before it, exactly
      if the stage in which the caller boarded allows it: always before the fill is over. */
  lemma AnswersAreFresh(cfg: Config, states: seq<State>, actions: seq<Action>, i: nat, c: nat)
    requires Run(cfg, states, actions) && i < |states|
    ensures |states[i].m| <= cfg.cap && NoOverlap(states[i].fills)
    ensures forall k :: k in states[i].m ==> Done(states[i].fills, states[i].m[k].body, k, true)
    ensures c in states[i].calls && states[i].calls[c].phase.Returned? ==>
              var call, fills := states[i].calls[c], states[i].fills;
              && Sound(cfg, fills, call.key, call.phase.out)
              && (call.began <= DateOf(fills, call.phase.out) <==> InTime(fills, call.phase.boarded, call.began))
              && (cfg.ttl > 0 ==>
                    (call.began < Finish(fills, call.phase.out.fill) + cfg.ttl <==>
                      InDate(cfg, fills, call.phase.boarded, call.began)))
  {
    RunsAreGood(cfg, states, actions, i);
    if c in states[i].calls { assert GoodCall(cfg, states[i], states[i].calls[c]); }
  }

  // ---------------------------------------------------------------- boarding somebody else's flight

  lemma {:induction false} SameSteps(cfg: Config, states: seq<State>, actions: seq<Action>, a: Action, s': State,
                                     k: nat)
    requires k <= |actions| < |states| && Steps(cfg, states, actions, k)
    ensures Steps(cfg, states + [s'], actions + [a], k)
  {
    if k > 0 { SameSteps(cfg, states, actions, a, s', k - 1); }
  }

  lemma OneMoreStep(cfg: Config, states: seq<State>, actions: seq<Action>, a: Action, s': State)
    requires Run(cfg, states, actions) && Next(cfg, states[|actions|], a, s')
    ensures Run(cfg, states + [s'], actions + [a])
  {
    SameSteps(cfg, states, actions, a, s', |actions|);
  }

  lemma TwoMoreSteps(cfg: Config, states: seq<State>, actions: seq<Action>, a: Action, s1: State, b: Action, s2: State)
    returns (longer: seq<State>, more: seq<Action>)
    requires Run(cfg, states, actions) && Next(cfg, states[|actions|], a, s1) && Next(cfg, s1, b, s2)
    ensures Run(cfg, longer, more) && longer[|more|] == s2
  {
    OneMoreStep(cfg, states, actions, a, s1);
    OneMoreStep(cfg, states + [s1], actions + [a], b, s2);
    longer, more := states + [s1] + [s2], actions + [a] + [b];
  }

  const BRIEF := Config(1, 1)
  const BOTH_MISSED := State(0, map[], [], map[], 0, map[0 := Call("k", 0, Missed), 1 := Call("k", 0, Missed)])
  const FILLED := [Fill("k", 0, Some(0), true)]
  const FIRST_DONE := Call("k", 0, Returned(FromFill(0), Checking))
  const FIRST_SERVED := State(0, map["k" := Entry(0, 1)], FILLED, map[], 1,
    map[0 := FIRST_DONE, 1 := Call("k", 0, Missed)])

  lemma TwoMiss() returns (states: seq<State>, actions: seq<Action>)
    ensures Run(BRIEF, states, actions) && states[|actions|] == BOTH_MISSED
  {
    var s1 := EMPTY.(calls := map[0 := Call("k", 0, Calling)]);
    var s2 := EMPTY.(calls := map[0 := Call("k", 0, Calling), 1 := Call("k", 0, Calling)]);
    var s3 := EMPTY.(calls := map[0 := Call("k", 0, Missed), 1 := Call("k", 0, Calling)]);
    states, actions := TwoMoreSteps(BRIEF, [EMPTY], [], Begin(0, "k"), s1, Begin(1, "k"), s2);
    states, actions := TwoMoreSteps(BRIEF, states, actions, Look(0), s3, Look(1), BOTH_MISSED);
  }

  const FIRST_ABOARD := map[0 := Call("k", 0, Aboard(0, Checking)), 1 := Call("k", 0, Missed)]
  const FIRST_FILLED := State(0, map[], FILLED, map["k" := Flight(0, Storing(0))], 1, FIRST_ABOARD)

  lemma FirstFills() returns (states: seq<State>, actions: seq<Action>)
    ensures Run(BRIEF, states, actions) && states[|actions|] == FIRST_FILLED
  {
    states, actions := TwoMiss();
    var s1 := State(0, map[], [], map["k" := Flight(0, Checking)], 1, FIRST_ABOARD);
    var s2 := State(0, map[], [Fill("k", 0, None, false)], map["k" := Flight(0, Filling(0))], 1, FIRST_ABOARD);
    states, actions := TwoMoreSteps(BRIEF, states, actions, Board(0), s1, Recheck("k"), s2);
    assert Finishes(s2, "k", true, FIRST_FILLED);
    OneMoreStep(BRIEF, states, actions, FinishFill("k", true), FIRST_FILLED);
    states, actions := states + [FIRST_FILLED], actions + [FinishFill("k", true)];
  }

  const FIRST_STORED := State(0, map["k" := Entry(0, 1)], FILLED, map["k" := Flight(0, Landing(FromFill(0)))], 1,
                              FIRST_ABOARD)

  lemma FirstIsStored() returns (states: seq<State>, actions: seq<Action>)
    ensures Run(BRIEF, states, actions) && states[|actions|] == FIRST_STORED
  {
    states, actions := FirstFills();
    StoredAlone(0);
    OneMoreStep(BRIEF, states, actions, Store("k"), FIRST_STORED);
    states, actions := states + [FIRST_STORED], actions + [Store("k")];
  }

  lemma FirstIsServed() returns (states: seq<State>, actions: seq<Action>)
    ensures Run(BRIEF, states, actions) && states[|actions|] == FIRST_SERVED
  {
    states, actions := FirstIsStored();
    OneMoreStep(BRIEF, states, actions, Land("k"), FIRST_SERVED);
    states, actions := states + [FIRST_SERVED], actions + [Land("k")];
  }

  lemma StoredAlone(now: int)
    ensures Stored(map[], map["k" := Entry(0, 1)], "k", Entry(0, 1), now, 1)
  {
    assert map["k" := Entry(0, 1)] - {"k"} == map[];
  }

  const LATE_CALL := Call("k", 5, Returned(FromFill(0), Storing(0)))
  const LATE_CALLS := FIRST_ABOARD[2 := LATE_CALL.(phase := Aboard(0, Storing(0)))]
  const LATE_ABOARD := FIRST_FILLED.(now := 5, calls := LATE_CALLS)

  lemma BoardsAStore() returns (states: seq<State>, actions: seq<Action>)
    ensures Run(BRIEF, states, actions) && states[|actions|] == LATE_ABOARD
  {
    states, actions := FirstFills();
    var s1 := FIRST_FILLED.(now := 5);
    var s2 := s1.(calls := FIRST_ABOARD[2 := Call("k", 5, Calling)]);
    var s3 := s1.(calls := FIRST_ABOARD[2 := Call("k", 5, Missed)]);
    states, actions := TwoMoreSteps(BRIEF, states, actions, Tick(5), s1, Begin(2, "k"), s2);
    states, actions := TwoMoreSteps(BRIEF, states, actions, Look(2), s3, Board(2), LATE_ABOARD);
  }

  /** A caller that boards while a fill that is long over is still being stored may get a body
      that was stale before the caller even began. */
  lemma BoardingAStoreMayBeStale() returns (states: seq<State>, actions: seq<Action>)
    ensures Run(BRIEF, states, actions)
    ensures var s := states[|actions|];
            s.fills == FILLED && FILLED[0].finished.value + BRIEF.ttl < 5 && 2 in s.calls && s.calls[2] == LATE_CALL
  {
    states, actions := BoardsAStore();
    var f := Flight(0, Landing(FromFill(0)));
    var s1 := LATE_ABOARD.(m := map["k" := Entry(0, 1)], flights := map["k" := f]);
    StoredAlone(5);
    var s2 := s1.(flights := s1.flights - {"k"},
      calls := map c | c in LATE_CALLS :: Landed(LATE_CALLS[c], "k", f, FromFill(0)));
    states, actions := TwoMoreSteps(BRIEF, states, actions, Store("k"), s1, Land("k"), s2);
  }

  const SECOND_CALLS := map[0 := FIRST_DONE, 1 := Call("k", 0, Aboard(1, Checking))]
  const LEADER_FOUND := State(5, map["k" := Entry(0, 1)], FILLED, map["k" := Flight(1, Landing(FromCache(0, 0)))], 2,
    SECOND_CALLS)

  lemma LeaderFinds() returns (states: seq<State>, actions: seq<Action>)
    ensures Run(BRIEF, states, actions) && states[|actions|] == LEADER_FOUND
  {
    var before, path := FirstIsServed();
    var s1 := LEADER_FOUND.(now := 0, flights := map["k" := Flight(1, Checking)]);
    var s2 := LEADER_FOUND.(now := 0);
    states, actions := TwoMoreSteps(BRIEF, before, path, Board(1), s1, Recheck("k"), s2);
    OneMoreStep(BRIEF, states, actions, Tick(5), LEADER_FOUND);
    states, actions := states + [LEADER_FOUND], actions + [Tick(5)];
  }

  /** So may one that misses, late enough for the entry to have expired, and boards a flight
      whose leader found that entry while it was live. */
  lemma BoardingMayBeStale() returns (states: seq<State>, actions: seq<Action>)
    ensures Run(BRIEF, states, actions)
    ensures var s := states[|actions|];
            && s.fills == FILLED && FILLED[0].finished.value + BRIEF.ttl < 5
            && 2 in s.calls && s.calls[2] == Call("k", 5, Returned(FromCache(0, 0), Landing(FromCache(0, 0))))
  {
    states, actions := LeaderFinds();
    var f := LEADER_FOUND.flights["k"];
    var s1 := LEADER_FOUND.(calls := SECOND_CALLS[2 := Call("k", 5, Calling)]);
    var s2 := s1.(m := map[], calls := SECOND_CALLS[2 := Call("k", 5, Missed)]);
    var s3 := s2.(calls := SECOND_CALLS[2 := Call("k", 5, Aboard(1, f.stage))]);
    var s4 := s3.(flights := s3.flights - {"k"},
      calls := map c | c in s3.calls :: Landed(s3.calls[c], "k", f, FromCache(0, 0)));
    assert map["k" := Entry(0, 1)] - {"k"} == map[];
    states, actions := TwoMoreSteps(BRIEF, states, actions, Begin(2, "k"), s1, Look(2), s2);
    states, actions := TwoMoreSteps(BRIEF, states, actions, Board(2), s3, Land("k"), s4);
  }
}
