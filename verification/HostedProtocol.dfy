/** Hosted sessions under concurrent polls: a lock per session, one Plaid call and one
    completion at a time, and public tokens that can be exchanged once. */
module HostedProtocol {
  import opened Wrappers

  /** A final answer; a completion knows the public token it exchanged, if it was one. */
  datatype Final = Completed(token: Option<string>) | Exited | Expired

  datatype Session = Session(expiration: int, update: bool, done: Option<Final>, holder: Option<nat>)

  datatype Reply = UnknownSession | Failure | Pending | Settled(final: Final)

  /** Where a poll is: waiting for the lock, holding it, asking Plaid, exchanging, storing the
      credential it got, enriching the stored item, re-activating the item, or answered. */
  datatype Phase =
    | Waiting
    | Entered
    | Asking
    | Exchanging(token: string)
    | Linking(token: string)
    | Enriching(token: string)
    | Relinking
    | Replied(reply: Reply)

  datatype Poll = Poll(sid: nat, phase: Phase)

  /** What became of an exchanged public token: its item is still to be stored, stored and
      still to be reported, reported, stored but never reported, or never stored. */
  datatype Use = Use(poll: nat, sid: nat, fate: Fate)

  datatype Fate = UnderWay | Kept | Reported | Unreported | Lost {
    /** Still in the hands of the poll that exchanged the token. */
    predicate Open() { UnderWay? || Kept? }

    /** The item's credential is in the database. */
    predicate Stored() { Kept? || Reported? || Unreported? }
  }

  datatype State = State(now: int, sessions: seq<Session>, table: map<string, nat>, polls: map<nat, Poll>,
    uses: map<string, Use>)

  const SIX_HOURS := 6 * 60 * 60

  datatype Answer = NotKnown | Broken | Unfinished | UserExited | Finished(token: Option<string>)

  datatype Action =
    | Tick(to: int)
    | Add(link: string, update: bool, expiration: int)
    | Arrive(p: nat, link: string)
    | Acquire(p: nat)
    | Check(p: nat)
    | Answered(p: nat, answer: Answer)
    | Exchange(p: nat, ok: bool)
    | ExchangeLost(p: nat)
    | StoreLink(p: nat, ok: bool)
    | Report(p: nat, ok: bool)
    | Relink(p: nat, ok: bool)

  /** The poll answers, lets go of the lock and, for a final answer, leaves it behind. */
  function Answers(s: State, p: nat, reply: Reply): State
    requires p in s.polls && s.polls[p].sid < |s.sessions|
  {
    var poll := s.polls[p];
    var h := s.sessions[poll.sid];
    var done := if reply.Settled? then Some(reply.final) else h.done;
    s.(polls := s.polls[p := poll.(phase := Replied(reply))],
      sessions := s.sessions[poll.sid := h.(done := done, holder := None)])
  }

  function Moves(s: State, p: nat, phase: Phase): State
    requires p in s.polls
  {
    s.(polls := s.polls[p := s.polls[p].(phase := phase)])
  }

  predicate At(s: State, p: nat, phase: Phase) {
    p in s.polls && s.polls[p].sid < |s.sessions| && s.polls[p].phase == phase
  }

  ghost predicate Adds(s: State, link: string, update: bool, expiration: int, s': State) {
    && link !in s.table
    && s' == s.(sessions := s.sessions + [Session(expiration, update, None, None)],
                table := (map l | l in s.table
                            && (s.table[l] < |s.sessions| ==> s.sessions[s.table[l]].expiration >= s.now - SIX_HOURS)
                            :: s.table[l])[link := |s.sessions|])
  }

  ghost predicate Arrives(s: State, p: nat, link: string, s': State) {
    && p !in s.polls
    && s' == s.(polls := s.polls[p := if link in s.table then Poll(s.table[link], Waiting)
                                      else Poll(0, Replied(UnknownSession))])
  }

  ghost predicate Acquires(s: State, p: nat, s': State) {
    && At(s, p, Waiting) && s.sessions[s.polls[p].sid].holder.None?
    && var sid := s.polls[p].sid;
       s' == Moves(s.(sessions := s.sessions[sid := s.sessions[sid].(holder := Some(p))]), p, Entered)
  }

  ghost predicate Checks(s: State, p: nat, s': State) {
    && At(s, p, Entered)
    && var h := s.sessions[s.polls[p].sid];
       s' == if h.done.Some? then Answers(s, p, Settled(h.done.value))
             else if s.now > h.expiration then Answers(s, p, Settled(Expired))
             else Moves(s, p, Asking)
  }

  ghost predicate IsAnswered(s: State, p: nat, answer: Answer, s': State) {
    && At(s, p, Asking)
    && var h := s.sessions[s.polls[p].sid];
       match answer
       case NotKnown => s' == Answers(s, p, Settled(Expired))
       case Broken => s' == Answers(s, p, Failure)
       case Unfinished => s' == Answers(s, p, Pending)
       case UserExited => s' == Answers(s, p, Settled(Exited))
       case Finished(Some(token)) => s' == Moves(s, p, Exchanging(token))
       case Finished(None) => s' == if h.update then Moves(s, p, Relinking) else Answers(s, p, Failure)
  }

  /** A public token can be exchanged once; a failed attempt uses nothing. */
  ghost predicate Exchanges(s: State, p: nat, ok: bool, s': State) {
    && p in s.polls && s.polls[p].sid < |s.sessions| && s.polls[p].phase.Exchanging?
    && var token := s.polls[p].phase.token;
       if ok then
         && token !in s.uses
         && s' == Moves(s, p, Linking(token)).(uses := s.uses[token := Use(p, s.polls[p].sid, UnderWay)])
       else s' == Answers(s, p, Failure)
  }

  /** Plaid exchanged the token but the answer never arrived. */
  ghost predicate LosesExchange(s: State, p: nat, s': State) {
    && p in s.polls && s.polls[p].sid < |s.sessions| && s.polls[p].phase.Exchanging?
    && var token := s.polls[p].phase.token;
       token !in s.uses && s' == Answers(s.(uses := s.uses[token := Use(p, s.polls[p].sid, Lost)]), p, Failure)
  }

  /** The exchanged credential is encrypted and stored, or lost. */
  ghost predicate StoresLink(s: State, p: nat, ok: bool, s': State) {
    && p in s.polls && s.polls[p].sid < |s.sessions| && s.polls[p].phase.Linking? && s.polls[p].phase.token in s.uses
    && var token := s.polls[p].phase.token;
       if ok then s' == Moves(s, p, Enriching(token)).(uses := s.uses[token := s.uses[token].(fate := Kept)])
       else s' == Answers(s.(uses := s.uses[token := s.uses[token].(fate := Lost)]), p, Failure)
  }

  /** The stored item is enriched and reported, or one of the steps in between fails. */
  ghost predicate Reports(s: State, p: nat, ok: bool, s': State) {
    && p in s.polls && s.polls[p].sid < |s.sessions| && s.polls[p].phase.Enriching? && s.polls[p].phase.token in s.uses
    && var token := s.polls[p].phase.token;
       s' == Answers(s.(uses := s.uses[token := s.uses[token].(fate := if ok then Reported else Unreported)]), p,
                     if ok then Settled(Completed(Some(token))) else Failure)
  }

  ghost predicate Relinks(s: State, p: nat, ok: bool, s': State) {
    At(s, p, Relinking) && s' == Answers(s, p, if ok then Settled(Completed(None)) else Failure)
  }

  ghost predicate Next(s: State, a: Action, s': State) {
    match a
    case Tick(to) => s.now <= to && s' == s.(now := to)
    case Add(link, update, expiration) => Adds(s, link, update, expiration, s')
    case Arrive(p, link) => Arrives(s, p, link, s')
    case Acquire(p) => Acquires(s, p, s')
    case Check(p) => Checks(s, p, s')
    case Answered(p, answer) => IsAnswered(s, p, answer, s')
    case Exchange(p, ok) => Exchanges(s, p, ok, s')
    case ExchangeLost(p) => LosesExchange(s, p, s')
    case StoreLink(p, ok) => StoresLink(s, p, ok, s')
    case Report(p, ok) => Reports(s, p, ok, s')
    case Relink(p, ok) => Relinks(s, p, ok, s')
  }

  // ---------------------------------------------------------------- what is kept

  predicate Inside(phase: Phase) { !phase.Waiting? && !phase.Replied? }

  /** Beyond its own check of the session. */
  predicate Deep(phase: Phase) { Inside(phase) && !phase.Entered? }

  ghost predicate GoodPoll(s: State, p: nat, poll: Poll) {
    && (poll.phase == Replied(UnknownSession) || poll.sid < |s.sessions|)
    && (Inside(poll.phase) ==> s.sessions[poll.sid].holder == Some(p))
    && (Deep(poll.phase) ==> s.sessions[poll.sid].done.None?)
    && (poll.phase.Linking? ==> poll.phase.token in s.uses && s.uses[poll.phase.token] == Use(p, poll.sid, UnderWay))
    && (poll.phase.Enriching? ==> poll.phase.token in s.uses && s.uses[poll.phase.token] == Use(p, poll.sid, Kept))
    && (poll.phase.Replied? && poll.phase.reply.Settled? ==> s.sessions[poll.sid].done == Some(poll.phase.reply.final))
  }

  ghost predicate GoodSession(s: State, sid: nat)
    requires sid < |s.sessions|
  {
    var h := s.sessions[sid];
    && (h.holder.Some? ==>
          && h.holder.value in s.polls && s.polls[h.holder.value].sid == sid
          && Inside(s.polls[h.holder.value].phase))
    && (h.done.Some? && h.done.value.Completed? && h.done.value.token.Some? ==>
          h.done.value.token.value in s.uses && s.uses[h.done.value.token.value].sid == sid
          && s.uses[h.done.value.token.value].fate == Reported)
  }

  ghost predicate Inv(s: State) {
    && (forall l :: l in s.table ==> s.table[l] < |s.sessions|)
    && (forall p :: p in s.polls ==> GoodPoll(s, p, s.polls[p]))
    && (forall sid :: 0 <= sid < |s.sessions| ==> GoodSession(s, sid))
  }

  // ---------------------------------------------------------------- every step keeps it

  /** Everything is good but perhaps the poll that holds its session's lock. */
  ghost predicate InvBut(s: State, p: nat) {
    && (forall l :: l in s.table ==> s.table[l] < |s.sessions|)
    && (forall q :: q in s.polls && q != p ==> GoodPoll(s, q, s.polls[q]))
    && (forall sid :: 0 <= sid < |s.sessions| ==> GoodSession(s, sid))
    && p in s.polls && Inside(s.polls[p].phase) && s.polls[p].sid < |s.sessions|
    && s.sessions[s.polls[p].sid].holder == Some(p)
  }

  /** An answer that agrees with what is remembered. */
  ghost predicate Fits(s: State, sid: nat, reply: Reply)
    requires sid < |s.sessions|
  {
    reply.Settled? ==>
      && (s.sessions[sid].done.None? || s.sessions[sid].done == Some(reply.final))
      && (reply.final.Completed? && reply.final.token.Some? ==>
            reply.final.token.value in s.uses && s.uses[reply.final.token.value].sid == sid
            && s.uses[reply.final.token.value].fate == Reported)
  }

  lemma AnswersKeep(s: State, p: nat, reply: Reply)
    requires InvBut(s, p) && Fits(s, s.polls[p].sid, reply)
    ensures Inv(Answers(s, p, reply))
  {
    var s' := Answers(s, p, reply);
    forall sid | 0 <= sid < |s'.sessions| ensures GoodSession(s', sid) {
      assert GoodSession(s, sid);
    }
  }

  lemma MovesKeep(s: State, p: nat, phase: Phase)
    requires InvBut(s, p) && Inside(phase)
    requires Deep(phase) ==> s.sessions[s.polls[p].sid].done.None?
    requires phase.Linking? ==> phase.token in s.uses && s.uses[phase.token] == Use(p, s.polls[p].sid, UnderWay)
    requires phase.Enriching? ==> phase.token in s.uses && s.uses[phase.token] == Use(p, s.polls[p].sid, Kept)
    ensures Inv(Moves(s, p, phase))
  {
    var s' := Moves(s, p, phase);
    forall q | q in s'.polls ensures GoodPoll(s', q, s'.polls[q]) {
      if q != p { assert GoodPoll(s, q, s.polls[q]); }
    }
    forall sid | 0 <= sid < |s'.sessions| ensures GoodSession(s', sid) { assert GoodSession(s, sid); }
  }

  lemma TickKeepsInv(s: State, to: int)
    requires Inv(s)
    ensures Inv(s.(now := to))
  {
    var s' := s.(now := to);
    forall q | q in s'.polls ensures GoodPoll(s', q, s'.polls[q]) { assert GoodPoll(s, q, s.polls[q]); }
    forall sid | 0 <= sid < |s'.sessions| ensures GoodSession(s', sid) { assert GoodSession(s, sid); }
  }

  lemma AddKeepsInv(s: State, link: string, update: bool, expiration: int, s': State)
    requires Inv(s) && Adds(s, link, update, expiration, s')
    ensures Inv(s')
  {
    forall q | q in s'.polls ensures GoodPoll(s', q, s'.polls[q]) { assert GoodPoll(s, q, s.polls[q]); }
    forall sid | 0 <= sid < |s'.sessions| ensures GoodSession(s', sid) {
      if sid < |s.sessions| { assert GoodSession(s, sid); }
    }
  }

  lemma ArriveKeepsInv(s: State, p: nat, link: string, s': State)
    requires Inv(s) && Arrives(s, p, link, s')
    ensures Inv(s')
  {
    forall q | q in s'.polls ensures GoodPoll(s', q, s'.polls[q]) {
      if q != p { assert GoodPoll(s, q, s.polls[q]); }
    }
    forall sid | 0 <= sid < |s'.sessions| ensures GoodSession(s', sid) { assert GoodSession(s, sid); }
  }

  lemma AcquireKeepsInv(s: State, p: nat, s': State)
    requires Inv(s) && Acquires(s, p, s')
    ensures Inv(s')
  {
    forall q | q in s'.polls ensures GoodPoll(s', q, s'.polls[q]) {
      if q != p { assert GoodPoll(s, q, s.polls[q]); }
    }
    forall sid | 0 <= sid < |s'.sessions| ensures GoodSession(s', sid) { assert GoodSession(s, sid); }
  }

  lemma CheckKeepsInv(s: State, p: nat, s': State)
    requires Inv(s) && Checks(s, p, s')
    ensures Inv(s')
  {
    var h := s.sessions[s.polls[p].sid];
    assert GoodSession(s, s.polls[p].sid);
    if h.done.Some? {
      AnswersKeep(s, p, Settled(h.done.value));
    } else if s.now > h.expiration {
      AnswersKeep(s, p, Settled(Expired));
    } else {
      MovesKeep(s, p, Asking);
    }
  }

  lemma AnsweredKeepsInv(s: State, p: nat, answer: Answer, s': State)
    requires Inv(s) && IsAnswered(s, p, answer, s')
    ensures Inv(s')
  {
    match answer
    case NotKnown => AnswersKeep(s, p, Settled(Expired));
    case Broken => AnswersKeep(s, p, Failure);
    case Unfinished => AnswersKeep(s, p, Pending);
    case UserExited => AnswersKeep(s, p, Settled(Exited));
    case Finished(Some(token)) => MovesKeep(s, p, Exchanging(token));
    case Finished(None) =>
      if s.sessions[s.polls[p].sid].update { MovesKeep(s, p, Relinking); } else { AnswersKeep(s, p, Failure); }
  }

  /** Recording the fate of a token a poll is exchanging or storing disturbs nobody else. */
  lemma UseKeepsRest(s: State, p: nat, token: string, use: Use)
    requires Inv(s) && p in s.polls && Inside(s.polls[p].phase)
    requires token in s.uses ==>
               s.uses[token].poll == p && s.uses[token].sid == s.polls[p].sid && s.uses[token].fate.Open()
    ensures InvBut(s.(uses := s.uses[token := use]), p)
  {
    var s' := s.(uses := s.uses[token := use]);
    forall q | q in s'.polls && q != p ensures GoodPoll(s', q, s'.polls[q]) { assert GoodPoll(s, q, s.polls[q]); }
    forall sid | 0 <= sid < |s'.sessions| ensures GoodSession(s', sid) { assert GoodSession(s, sid); }
  }

  lemma ExchangeKeepsInv(s: State, p: nat, ok: bool, s': State)
    requires Inv(s) && Exchanges(s, p, ok, s')
    ensures Inv(s')
  {
    if ok {
      var token, use := s.polls[p].phase.token, Use(p, s.polls[p].sid, UnderWay);
      UseKeepsRest(s, p, token, use);
      MovesKeep(s.(uses := s.uses[token := use]), p, Linking(token));
    } else {
      AnswersKeep(s, p, Failure);
    }
  }

  lemma StoreKeepsInv(s: State, p: nat, ok: bool, s': State)
    requires Inv(s) && StoresLink(s, p, ok, s')
    ensures Inv(s')
  {
    var token := s.polls[p].phase.token;
    var use := s.uses[token].(fate := if ok then Kept else Lost);
    UseKeepsRest(s, p, token, use);
    if ok { MovesKeep(s.(uses := s.uses[token := use]), p, Enriching(token)); }
    else { AnswersKeep(s.(uses := s.uses[token := use]), p, Failure); }
  }

  lemma ReportKeepsInv(s: State, p: nat, ok: bool, s': State)
    requires Inv(s) && Reports(s, p, ok, s')
    ensures Inv(s')
  {
    var token := s.polls[p].phase.token;
    var use := s.uses[token].(fate := if ok then Reported else Unreported);
    UseKeepsRest(s, p, token, use);
    AnswersKeep(s.(uses := s.uses[token := use]), p, if ok then Settled(Completed(Some(token))) else Failure);
  }

  lemma LoseKeepsInv(s: State, p: nat, s': State)
    requires Inv(s) && LosesExchange(s, p, s')
    ensures Inv(s')
  {
    var token, use := s.polls[p].phase.token, Use(p, s.polls[p].sid, Lost);
    UseKeepsRest(s, p, token, use);
    AnswersKeep(s.(uses := s.uses[token := use]), p, Failure);
  }

  lemma StepKeepsInv(s: State, a: Action, s': State)
    requires Inv(s) && Next(s, a, s')
    ensures Inv(s')
  {
    match a
    case Tick(to) => TickKeepsInv(s, to);
    case Add(link, update, expiration) => AddKeepsInv(s, link, update, expiration, s');
    case Arrive(p, link) => ArriveKeepsInv(s, p, link, s');
    case Acquire(p) => AcquireKeepsInv(s, p, s');
    case Check(p) => CheckKeepsInv(s, p, s');
    case Answered(p, answer) => AnsweredKeepsInv(s, p, answer, s');
    case Exchange(p, ok) => ExchangeKeepsInv(s, p, ok, s');
    case ExchangeLost(p) => LoseKeepsInv(s, p, s');
    case StoreLink(p, ok) => StoreKeepsInv(s, p, ok, s');
    case Report(p, ok) => ReportKeepsInv(s, p, ok, s');
    case Relink(p, ok) =>
      AnswersKeep(s, p, if ok then Settled(Completed(None)) else Failure);
  }

  // ---------------------------------------------------------------- what a step may change

  /** A remembered answer stays; a token that was exchanged stays exchanged, by the same poll,
      and once its poll is done with it its fate stays, and so does its item once stored; an
      answered poll stays answered. */
  ghost predicate Keeps(s: State, s': State) {
    && |s.sessions| <= |s'.sessions|
    && (forall sid :: 0 <= sid < |s.sessions| && s.sessions[sid].done.Some? ==>
        s'.sessions[sid].done == s.sessions[sid].done)
    && (forall t :: t in s.uses ==> t in s'.uses && s'.uses[t].poll == s.uses[t].poll && s'.uses[t].sid == s.uses[t].sid
                                    && (!s.uses[t].fate.Open() ==> s'.uses[t] == s.uses[t])
                                    && (s.uses[t].fate.Stored() ==> s'.uses[t].fate.Stored()))
    && (forall p :: p in s.polls ==> p in s'.polls && s'.polls[p].sid == s.polls[p].sid
                                     && (s.polls[p].phase.Replied? ==> s'.polls[p] == s.polls[p]))
  }

  lemma CheckKeeps(s: State, p: nat, s': State)
    requires Inv(s) && Checks(s, p, s')
    ensures Keeps(s, s')
  {
    assert GoodSession(s, s.polls[p].sid);
  }

  lemma AnsweredKeeps(s: State, p: nat, answer: Answer, s': State)
    requires Inv(s) && IsAnswered(s, p, answer, s')
    ensures Keeps(s, s')
  {
    assert GoodSession(s, s.polls[p].sid);
  }

  lemma StoreKeeps(s: State, p: nat, ok: bool, s': State)
    requires Inv(s) && (StoresLink(s, p, ok, s') || Reports(s, p, ok, s'))
    ensures Keeps(s, s')
  {
    assert GoodPoll(s, p, s.polls[p]);
  }

  lemma StepKeeps(s: State, a: Action, s': State)
    requires Inv(s) && Next(s, a, s')
    ensures Keeps(s, s')
  {
    match a
    case Check(p) => CheckKeeps(s, p, s');
    case Answered(p, answer) => AnsweredKeeps(s, p, answer, s');
    case StoreLink(p, ok) => StoreKeeps(s, p, ok, s');
    case Report(p, ok) => StoreKeeps(s, p, ok, s');
    case _ =>
  }

  /** A step that talks to Plaid about a session or completes it. */
  predicate Works(s: State, a: Action, sid: nat) {
    match a
    case Answered(p, _) => p in s.polls && s.polls[p].sid == sid
    case Exchange(p, _) => p in s.polls && s.polls[p].sid == sid
    case ExchangeLost(p) => p in s.polls && s.polls[p].sid == sid
    case StoreLink(p, _) => p in s.polls && s.polls[p].sid == sid
    case Report(p, _) => p in s.polls && s.polls[p].sid == sid
    case Relink(p, _) => p in s.polls && s.polls[p].sid == sid
    case _ => false
  }

  /** The poll has the session's lock. */
  predicate Working(s: State, p: nat, sid: nat) { p in s.polls && Inside(s.polls[p].phase) && s.polls[p].sid == sid }

  /** Once a session has its final answer nobody calls Plaid for it or completes it again, and
      two polls are never beyond the lock together. */
  lemma SettledMeansNoWork(s: State, a: Action, s': State, sid: nat)
    requires Inv(s) && Next(s, a, s') && sid < |s.sessions|
    ensures s.sessions[sid].done.Some? ==> !Works(s, a, sid)
    ensures forall p, q :: Working(s, p, sid) && Working(s, q, sid) ==> p == q
  {
    if Works(s, a, sid) { assert GoodPoll(s, a.p, s.polls[a.p]); }
    forall p, q | Working(s, p, sid) && Working(s, q, sid) ensures p == q {
      assert GoodPoll(s, p, s.polls[p]) && GoodPoll(s, q, s.polls[q]);
    }
  }

  // ---------------------------------------------------------------- whole runs

  /** The first k actions lead from state to state. */
  ghost predicate Steps(states: seq<State>, actions: seq<Action>, k: nat)
    requires k <= |actions| < |states|
  {
    k == 0 || (Steps(states, actions, k - 1) && Next(states[k - 1], actions[k - 1], states[k]))
  }

  lemma {:induction false} StepAt(states: seq<State>, actions: seq<Action>, k: nat, i: nat)
    requires i < k <= |actions| < |states| && Steps(states, actions, k)
    ensures Next(states[i], actions[i], states[i + 1])
  {
    if i < k - 1 { StepAt(states, actions, k - 1, i); }
  }

  ghost predicate Run(states: seq<State>, actions: seq<Action>) {
    && |states| == |actions| + 1 && states[0] == State(0, [], map[], map[], map[])
    && Steps(states, actions, |actions|)
  }

  lemma {:induction false} RunsAreGood(states: seq<State>, actions: seq<Action>, i: nat)
    requires Run(states, actions) && i < |states|
    ensures Inv(states[i])
  {
    if i > 0 {
      RunsAreGood(states, actions, i - 1);
      StepAt(states, actions, |actions|, i - 1);
      StepKeepsInv(states[i - 1], actions[i - 1], states[i]);
    }
  }

  ghost predicate SameDone(s: State, s': State, sid: nat)
    requires sid < |s.sessions|
  {
    sid < |s'.sessions| && s'.sessions[sid].done == s.sessions[sid].done
  }

  ghost predicate SameUse(s: State, s': State, token: string)
    requires token in s.uses
  {
    && token in s'.uses && s'.uses[token].poll == s.uses[token].poll && s'.uses[token].sid == s.uses[token].sid
    && (!s.uses[token].fate.Open() ==> s'.uses[token] == s.uses[token])
    && (s.uses[token].fate.Stored() ==> s'.uses[token].fate.Stored())
  }

  lemma OneStepKeeps(states: seq<State>, actions: seq<Action>, i: nat, sid: nat, token: string)
    requires Run(states, actions) && i < |actions|
    ensures sid < |states[i].sessions| && states[i].sessions[sid].done.Some? ==> SameDone(states[i], states[i + 1], sid)
    ensures token in states[i].uses ==> SameUse(states[i], states[i + 1], token)
  {
    RunsAreGood(states, actions, i);
    StepAt(states, actions, |actions|, i);
    StepKeeps(states[i], actions[i], states[i + 1]);
  }

  lemma {:induction false} DoneStays(states: seq<State>, actions: seq<Action>, i: nat, j: nat, sid: nat)
    requires Run(states, actions) && i <= j < |states| && sid < |states[i].sessions|
    requires states[i].sessions[sid].done.Some?
    ensures SameDone(states[i], states[j], sid)
  {
    if i < j {
      DoneStays(states, actions, i, j - 1, sid);
      OneStepKeeps(states, actions, j - 1, sid, "");
    }
  }

  lemma {:induction false} UseStays(states: seq<State>, actions: seq<Action>, i: nat, j: nat, token: string)
    requires Run(states, actions) && i <= j < |states| && token in states[i].uses
    ensures SameUse(states[i], states[j], token)
  {
    if i < j {
      UseStays(states, actions, i, j - 1, token);
      OneStepKeeps(states, actions, j - 1, 0, token);
    }
  }

  /** A poll of the session that is not answered otherwise than with this final answer, nor on
      its way to Plaid. */
  ghost predicate HeadsFor(s: State, p: nat, sid: nat, final: Final) {
    p in s.polls && s.polls[p].sid == sid ==>
      s.polls[p].phase in {Waiting, Entered, Replied(UnknownSession), Replied(Settled(final))}
  }

  lemma StepHeadsFor(s: State, a: Action, s': State, p: nat, sid: nat, final: Final)
    requires Inv(s) && Next(s, a, s') && sid < |s.sessions| && s.sessions[sid].done == Some(final)
    requires HeadsFor(s, p, sid, final)
    ensures HeadsFor(s', p, sid, final)
  {
    if p in s.polls { assert GoodPoll(s, p, s.polls[p]); }
  }

  lemma {:induction false} LaterPollsHeadForIt(states: seq<State>, actions: seq<Action>, i: nat, j: nat, sid: nat,
                                               final: Final, p: nat)
    requires Run(states, actions) && i <= j < |states| && sid < |states[i].sessions|
    requires states[i].sessions[sid].done == Some(final)
    requires HeadsFor(states[i], p, sid, final)
    ensures HeadsFor(states[j], p, sid, final)
  {
    if i < j {
      LaterPollsHeadForIt(states, actions, i, j - 1, sid, final, p);
      DoneStays(states, actions, i, j - 1, sid);
      RunsAreGood(states, actions, j - 1);
      StepAt(states, actions, |actions|, j - 1);
      StepHeadsFor(states[j - 1], actions[j - 1], states[j], p, sid, final);
    }
  }

  predicate NotYetAnswered(s: State, p: nat) { p in s.polls ==> !s.polls[p].phase.Replied? }

  /** In any interleaving: a recorded final answer never changes; no poll that is answered with
      a final answer gets another; and a poll that comes later, or has no answer yet, never
      asks Plaid and is answered with that one, if it is answered and finds the session. */
  lemma FinalAnswerIsForever(states: seq<State>, actions: seq<Action>, i: nat, j: nat, sid: nat, final: Final, p: nat)
    requires Run(states, actions) && i <= j < |states| && sid < |states[i].sessions|
    requires states[i].sessions[sid].done == Some(final)
    ensures sid < |states[j].sessions| && states[j].sessions[sid].done == Some(final)
    ensures p in states[j].polls && states[j].polls[p].sid == sid ==>
              var phase := states[j].polls[p].phase;
              && (phase.Replied? && phase.reply.Settled? ==> phase.reply.final == final)
              && (NotYetAnswered(states[i], p) ==>
                phase in {Waiting, Entered, Replied(UnknownSession), Replied(Settled(final))})
  {
    DoneStays(states, actions, i, j, sid);
    RunsAreGood(states, actions, i);
    RunsAreGood(states, actions, j);
    if p in states[j].polls { assert GoodPoll(states[j], p, states[j].polls[p]); }
    if NotYetAnswered(states[i], p) {
      if p in states[i].polls { assert GoodPoll(states[i], p, states[i].polls[p]); }
      LaterPollsHeadForIt(states, actions, i, j, sid, final, p);
    }
  }

  /** A token that was exchanged without its session being completed is spent, whether its item
      is stored or not: no session ever completes with it. A session that completed with a
      token is the one whose poll exchanged it, and its item is stored. */
  lemma SpentTokenNeverCompletes(states: seq<State>, actions: seq<Action>, i: nat, j: nat, token: string, sid: nat)
    requires Run(states, actions) && i <= j < |states| && token in states[i].uses && sid < |states[j].sessions|
    ensures states[j].sessions[sid].done == Some(Completed(Some(token))) ==>
              && states[i].uses[token].fate != Lost && states[i].uses[token].fate != Unreported
              && states[i].uses[token].sid == sid && token in states[j].uses && states[j].uses[token].fate.Stored()
  {
    UseStays(states, actions, i, j, token);
    RunsAreGood(states, actions, j);
    assert GoodSession(states[j], sid);
  }

  // ---------------------------------------------------------------- longer runs

  lemma {:induction false} SameSteps(states: seq<State>, actions: seq<Action>, a: Action, s': State, k: nat)
    requires k <= |actions| < |states| && Steps(states, actions, k)
    ensures Steps(states + [s'], actions + [a], k)
  {
    if k > 0 { SameSteps(states, actions, a, s', k - 1); }
  }

  lemma OneMoreStep(states: seq<State>, actions: seq<Action>, a: Action, s': State)
    returns (longer: seq<State>, more: seq<Action>)
    requires Run(states, actions) && Next(states[|actions|], a, s')
    ensures Run(longer, more) && longer[|more|] == s'
  {
    SameSteps(states, actions, a, s', |actions|);
    longer, more := states + [s'], actions + [a];
  }

  // ---------------------------------------------------------------- when a retry can complete

  /** A token still under way is in the hands of its poll, and a reported one is its session's
      answer. */
  ghost predicate GoodUse(s: State, token: string)
    requires token in s.uses
  {
    var u := s.uses[token];
    && u.sid < |s.sessions|
    && (u.fate.UnderWay? ==> u.poll in s.polls && s.polls[u.poll] == Poll(u.sid, Linking(token)))
    && (u.fate.Kept? ==> u.poll in s.polls && s.polls[u.poll] == Poll(u.sid, Enriching(token)))
    && (u.fate.Reported? ==> s.sessions[u.sid].done == Some(Completed(Some(token))))
  }

  ghost predicate UsesAreGood(s: State) { forall token :: token in s.uses ==> GoodUse(s, token) }

  lemma ExchangeKeepsUse(s: State, a: Action, s': State, token: string)
    requires Inv(s) && UsesAreGood(s) && Next(s, a, s') && token in s'.uses && (a.Exchange? || a.ExchangeLost?)
    ensures GoodUse(s', token)
  {
    if token in s.uses { assert GoodUse(s, token); }
    assert GoodPoll(s, a.p, s.polls[a.p]);
  }

  lemma StoreKeepsUse(s: State, p: nat, ok: bool, s': State, token: string)
    requires Inv(s) && UsesAreGood(s) && (StoresLink(s, p, ok, s') || Reports(s, p, ok, s')) && token in s'.uses
    ensures GoodUse(s', token)
  {
    assert GoodUse(s, token);
    assert GoodPoll(s, p, s.polls[p]);
  }

  /** A step that touches no token and no poll that holds one. */
  lemma OtherKeepsUse(s: State, s': State, token: string)
    requires UsesAreGood(s) && Keeps(s, s') && s'.uses == s.uses && token in s'.uses
    requires forall p :: p in s.polls && (s.polls[p].phase.Linking? || s.polls[p].phase.Enriching?) ==>
                           s'.polls[p] == s.polls[p]
    ensures GoodUse(s', token)
  {
    assert GoodUse(s, token);
  }

  lemma CheckKeepsUse(s: State, p: nat, s': State, token: string)
    requires Inv(s) && UsesAreGood(s) && Checks(s, p, s') && token in s'.uses
    ensures GoodUse(s', token)
  {
    CheckKeeps(s, p, s');
    OtherKeepsUse(s, s', token);
  }

  lemma AnsweredKeepsUse(s: State, p: nat, answer: Answer, s': State, token: string)
    requires Inv(s) && UsesAreGood(s) && IsAnswered(s, p, answer, s') && token in s'.uses
    ensures GoodUse(s', token)
  {
    AnsweredKeeps(s, p, answer, s');
    OtherKeepsUse(s, s', token);
  }

  lemma RestKeepsUse(s: State, a: Action, s': State, token: string)
    requires Inv(s) && UsesAreGood(s) && Next(s, a, s') && token in s'.uses
    requires a.Tick? || a.Add? || a.Arrive? || a.Acquire? || a.Relink?
    ensures GoodUse(s', token)
  {
    StepKeeps(s, a, s');
    OtherKeepsUse(s, s', token);
  }

  lemma StepKeepsUse(s: State, a: Action, s': State, token: string)
    requires Inv(s) && UsesAreGood(s) && Next(s, a, s') && token in s'.uses
    ensures GoodUse(s', token)
  {
    match a
    case Check(p) => CheckKeepsUse(s, p, s', token);
    case Answered(p, answer) => AnsweredKeepsUse(s, p, answer, s', token);
    case Exchange(_, _) => ExchangeKeepsUse(s, a, s', token);
    case ExchangeLost(_) => ExchangeKeepsUse(s, a, s', token);
    case StoreLink(p, ok) => StoreKeepsUse(s, p, ok, s', token);
    case Report(p, ok) => StoreKeepsUse(s, p, ok, s', token);
    case _ => RestKeepsUse(s, a, s', token);
  }

  lemma {:induction false} RunsUseWell(states: seq<State>, actions: seq<Action>, i: nat)
    requires Run(states, actions) && i < |states|
    ensures UsesAreGood(states[i])
  {
    if i > 0 {
      RunsUseWell(states, actions, i - 1);
      RunsAreGood(states, actions, i - 1);
      StepAt(states, actions, |actions|, i - 1);
      forall token | token in states[i].uses ensures GoodUse(states[i], token) {
        StepKeepsUse(states[i - 1], actions[i - 1], states[i], token);
      }
    }
  }

  /** A session a poll can find, with no answer yet, before its link expires, and with its lock
      free. */
  predicate Retriable(s: State, link: string, sid: nat) {
    && link in s.table && s.table[link] == sid && sid < |s.sessions|
    && s.sessions[sid].done.None? && s.sessions[sid].holder.None? && s.now <= s.sessions[sid].expiration
  }

  predicate Completes(s: State, sid: nat, token: string) {
    sid < |s.sessions| && s.sessions[sid].done == Some(Completed(Some(token)))
  }

  ghost predicate GoesOn(states: seq<State>, actions: seq<Action>, longer: seq<State>, more: seq<Action>) {
    Run(longer, more) && states <= longer && actions <= more
  }

  /** The run can be continued so that the session completes with the token. */
  ghost predicate CanComplete(states: seq<State>, actions: seq<Action>, sid: nat, token: string) {
    exists longer, more ::
      GoesOn(states, actions, longer, more) && longer != [] && Completes(longer[|longer| - 1], sid, token)
  }

  lemma OneStepOn(states: seq<State>, actions: seq<Action>, longer: seq<State>, more: seq<Action>, a: Action, s': State)
    returns (states': seq<State>, actions': seq<Action>)
    requires GoesOn(states, actions, longer, more) && Next(longer[|more|], a, s')
    ensures GoesOn(states, actions, states', actions') && states'[|actions'|] == s'
  {
    SameSteps(longer, more, a, s', |more|);
    states', actions' := longer + [s'], more + [a];
  }

  /** A new poll of a retriable session gets to the exchange. */
  lemma ReachesExchange(states: seq<State>, actions: seq<Action>, link: string, sid: nat, token: string, p: nat)
    returns (longer: seq<State>, more: seq<Action>)
    requires Run(states, actions) && Retriable(states[|actions|], link, sid) && p !in states[|actions|].polls
    ensures GoesOn(states, actions, longer, more)
    ensures var s := states[|actions|];
            longer[|more|] == s.(polls := s.polls[p := Poll(sid, Exchanging(token))],
                                 sessions := s.sessions[sid := s.sessions[sid].(holder := Some(p))])
  {
    var s := states[|actions|];
    var s1 := s.(polls := s.polls[p := Poll(sid, Waiting)]);
    var s2 := s1.(polls := s.polls[p := Poll(sid, Entered)],
      sessions := s.sessions[sid := s.sessions[sid].(holder := Some(p))]);
    var s3 := s2.(polls := s.polls[p := Poll(sid, Asking)]);
    var s4 := s2.(polls := s.polls[p := Poll(sid, Exchanging(token))]);
    longer, more := OneStepOn(states, actions, states, actions, Arrive(p, link), s1);
    longer, more := OneStepOn(states, actions, longer, more, Acquire(p), s2);
    longer, more := OneStepOn(states, actions, longer, more, Check(p), s3);
    longer, more := OneStepOn(states, actions, longer, more, Answered(p, Finished(Some(token))), s4);
  }

  /** From there an unspent token completes the session. */
  lemma ExchangeCompletes(states: seq<State>, actions: seq<Action>, longer: seq<State>, more: seq<Action>, p: nat,
                          sid: nat, token: string)
    returns (longer': seq<State>, more': seq<Action>)
    requires GoesOn(states, actions, longer, more) && p in longer[|more|].polls && sid < |longer[|more|].sessions|
    requires longer[|more|].polls[p] == Poll(sid, Exchanging(token)) && token !in longer[|more|].uses
    ensures GoesOn(states, actions, longer', more') && Completes(longer'[|more'|], sid, token)
  {
    var s := longer[|more|];
    var s1 := Moves(s, p, Linking(token)).(uses := s.uses[token := Use(p, sid, UnderWay)]);
    var s2 := Moves(s, p, Enriching(token)).(uses := s.uses[token := Use(p, sid, Kept)]);
    var s3 := Answers(s2.(uses := s2.uses[token := Use(p, sid, Reported)]), p, Settled(Completed(Some(token))));
    longer', more' := OneStepOn(states, actions, longer, more, Exchange(p, true), s1);
    longer', more' := OneStepOn(states, actions, longer', more', StoreLink(p, true), s2);
    longer', more' := OneStepOn(states, actions, longer', more', Report(p, true), s3);
  }

  lemma {:induction false} SomeNew(ps: set<nat>) returns (p: nat)
    ensures forall q :: q in ps ==> q < p
  {
    if ps == {} {
      p := 0;
    } else {
      var q :| q in ps;
      var r := SomeNew(ps - {q});
      p := if r <= q then q + 1 else r;
      assert forall o :: o in ps ==> o == q || o in ps - {q};
    }
  }

  lemma UnspentTokenCanComplete(states: seq<State>, actions: seq<Action>, link: string, sid: nat, token: string)
    requires Run(states, actions) && Retriable(states[|actions|], link, sid) && token !in states[|actions|].uses
    ensures CanComplete(states, actions, sid, token)
  {
    var p := SomeNew(states[|actions|].polls.Keys);
    var longer, more := ReachesExchange(states, actions, link, sid, token, p);
    longer, more := ExchangeCompletes(states, actions, longer, more, p, sid, token);
    assert longer[|longer| - 1] == longer[|more|];
  }

  /** With its session free and unsettled, an exchanged token is spent or another session's. */
  lemma FreeMeansSpent(s: State, sid: nat, token: string)
    requires Inv(s) && UsesAreGood(s) && token in s.uses && sid < |s.sessions|
    requires s.sessions[sid].done.None? && s.sessions[sid].holder.None?
    ensures s.uses[token].fate == Lost || s.uses[token].fate == Unreported || s.uses[token].sid != sid
  {
    var u := s.uses[token];
    assert GoodUse(s, token);
    assert u.fate.Open() ==> GoodPoll(s, u.poll, s.polls[u.poll]);
  }

  lemma SpentTokenCannotComplete(states: seq<State>, actions: seq<Action>, link: string, sid: nat, token: string)
    requires Run(states, actions) && Retriable(states[|actions|], link, sid) && token in states[|actions|].uses
    ensures !CanComplete(states, actions, sid, token)
  {
    if CanComplete(states, actions, sid, token) {
      var longer, more :|
        GoesOn(states, actions, longer, more) && longer != [] && Completes(longer[|longer| - 1], sid, token);
      var i := |actions|;
      assert longer[i] == states[i];
      RunsUseWell(states, actions, i);
      RunsAreGood(states, actions, i);
      FreeMeansSpent(states[i], sid, token);
      SpentTokenNeverCompletes(longer, more, i, |longer| - 1, token, sid);
    }
  }

  /** When a retry is worth it: a session that polls can find, unsettled, unexpired and free, can
      still complete with a public token if and only if the token has not been exchanged. */
  lemma RetryCompletesIffUnspent(states: seq<State>, actions: seq<Action>, link: string, sid: nat, token: string)
    requires Run(states, actions) && Retriable(states[|actions|], link, sid)
    ensures CanComplete(states, actions, sid, token) <==> token !in states[|actions|].uses
  {
    if token in states[|actions|].uses {
      SpentTokenCannotComplete(states, actions, link, sid, token);
    } else {
      UnspentTokenCanComplete(states, actions, link, sid, token);
    }
  }

  // ---------------------------------------------------------------- a spent token, in a run

  const FREE := Session(10, false, None, None)

  /** One session, and these polls of it; `holder` has its lock. */
  function Sole(holder: Option<nat>, polls: map<nat, Poll>, uses: map<string, Use>): State {
    State(0, [FREE.(holder := holder)], map["link" := 0], polls, uses)
  }

  /** A new poll of the one session gets to the exchange of the token. */
  lemma AsksForToken(states: seq<State>, actions: seq<Action>, polls: map<nat, Poll>, uses: map<string, Use>, p: nat)
    returns (longer: seq<State>, more: seq<Action>)
    requires Run(states, actions) && states[|actions|] == Sole(None, polls, uses) && p !in polls
    ensures Run(longer, more) && longer[|more|] == Sole(Some(p), polls[p := Poll(0, Exchanging("token"))], uses)
  {
    longer, more := ReachesExchange(states, actions, "link", 0, "token", p);
  }

  function Failed(polls: map<nat, Poll>, p: nat): map<nat, Poll> { polls[p := Poll(0, Replied(Failure))] }

  const EXCHANGED := Sole(Some(0), map[0 := Poll(0, Linking("token"))], map["token" := Use(0, 0, UnderWay)])

  lemma TokenIsExchanged() returns (states: seq<State>, actions: seq<Action>)
    ensures Run(states, actions) && states[|actions|] == EXCHANGED
  {
    var s0 := State(0, [], map[], map[], map[]);
    states, actions := OneMoreStep([s0], [], Add("link", false, 10), Sole(None, map[], map[]));
    states, actions := AsksForToken(states, actions, map[], map[], 0);
    states, actions := OneMoreStep(states, actions, Exchange(0, true), EXCHANGED);
  }

  /** Then its item is not stored, or stored and not reported. */
  lemma TokenIsSpent(stored: bool) returns (states: seq<State>, actions: seq<Action>)
    ensures Run(states, actions)
    ensures states[|actions|] == Sole(None, Failed(map[], 0),
        map["token" := Use(0, 0, if stored then Unreported else Lost)])
  {
    states, actions := TokenIsExchanged();
    if stored {
      var enriching := Sole(Some(0), map[0 := Poll(0, Enriching("token"))], map["token" := Use(0, 0, Kept)]);
      states, actions := OneMoreStep(states, actions, StoreLink(0, true), enriching);
      states, actions := OneMoreStep(states, actions, Report(0, false),
        Sole(None, Failed(map[], 0), map["token" := Use(0, 0, Unreported)]));
    } else {
      states, actions := OneMoreStep(states, actions, StoreLink(0, false),
        Sole(None, Failed(map[], 0), map["token" := Use(0, 0, Lost)]));
    }
  }

  /** A first poll exchanges the token and fails in a later step, with the item stored or not;
      the next poll asks Plaid, gets the token again and fails, the session being unsettled. */
  lemma NextPollFails(stored: bool) returns (states: seq<State>, actions: seq<Action>)
    ensures Run(states, actions)
    ensures var s := states[|actions|];
            && s.uses == map["token" := Use(0, 0, if stored then Unreported else Lost)]
            && s.sessions == [FREE] && s.polls == map[0 := Poll(0, Replied(Failure)), 1 := Poll(0, Replied(Failure))]
  {
    var uses := map["token" := Use(0, 0, if stored then Unreported else Lost)];
    states, actions := TokenIsSpent(stored);
    states, actions := AsksForToken(states, actions, Failed(map[], 0), uses, 1);
    states, actions := OneMoreStep(states, actions, Exchange(1, false), Sole(None, Failed(Failed(map[], 0), 1), uses));
  }
}
