/** Hosted Link sessions one poll at a time: the session table with its eviction, and what a
    poll answers, remembers and asks of Plaid. */
module HostedLink {
  import opened Wrappers

  datatype Linked = Linked(item: string, job: Option<string>)

  /** A final answer; it is remembered. */
  datatype Final = Completed(linked: Linked) | Exited(error: Option<string>) | Expired

  datatype Reply = BadRequest | UnknownSession | Failure(cause: string) | Pending(started: bool) | Settled(final: Final)

  /** Plaid's view of a link session. */
  datatype LinkSession = LinkSession(started: bool, finished: bool, exit: Option<Option<string>>, publicToken: string)

  const INVALID_TOKEN := "INVALID_LINK_TOKEN"
  const SIX_HOURS := 6 * 60 * 60

  /** What the outside would answer a poll, if asked: the link session, the exchange and what
      follows it, the re-activation in update mode. */
  datatype Outside = Outside(session: Result<LinkSession, string>, link: Result<Linked, string>,
    relink: Result<Linked, string>)

  /** How a finished session is settled, or why not yet. */
  function Settlement(itemID: string, ls: LinkSession, o: Outside): Result<Final, string> {
    if ls.exit.Some? then Ok(Exited(ls.exit.value))
    else
      var r := if ls.publicToken != "" then o.link else if itemID != "" then o.relink else Err("no public token");
      match r
      case Err(e) => Err(e)
      case Ok(l) => Ok(Completed(l))
  }

  /** What a poll answers: a remembered answer; nothing but expiry after the link expired;
      otherwise what Plaid says of the session. */
  function ReplyTo(done: Option<Final>, itemID: string, expiration: int, now: int, o: Outside): Reply {
    if done.Some? then Settled(done.value)
    else if now > expiration then Settled(Expired)
    else
      match o.session
      case Err(e) => if e == INVALID_TOKEN then Settled(Expired) else Failure(e)
      case Ok(ls) =>
        if !ls.finished then Pending(ls.started)
        else
          match Settlement(itemID, ls, o)
          case Err(e) => Failure(e)
          case Ok(f) => Settled(f)
  }

  /** A finished session, case by case: an exit is final whatever else it says; then a public token
      is exchanged and linked; without one an item in update mode is re-activated, and a session of
      no item fails. */
  ghost predicate SettlesRightly(itemID: string, ls: LinkSession, o: Outside, reply: Reply) {
    && (ls.exit.Some? ==> reply == Settled(Exited(ls.exit.value)))
    && (ls.exit.None? && ls.publicToken != "" && o.link.Ok? ==> reply == Settled(Completed(o.link.value)))
    && (ls.exit.None? && ls.publicToken != "" && o.link.Err? ==> reply == Failure(o.link.error))
    && (ls.exit.None? && ls.publicToken == "" && itemID != "" && o.relink.Ok? ==>
          reply == Settled(Completed(o.relink.value)))
    && (ls.exit.None? && ls.publicToken == "" && itemID != "" && o.relink.Err? ==> reply == Failure(o.relink.error))
    && (ls.exit.None? && ls.publicToken == "" && itemID == "" ==> reply.Failure?)
  }

  /** What a poll that asks Plaid answers. */
  ghost predicate AnswersRightly(itemID: string, o: Outside, reply: Reply) {
    match o.session
    case Err(e) => reply == if e == "INVALID_LINK_TOKEN" then Settled(Expired) else Failure(e)
    case Ok(ls) => if ls.finished then SettlesRightly(itemID, ls, o, reply) else reply == Pending(ls.started)
  }

  class Session {
    const itemID: string
    const expiration: int
    var done: Option<Final>

    constructor (itemID: string, expiration: int)
      ensures this.itemID == itemID && this.expiration == expiration && done == None
    {
      this.itemID := itemID;
      this.expiration := expiration;
      this.done := None;
    }

    /** A poll under the session's lock. `asked` says that it called Plaid. A remembered
        answer is repeated without a call and never changes; an answer is remembered exactly
        if it is final; a failure or a pending session is not. */
    method Poll(now: int, o: Outside) returns (reply: Reply, asked: bool)
      modifies this`done
      ensures reply == ReplyTo(old(done), itemID, expiration, now, o)
      ensures asked <==> old(done).None? && now <= expiration
      ensures asked ==> AnswersRightly(itemID, o, reply)
      ensures !asked ==> reply == Settled(if old(done).Some? then old(done).value else Expired)
      ensures reply.Settled? <==> done.Some?
      ensures reply.Settled? ==> done == Some(reply.final)
      ensures old(done).Some? ==> done == old(done)
    {
      if done.Some? { return Settled(done.value), false; }
      if now > expiration {
        done := Some(Expired);
        return Settled(Expired), false;
      }
      asked := true;
      if o.session.Err? {
        if o.session.error == INVALID_TOKEN {
          done := Some(Expired);
          return Settled(Expired), asked;
        }
        return Failure(o.session.error), asked;
      }
      var ls := o.session.value;
      if !ls.finished { return Pending(ls.started), asked; }
      var r := Settlement(itemID, ls, o);
      if r.Err? { return Failure(r.error), asked; }
      done := Some(r.value);
      return Settled(r.value), asked;
    }
  }

  class Sessions {
    var byToken: map<string, Session>

    constructor ()
      ensures byToken == map[]
    {
      byToken := map[];
    }

    /** Registers a session and drops exactly those that expired more than six hours ago. */
    method Add(token: string, s: Session, now: int)
      modifies this
      ensures byToken ==
                (map t | t in old(byToken) && old(byToken)[t].expiration >= now - SIX_HOURS
                   :: old(byToken)[t])[token := s]
    {
      var rest := byToken.Keys;
      while rest != {}
        invariant rest <= byToken.Keys <= old(byToken).Keys
        invariant forall t :: t in byToken ==> byToken[t] == old(byToken)[t]
        invariant forall t :: t in old(byToken) && (t in rest || old(byToken)[t].expiration >= now - SIX_HOURS) ==>
            t in byToken
        invariant forall t :: t in byToken && t !in rest ==> byToken[t].expiration >= now - SIX_HOURS
        decreases rest
      {
        var t :| t in rest;
        rest := rest - {t};
        if byToken[t].expiration < now - SIX_HOURS { byToken := byToken - {t}; }
      }
      byToken := byToken[token := s];
    }

    /** The whole status call: 400 without a token, 404 for one not in the table. */
    method Status(token: string, now: int, o: Outside) returns (reply: Reply, asked: bool)
      modifies if token in byToken then {byToken[token]} else {}
      ensures byToken == old(byToken)
      ensures token == "" ==> reply == BadRequest
      ensures token != "" && token !in byToken ==> reply == UnknownSession
      ensures token == "" || token !in byToken ==>
                !asked && (token in byToken ==> byToken[token].done == old(byToken[token].done))
      ensures token != "" && token in byToken ==>
                var h := byToken[token];
                && reply == ReplyTo(old(h.done), h.itemID, h.expiration, now, o)
                && (asked <==> old(h.done).None? && now <= h.expiration)
                && (reply.Settled? <==> h.done.Some?) && (reply.Settled? ==> h.done == Some(reply.final))
    {
      if token == "" { return BadRequest, false; }
      if token !in byToken { return UnknownSession, false; }
      reply, asked := byToken[token].Poll(now, o);
    }
  }
}
