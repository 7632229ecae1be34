/** One connector client and the service together. The client runs one send at a time;
    a request, its handling by the service and the arrival of the answer are separate
    steps, and other parties act in between. Requests and answers may be lost. */
module ClientRotation {
  import opened Prelude
  import opened ConnectorStore
  import opened CredentialChains
  import opened CredentialHistory

  const EXPIRY_MARGIN_MS: Millis := 30_000

  /** The tokens in the client's storage; the expiry is on the client's own clock. */
  datatype Stored = Stored(tokens: Tokens, expiresAt: Millis)

  /** Where the current `send` stands. `retried` says that the ingest was already
      repeated after an "unauthorized" answer. */
  datatype Phase =
    | Idle
    | Refreshing(presented: RefreshToken, retried: bool)
    | Answered(presented: RefreshToken, answer: RefreshAnswer, retried: bool)
    | Ingesting(local: Stored, retried: bool)

  /** `orphans` records which tokens the client presented for a rotation that the service
      carried out and whose answer was lost. */
  datatype Joint = Joint(server: Run, stored: Option<Stored>, phase: Phase, orphans: set<RefreshToken>)

  datatype Step =
    | Others(event: Event)
    | BeginSend(clientNow: Millis)
    | ServeRefresh(at: Millis, draw: Draw)
    | ReceiveRefresh(clientNow: Millis)
    | ReceiveIngest(unauthorized: bool)
    | Authorize(at: Millis, code: DeviceCode, verifier: Option<nat>, draw: Draw, delivered: bool, clientNow: Millis)
    | GiveUp

  ghost function Db(j: Joint): Tables {
    After(j.server).db
  }

  function Keep(tokens: Tokens, clientNow: Millis): Stored {
    Stored(tokens, clientNow + ACCESS_TTL_MS)
  }

  /** The token that the current `send` works with, besides the stored one. */
  function InHand(j: Joint): Option<RefreshToken> {
    match j.phase
    case Idle => None
    case Refreshing(presented, _) => Some(presented)
    case Answered(presented, answer, _) => if answer.RefreshIssued? then Some(answer.tokens.refresh) else Some(presented)
    case Ingesting(local, _) => Some(local.tokens.refresh)
  }

  ghost predicate Enabled(j: Joint, step: Step) {
    match step
    case Others(e) =>
      && Admissible(After(j.server), e)
      // nobody else holds this client's refresh tokens
      && (e.op.RefreshOp? && j.stored.Some? ==> !SameFamily(Db(j), e.op.token, j.stored.value.tokens.refresh))
      && (e.op.RefreshOp? && InHand(j).Some? ==> !SameFamily(Db(j), e.op.token, InHand(j).value))
    case BeginSend(_) => j.phase.Idle?
    case ServeRefresh(at, draw) => j.phase.Refreshing? && Admissible(After(j.server), Event(at, RefreshOp(j.phase.presented, draw)))
    case ReceiveRefresh(_) => j.phase.Answered?
    case ReceiveIngest(_) => j.phase.Ingesting?
    case Authorize(at, code, verifier, draw, _, _) => Admissible(After(j.server), Event(at, PollOp(code, verifier, draw)))
    // a request or an answer may be lost, and the client may stop at any time
    case GiveUp => true
  }

  ghost predicate SameFamily(db: Tables, t: RefreshToken, u: RefreshToken) {
    t in db.credentials && u in db.credentials && db.credentials[t].family == db.credentials[u].family
  }

  ghost function Take(j: Joint, step: Step): Joint
    requires Enabled(j, step)
  {
    match step
    case Others(e) => j.(server := Then(j.server, e))
    case BeginSend(clientNow) =>
      if j.stored.None? then j
      else if j.stored.value.expiresAt <= clientNow + EXPIRY_MARGIN_MS then
        j.(phase := Refreshing(j.stored.value.tokens.refresh, false))
      else j.(phase := Ingesting(j.stored.value, false))
    case ServeRefresh(at, draw) =>
      var answer := Refresh(Db(j), j.phase.presented, at, draw).1;
      j.(server := Then(j.server, Event(at, RefreshOp(j.phase.presented, draw))),
         phase := Answered(j.phase.presented, answer, j.phase.retried))
    case ReceiveRefresh(clientNow) =>
      (match j.phase.answer
       case RefreshIssued(tokens) =>
         var kept := Keep(tokens, clientNow);
         j.(stored := Some(kept), phase := Ingesting(kept, j.phase.retried))
       case RefreshInvalid => j.(stored := None, phase := Idle)
       case Reuse => j.(stored := None, phase := Idle)
       case _ => j.(phase := Idle))
    case ReceiveIngest(unauthorized) =>
      if unauthorized && !j.phase.retried then j.(phase := Refreshing(j.phase.local.tokens.refresh, true))
      else j.(phase := Idle)
    case Authorize(at, code, verifier, draw, delivered, clientNow) =>
      var answer := Poll(Db(j), code, verifier, at, draw).1;
      j.(server := Then(j.server, Event(at, PollOp(code, verifier, draw))),
         stored := if answer.PollIssued? && delivered then Some(Keep(answer.tokens, clientNow)) else j.stored)
    case GiveUp =>
      j.(phase := Idle,
         orphans := if j.phase.Answered? && j.phase.answer.RefreshIssued? then j.orphans + {j.phase.presented} else j.orphans)
  }

  /** The service has a history of its own before the client stores its first tokens. */
  ghost predicate IsStart(j: Joint) {
    IsRun(j.server) && j.stored.None? && j.phase.Idle? && j.orphans == {}
  }

  type JointRun = History<Step>

  ghost predicate IsJointRun(start: Joint, run: JointRun)
    decreases run, 0
  {
    IsStart(start) && (run.Then? ==> IsJointRun(start, run.past) && Enabled(Reached(start, run.past), run.event))
  }

  ghost function Reached(start: Joint, run: JointRun): Joint
    requires IsJointRun(start, run)
    decreases run, 1
  {
    if run.Start? then start else Take(Reached(start, run.past), run.event)
  }

  // -------------------------------------------------------------- invariant

  /** The answer under way replaces the stored token, which is used already. */
  predicate Replacing(j: Joint) {
    && j.phase.Answered? && j.phase.answer.RefreshIssued?
    && j.stored.Some? && j.stored.value.tokens.refresh == j.phase.presented
  }

  ghost predicate Unused(j: Joint, t: RefreshToken) {
    t in Db(j).credentials && Db(j).credentials[t].usedAt.None?
  }

  ghost predicate Used(j: Joint, t: RefreshToken) {
    t in Db(j).credentials && Db(j).credentials[t].usedAt.Some?
  }

  /** Unused, unless its rotation is one of those whose answer was lost. */
  ghost predicate UnusedIffKept(j: Joint, t: RefreshToken) {
    if t in j.orphans then Used(j, t) else Unused(j, t)
  }

  ghost predicate HandAgrees(j: Joint) {
    InHand(j).Some? ==> UnusedIffKept(j, InHand(j).value)
  }

  ghost predicate StoredAgrees(j: Joint) {
    j.stored.Some? && !Replacing(j) ==> UnusedIffKept(j, j.stored.value.tokens.refresh)
  }

  ghost predicate OrphansAreUsed(j: Joint) {
    forall t :: t in j.orphans ==> Used(j, t)
  }

  /** What is known about an answer that is on its way. */
  ghost predicate AnswerAgrees(j: Joint) {
    j.phase.Answered? ==>
      && (j.phase.answer.Reuse? ==> j.phase.presented in j.orphans)
      && (j.phase.answer.RefreshIssued? ==>
            && j.phase.presented !in j.orphans && Used(j, j.phase.presented)
            && j.phase.answer.tokens.refresh !in j.orphans
            && SameFamily(Db(j), j.phase.presented, j.phase.answer.tokens.refresh))
  }

  ghost predicate InStep(j: Joint) {
    IsRun(j.server) && HandAgrees(j) && StoredAgrees(j) && OrphansAreUsed(j) && AnswerAgrees(j)
  }

  /** A transaction that does not rotate a credential leaves it unused. */
  lemma StaysUnused(db: Tables, e: Event, t: RefreshToken)
    requires t in db.credentials && db.credentials[t].usedAt.None?
    requires !(e.op.RefreshOp? && e.op.token == t)
    ensures t in Commit(db, e).credentials && Commit(db, e).credentials[t].usedAt.None?
  {
  }

  lemma StaysUsed(db: Tables, e: Event, t: RefreshToken)
    requires t in db.credentials && db.credentials[t].usedAt.Some?
    ensures t in Commit(db, e).credentials && Commit(db, e).credentials[t].usedAt.Some?
  {
    CredentialsPersist(db, e, t);
    hide Commit;
  }

  /** An event of others keeps every used token used, and an unused one unused unless it
      rotates it. */
  lemma EventKeepsToken(j: Joint, e: Event, after: Joint, t: RefreshToken)
    requires UnusedIffKept(j, t) && after == j.(server := Then(j.server, e))
    requires e.op.RefreshOp? && e.op.token == t ==> t in j.orphans
    ensures UnusedIffKept(after, t)
  {
    if t in j.orphans { StaysUsed(Db(j), e, t); } else { StaysUnused(Db(j), e, t); }
    hide Commit;
  }

  lemma EventKeepsTokens(j: Joint, e: Event, after: Joint)
    requires InStep(j) && Admissible(After(j.server), e) && after == j.(server := Then(j.server, e))
    requires e.op.RefreshOp? ==> j.stored.Some? ==> !SameFamily(Db(j), e.op.token, j.stored.value.tokens.refresh)
    requires e.op.RefreshOp? ==> InHand(j).Some? ==> !SameFamily(Db(j), e.op.token, InHand(j).value)
    ensures InStep(after)
  {
    if InHand(j).Some? {
      EventKeepsToken(j, e, after, InHand(j).value);
    }
    if j.stored.Some? && !Replacing(j) {
      EventKeepsToken(j, e, after, j.stored.value.tokens.refresh);
    }
    forall t | t in j.orphans ensures Used(after, t) {
      StaysUsed(Db(j), e, t);
    }
    if j.phase.Answered? && j.phase.answer.RefreshIssued? {
      StaysUsed(Db(j), e, j.phase.presented);
      CredentialsPersist(Db(j), e, j.phase.presented);
      CredentialsPersist(Db(j), e, j.phase.answer.tokens.refresh);
    }
    hide Commit;
  }

  /** The service carries out the client's rotation, or refuses it; it takes the token for a
      reused one exactly if it rotated it before and it is alive. */
  lemma ServeRefreshKeeps(j: Joint, step: Step)
    requires InStep(j) && Enabled(j, step) && step.ServeRefresh?
    ensures InStep(Take(j, step))
    ensures var row := Db(j).credentials[j.phase.presented];
            Take(j, step).phase.answer.Reuse? <==>
              j.phase.presented in j.orphans && row.revokedAt.None? && step.at < row.refreshExpiresAt
  {
    var e, after, presented := Event(step.at, RefreshOp(j.phase.presented, step.draw)), Take(j, step), j.phase.presented;
    CredentialsPersist(Db(j), e, presented);
    forall t | t in j.orphans ensures Used(after, t) {
      StaysUsed(Db(j), e, t);
    }
    if j.stored.Some? && j.stored.value.tokens.refresh != presented {
      EventKeepsToken(j, e, j.(server := Then(j.server, e)), j.stored.value.tokens.refresh);
    }
    RefreshOutcome(Db(j), e);
    hide Commit, Refresh;
  }

  /** What a refresh does to the presented token, by its answer. */
  lemma RefreshOutcome(db: Tables, e: Event)
    requires e.op.RefreshOp? && e.op.token in db.credentials
    ensures var row, after, answer := db.credentials[e.op.token], Commit(db, e), Refresh(db, e.op.token, e.at, e.op.draw).1;
            && (answer.Reuse? <==> row.usedAt.Some? && row.revokedAt.None? && e.at < row.refreshExpiresAt)
            && (answer.RefreshIssued? ==>
                  && row.usedAt.None? && answer.tokens.refresh !in db.credentials
                  && e.op.token in after.credentials && after.credentials[e.op.token].usedAt.Some?
                  && answer.tokens.refresh in after.credentials && after.credentials[answer.tokens.refresh].usedAt.None?
                  && after.credentials[answer.tokens.refresh].family == after.credentials[e.op.token].family)
            && (!answer.RefreshIssued? ==> e.op.token in after.credentials && after.credentials[e.op.token].usedAt == row.usedAt)
  {
  }

  /** An authorization may come at any moment of a send. */
  lemma AuthorizeKeeps(j: Joint, step: Step)
    requires InStep(j) && Enabled(j, step) && step.Authorize?
    ensures InStep(Take(j, step))
  {
    var e := Event(step.at, PollOp(step.code, step.verifier, step.draw));
    var served := j.(server := Then(j.server, e));
    EventKeepsTokens(j, e, served);
    var answer := Poll(Db(j), step.code, step.verifier, step.at, step.draw).1;
    if answer.PollIssued? {
      IssuedIsUnused(Db(j), e);
    }
    hide Commit, Poll;
  }

  lemma IssuedIsUnused(db: Tables, e: Event)
    requires e.op.PollOp? && Poll(db, e.op.code, e.op.verifier, e.at, e.op.draw).1.PollIssued?
    ensures var t := Poll(db, e.op.code, e.op.verifier, e.at, e.op.draw).1.tokens.refresh;
            t !in db.credentials && t in Commit(db, e).credentials && Commit(db, e).credentials[t].usedAt.None?
  {
  }

  lemma {:induction false} ClientStaysInStep(start: Joint, run: JointRun)
    requires IsJointRun(start, run)
    ensures InStep(Reached(start, run))
    decreases run
  {
    if run.Then? {
      ClientStaysInStep(start, run.past);
      var j, step := Reached(start, run.past), run.event;
      match step {
        case Others(e) => EventKeepsTokens(j, e, Take(j, step));
        case ServeRefresh(_, _) => ServeRefreshKeeps(j, step);
        case Authorize(_, _, _, _, _, _) => AuthorizeKeeps(j, step);
        case _ =>
      }
    }
  }

  // ------------------------------------------------------------ main results

  /** The refresh token in the client's storage is unused, and then the one unused credential
      of its family, exactly if the service has not rotated it with an answer that is still
      on its way or was lost. While it is on its way, the token in that answer is the unused
      one. */
  lemma StoredTokenIsTheUnusedOne(start: Joint, run: JointRun, t: RefreshToken)
    requires IsJointRun(start, run)
    requires var j := Reached(start, run);
             j.stored.Some? && SameFamily(Db(j), t, j.stored.value.tokens.refresh)
    ensures var j := Reached(start, run);
            var token := j.stored.value.tokens.refresh;
            && (Unused(j, token) <==> !Replacing(j) && token !in j.orphans)
            && (token !in j.orphans ==> (Unused(j, t) <==> t == if Replacing(j) then j.phase.answer.tokens.refresh else token))
  {
    ClientStaysInStep(start, run);
    var j := Reached(start, run);
    OneUnusedPerFamily(j.server, t, if Replacing(j) then j.phase.answer.tokens.refresh else j.stored.value.tokens.refresh);
  }

  /** So is the token that a send works with, also when an authorization has put other tokens
      into storage meanwhile. */
  lemma TokenInHandIsTheUnusedOne(start: Joint, run: JointRun, t: RefreshToken)
    requires IsJointRun(start, run)
    requires var j := Reached(start, run);
             InHand(j).Some? && SameFamily(Db(j), t, InHand(j).value)
    ensures var j := Reached(start, run);
            var token := InHand(j).value;
            && (Unused(j, token) <==> token !in j.orphans)
            && (token !in j.orphans ==> (Unused(j, t) <==> t == token))
  {
    ClientStaysInStep(start, run);
    var j := Reached(start, run);
    OneUnusedPerFamily(j.server, t, InHand(j).value);
  }

  /** The service answers this client's refresh with "reuse" exactly if it rotated the
      presented token before with an answer that was lost, and the token is neither revoked
      nor expired; then it revokes the family. It refuses the token exactly if it is revoked
      or expired. */
  lemma AnsweredReuseIff(start: Joint, run: JointRun)
    requires IsJointRun(start, run) && run.Then? && run.event.ServeRefresh?
    ensures var before, after := Reached(start, run.past), Reached(start, run);
            var presented := before.phase.presented;
            && presented in Db(before).credentials
            && var row := Db(before).credentials[presented];
               && (after.phase.answer.Reuse? <==>
                     presented in before.orphans && row.revokedAt.None? && run.event.at < row.refreshExpiresAt)
               && (after.phase.answer.Reuse? ==> FamilyDead(Db(after).credentials, row.family))
               && (after.phase.answer.RefreshInvalid? <==> row.revokedAt.Some? || row.refreshExpiresAt <= run.event.at)
  {
    ClientStaysInStep(start, run.past);
    ServeRefreshKeeps(Reached(start, run.past), run.event);
  }

  /** The last event of `h` rotated the token. */
  ghost predicate Rotates(h: Run, token: RefreshToken) {
    && h.Then? && h.event.op.RefreshOp? && h.event.op.token == token
    && Refresh(After(h.past).db, token, h.event.at, h.event.op.draw).1.RefreshIssued?
  }

  lemma {:induction false} RotatedStaysUsed(h: Run, run: Run, token: RefreshToken)
    requires Within(h, run) && Rotates(h, token)
    ensures token in After(run).db.credentials && After(run).db.credentials[token].usedAt.Some?
    ensures After(run).db.credentials[token].family == After(h.past).db.credentials[token].family
    ensures After(run).db.credentials[token].refreshExpiresAt == After(h.past).db.credentials[token].refreshExpiresAt
    decreases run
  {
    if h != run {
      RotatedStaysUsed(h, run.past, token);
      CredentialsPersist(After(run.past).db, run.event, token);
      hide Commit;
    }
  }

  /** Why the answer must arrive: whatever happened since, a client that presents a rotated
      token again is answered "reuse" exactly while that token lives, and thereby ends its
      whole family. */
  lemma LostAnswerRevokesFamily(h: Run, run: Run, token: RefreshToken, later: Millis, redraw: Draw)
    requires IsRun(run) && Within(h, run) && Rotates(h, token)
    ensures var row, db := After(h.past).db.credentials[token], After(run).db;
            var (final, answer) := Refresh(db, token, later, redraw);
            && token in db.credentials
            && (answer.Reuse? <==> later < row.refreshExpiresAt && db.credentials[token].revokedAt.None?)
            && (answer.Reuse? ==> FamilyDead(final.credentials, row.family) && DetectsReuse(Then(run, Event(later, RefreshOp(token, redraw))), row.family))
            && (!answer.Reuse? ==> answer.RefreshInvalid? && final == db)
  {
    RotatedStaysUsed(h, run, token);
    hide Commit;
  }
}
