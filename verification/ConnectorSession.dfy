/** The connector client's own code for tokens, calling the service object. It keeps, as a
    ghost, the joint run of client and service that its calls amount to. */
module ConnectorSession {
  import opened Prelude
  import opened ConnectorStore
  import opened ClientRotation
  import opened DeviceAuthorization

  /** How the ingest endpoint answers. */
  datatype IngestResult = Accepted | Unauthorized | Failed

  /** One refresh request: whether it reaches the service, what the service draws and when,
      whether the answer arrives, and the client's clock when it is stored. */
  datatype Exchange = Exchange(reached: bool, at: Millis, draw: Draw, answered: bool, clientNow: Millis)

  class TokenClient {
    const service: DeviceAuthorizationService
    var stored: Option<Stored>
    ghost var start: Joint
    ghost var run: JointRun

    /** Storage and service are those of the joint run, which stands at `phase`. */
    ghost predicate At(phase: Phase)
      reads this, service
    {
      && IsJointRun(start, run) && service.Valid()
      && Reached(start, run) == Joint(service.history, stored, phase, Orphans())
    }

    /** The tokens whose rotation was carried out but not heard of. */
    ghost function Orphans(): set<RefreshToken>
      reads this
      requires IsJointRun(start, run)
    {
      Reached(start, run).orphans
    }

    /** A client without tokens meets a service with any history. */
    constructor (service: DeviceAuthorizationService)
      requires service.Valid()
      ensures At(Idle) && this.service == service && stored == None
    {
      this.service := service;
      stored := None;
      start := Joint(service.history, None, Idle, {});
      run := History.Start;
    }

    ghost method Advance(step: Step)
      requires IsJointRun(start, run) && Enabled(Reached(start, run), step)
      modifies this`run
      ensures run == Then(old(run), step) && IsJointRun(start, run)
      ensures Reached(start, run) == Take(Reached(start, old(run)), step)
    {
      run := Then(run, step);
    }

    /** It may come at any moment of a send. */
    method PollAuthorization(code: DeviceCode, verifier: Option<nat>, at: Millis, draw: Draw, answered: bool, clientNow: Millis, ghost phase: Phase)
      returns (done: Option<bool>)
      requires At(phase) && service.MayAct(at) && !FamilyInUse(service.Snapshot(), draw.family)
      modifies this, service
      ensures At(phase) && Orphans() == old(Orphans())
      ensures var (db, answer) := Poll(old(service.Snapshot()), code, verifier, at, draw);
              && service.Snapshot() == db
              && stored == (if answered && answer.PollIssued? then Some(Keep(answer.tokens, clientNow)) else old(stored))
              && done == (if !answered then None else if answer.PollIssued? then Some(true)
                          else if answer.StillPending? || answer.SlowDown? then Some(false) else None)
    {
      Advance(Authorize(at, code, verifier, draw, answered, clientNow));
      var answer := service.Poll(code, verifier, at, draw);
      hide Poll;
      if !answered {
        return None;
      }
      if answer.StillPending? || answer.SlowDown? {
        return Some(false);
      }
      if !answer.PollIssued? {
        return None;
      }
      stored := Some(Keep(answer.tokens, clientNow));
      return Some(true);
    }

    /** The stored token is exchanged, or cleared when the service refuses it. Unless its
        rotation was lost before, the service does not take it for a reused one, and nothing
        is revoked. */
    method Refresh(presented: RefreshToken, ghost retried: bool, x: Exchange) returns (kept: Option<Stored>)
      requires At(Refreshing(presented, retried)) && service.MayAct(x.at)
      modifies this, service
      ensures (service.Snapshot(), stored, kept) == RefreshEffect(old(service.Snapshot()), old(stored), presented, x)
      ensures At(if kept.Some? then Ingesting(kept.value, retried) else Idle)
      ensures kept.Some? ==> kept.value.tokens.refresh !in Orphans()
      ensures Orphans() == if LosesAnswer(old(service.Snapshot()), presented, x) then old(Orphans()) + {presented} else old(Orphans())
      ensures After(service.history).clock == if x.reached then x.at else old(After(service.history).clock)
      ensures presented !in old(Orphans()) ==> RevokesNothing(old(service.Snapshot()), service.Snapshot())
    {
      if !x.reached {
        Advance(GiveUp);
        return None;
      }
      ReusedOnlyIfLost(start, run, ServeRefresh(x.at, x.draw));
      Advance(ServeRefresh(x.at, x.draw));
      var answer := service.Refresh(presented, x.at, x.draw);
      if !x.answered {
        Advance(GiveUp);
        hide ConnectorStore.Refresh;
        return None;
      }
      Advance(ReceiveRefresh(x.clientNow));
      hide ConnectorStore.Refresh;
      if !answer.RefreshIssued? {
        if answer.RefreshInvalid? || answer.Reuse? {
          stored := None;
        }
        return None;
      }
      stored := Some(Keep(answer.tokens, x.clientNow));
      return stored;
    }

    /** One send: tokens about to expire are refreshed first, and once more after an
        "unauthorized" answer. `first` and `second` are the answers to the two requests
        that it may make. No send costs the client its family, unless the answer to an
        earlier rotation of the stored token was lost. */
    method Send(clientNow: Millis, x: Exchange, first: IngestResult, y: Exchange, second: IngestResult) returns (delivered: bool)
      requires At(Idle) && service.MayAct(x.at) && x.at <= y.at
      modifies this, service
      ensures At(Idle)
      ensures (service.Snapshot(), stored, delivered) == SendEffect(old(service.Snapshot()), old(stored), clientNow, x, first, y, second)
      ensures old(stored.Some? ==> stored.value.tokens.refresh !in Orphans()) ==> RevokesNothing(old(service.Snapshot()), service.Snapshot())
    {
      if stored.None? {
        return false;
      }
      var tokens := stored.value;
      Advance(BeginSend(clientNow));
      if tokens.expiresAt <= clientNow + EXPIRY_MARGIN_MS {
        ghost var before := service.Snapshot();
        var kept := Refresh(tokens.tokens.refresh, false, x);
        hide RefreshEffect, IngestEffect, LosesAnswer, RevokesNothing;
        if kept.None? {
          return false;
        }
        ghost var between := service.Snapshot();
        delivered := Ingest(kept.value, first, y, second);
        RevokesNothingTwice(before, between, service.Snapshot());
      } else {
        hide IngestEffect, LosesAnswer, RevokesNothing;
        delivered := Ingest(tokens, first, y, second);
      }
    }

    method Ingest(tokens: Stored, first: IngestResult, y: Exchange, second: IngestResult) returns (delivered: bool)
      requires At(Ingesting(tokens, false)) && service.MayAct(y.at)
      modifies this, service
      ensures At(Idle)
      ensures (service.Snapshot(), stored, delivered) == IngestEffect(old(service.Snapshot()), old(stored), tokens, first, y, second)
      ensures tokens.tokens.refresh !in old(Orphans()) ==> RevokesNothing(old(service.Snapshot()), service.Snapshot())
    {
      Advance(ReceiveIngest(first.Unauthorized?));
      if first.Unauthorized? {
        var kept := Refresh(tokens.tokens.refresh, true, y);
        if kept.None? {
          return false;
        }
        Advance(ReceiveIngest(second.Unauthorized?));
        hide RefreshEffect;
        return second.Accepted?;
      }
      return first.Accepted?;
    }
  }

  /** Tables and storage after one refresh, and the tokens that it gives to the caller. */
  ghost function RefreshEffect(db: Tables, stored: Option<Stored>, presented: RefreshToken, x: Exchange)
    : (Tables, Option<Stored>, Option<Stored>)
  {
    var (after, answer) := ConnectorStore.Refresh(db, presented, x.at, x.draw);
    if !x.reached then (db, stored, None)
    else if !x.answered then (after, stored, None)
    else if answer.RefreshIssued? then (after, Some(Keep(answer.tokens, x.clientNow)), Some(Keep(answer.tokens, x.clientNow)))
    else (after, if answer.RefreshInvalid? || answer.Reuse? then None else stored, None)
  }

  ghost function SendEffect(db: Tables, stored: Option<Stored>, clientNow: Millis, x: Exchange, first: IngestResult,
                            y: Exchange, second: IngestResult): (Tables, Option<Stored>, bool)
  {
    if stored.None? then (db, stored, false)
    else
      var (after, kept, tokens) :=
        if stored.value.expiresAt <= clientNow + EXPIRY_MARGIN_MS then RefreshEffect(db, stored, stored.value.tokens.refresh, x)
        else (db, stored, stored);
      if tokens.None? then (after, kept, false) else IngestEffect(after, kept, tokens.value, first, y, second)
  }

  ghost function IngestEffect(db: Tables, stored: Option<Stored>, tokens: Stored, first: IngestResult, y: Exchange, second: IngestResult)
    : (Tables, Option<Stored>, bool)
  {
    if !first.Unauthorized? then (db, stored, first.Accepted?)
    else
      var (after, kept, renewed) := RefreshEffect(db, stored, tokens.tokens.refresh, y);
      (after, kept, renewed.Some? && second.Accepted?)
  }

  /** Tokens that live for more than half a minute and are accepted are not refreshed, and a
      send succeeds only with tokens and an accepted request; new tokens are kept for a
      quarter of an hour by the client's clock. */
  lemma SendsAre(db: Tables, stored: Option<Stored>, clientNow: Millis, x: Exchange, first: IngestResult, y: Exchange, second: IngestResult)
    ensures var (after, kept, delivered) := SendEffect(db, stored, clientNow, x, first, y, second);
            && (stored == None ==> after == db && kept == None && !delivered)
            && (stored.Some? && clientNow + 30_000 < stored.value.expiresAt && !first.Unauthorized? ==>
                  after == db && kept == stored && delivered == first.Accepted?)
            && (stored.Some? && stored.value.expiresAt <= clientNow + 30_000 && x.reached && x.answered ==>
                  var answer := ConnectorStore.Refresh(db, stored.value.tokens.refresh, x.at, x.draw).1;
                  && (answer.RefreshIssued? && !first.Unauthorized? ==>
                        kept == Some(Stored(answer.tokens, x.clientNow + 900_000)) && delivered == first.Accepted?)
                  && (answer.RefreshInvalid? || answer.Reuse? ==> kept == None && !delivered))
            && (delivered ==> first.Accepted? || (first.Unauthorized? && second.Accepted?))
  {
    hide ConnectorStore.Refresh;
  }

  ghost predicate RevokesNothing(before: Tables, after: Tables) {
    forall t :: t in before.credentials ==> t in after.credentials && after.credentials[t].revokedAt == before.credentials[t].revokedAt
  }

  lemma RevokesNothingTwice(a: Tables, b: Tables, c: Tables)
    ensures RevokesNothing(a, b) && RevokesNothing(b, c) ==> RevokesNothing(a, c)
  {
  }

  /** The service rotates the token, but the client does not hear of it. */
  ghost predicate LosesAnswer(db: Tables, presented: RefreshToken, x: Exchange) {
    x.reached && !x.answered && ConnectorStore.Refresh(db, presented, x.at, x.draw).1.RefreshIssued?
  }

  lemma ReusedOnlyIfLost(start: Joint, run: JointRun, step: Step)
    requires IsJointRun(start, run) && Enabled(Reached(start, run), step) && step.ServeRefresh?
    ensures var j := Reached(start, run);
            var (after, answer) := ConnectorStore.Refresh(Db(j), j.phase.presented, step.at, step.draw);
            && (j.phase.presented !in j.orphans ==> !answer.Reuse? && RevokesNothing(Db(j), after))
            && (answer.RefreshIssued? ==> answer.tokens.refresh !in j.orphans)
  {
    ClientStaysInStep(start, run);
    var j := Reached(start, run);
    ServeRefreshKeeps(j, step);
    assert AnswerAgrees(Take(j, step));
  }
}
