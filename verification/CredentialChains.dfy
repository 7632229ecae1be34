/** The shape of token families in every reachable state. */
module CredentialChains {
  import opened Prelude
  import opened ConnectorStore

  type Credentials = map<RefreshToken, Credential>

  /** `chain` lists every member of the family once, from the first credential issued
      to the last. Each member but the last is used and replaced by the next one, which
      does not expire earlier; the last is neither used nor replaced. */
  ghost predicate IsChain(credentials: Credentials, family: FamilyId, chain: seq<RefreshToken>) {
    && |chain| > 0
    && (forall i :: 0 <= i < |chain| ==> chain[i] in credentials && credentials[chain[i]].family == family)
    && (forall t :: t in credentials && credentials[t].family == family ==> t in chain)
    && (forall i, j :: 0 <= i < j < |chain| ==> chain[i] != chain[j])
    && (forall i, j :: 0 <= i < j < |chain| && j == i + 1 ==> LinkedTo(credentials, chain[i], chain[j]))
    && IsTail(credentials, chain[|chain| - 1])
  }

  ghost predicate LinkedTo(credentials: Credentials, t: RefreshToken, next: RefreshToken) {
    && t in credentials && next in credentials
    && credentials[t].usedAt.Some?
    && credentials[t].replacedBy == Some(next)
    && credentials[t].refreshExpiresAt <= credentials[next].refreshExpiresAt
    && credentials[t].installationId == credentials[next].installationId
    && credentials[t].tenantId == credentials[next].tenantId
  }

  ghost predicate IsTail(credentials: Credentials, t: RefreshToken) {
    t in credentials && credentials[t].usedAt.None? && credentials[t].replacedBy.None?
  }

  ghost predicate AccessUnique(credentials: Credentials) {
    forall t, u :: t in credentials && u in credentials && credentials[t].access == credentials[u].access ==> t == u
  }

  ghost predicate UserCodesUnique(db: Tables) {
    forall c, d :: c in db.authorizations && d in db.authorizations
                   && db.authorizations[c].userCode == db.authorizations[d].userCode
                   ==> c == d
  }

  /** A credential belongs to an existing installation of the same tenant. */
  ghost predicate CredentialsLinked(db: Tables) {
    forall t :: t in db.credentials ==>
                  && db.credentials[t].installationId in db.installations
                  && db.installations[db.credentials[t].installationId].tenantId == db.credentials[t].tenantId
  }

  /** What the installation of an approved authorization records. */
  ghost predicate Matches(installation: Installation, row: Authorization) {
    && row.approval.Some?
    && installation.tenantId == row.approval.value.tenantId
    && installation.createdById == row.approval.value.userId
    && installation.defaultProjectId == row.approval.value.projectId
    && installation.platform == row.platform
  }

  /** The approval columns are set exactly after an approval, and agree with the
      installation that the approval created. */
  ghost predicate RowLinked(installations: map<InstallationId, Installation>, row: Authorization) {
    && (row.approval.Some? <==> row.status == APPROVED || row.status == CONSUMED)
    && (row.approval.Some? ==>
          && row.approval.value.installationId in installations
          && Matches(installations[row.approval.value.installationId], row))
  }

  ghost predicate AuthorizationsLinked(db: Tables) {
    forall c :: c in db.authorizations ==> RowLinked(db.installations, db.authorizations[c])
  }

  /** No credential outlives the lifetime counted from now. */
  ghost predicate ExpiryBounded(w: World) {
    forall t :: t in w.db.credentials ==> w.db.credentials[t].refreshExpiresAt <= w.clock + REFRESH_TTL_MS
  }

  ghost predicate Consistent(w: World) {
    && AccessUnique(w.db.credentials)
    && UserCodesUnique(w.db)
    && CredentialsLinked(w.db)
    && AuthorizationsLinked(w.db)
    && ExpiryBounded(w)
  }

  // ------------------------------------------------ chains under each change

  /** The columns a chain speaks about are the same in both rows. */
  ghost predicate SameLink(a: Credential, b: Credential) {
    b == a.(revokedAt := b.revokedAt)
  }

  lemma ChainKept(before: Credentials, after: Credentials, family: FamilyId, chain: seq<RefreshToken>)
    requires IsChain(before, family, chain)
    requires forall t :: t in before && before[t].family == family ==> t in after && SameLink(before[t], after[t])
    requires forall t :: t in after && after[t].family == family ==> t in before && before[t].family == family
    ensures IsChain(after, family, chain)
  {
    forall i, j | 0 <= i < j < |chain| && j == i + 1 ensures LinkedTo(after, chain[i], chain[j]) {
      assert LinkedTo(before, chain[i], chain[j]);
    }
  }

  /** The unused member of a chain is its last. */
  lemma UnusedIsLast(credentials: Credentials, family: FamilyId, chain: seq<RefreshToken>, t: RefreshToken)
    requires IsChain(credentials, family, chain)
    requires t in credentials && credentials[t].family == family
    ensures credentials[t].usedAt.None? <==> t == chain[|chain| - 1]
    ensures credentials[t].usedAt.Some? <==> credentials[t].replacedBy.Some?
  {
    var i :| 0 <= i < |chain| && chain[i] == t;
    if i < |chain| - 1 {
      assert LinkedTo(credentials, chain[i], chain[i + 1]);
    }
  }

  /** Rotating the unused member appends its replacement. */
  lemma RotationExtendsChain(before: Credentials, token: RefreshToken, used: Credential, renewed: RefreshToken, next: Credential,
                             chain: seq<RefreshToken>)
    requires token in before && renewed !in before && before[token].usedAt.None?
    requires IsChain(before, before[token].family, chain)
    requires used.usedAt.Some? && used == before[token].(usedAt := used.usedAt, replacedBy := Some(renewed))
    requires next.usedAt.None? && next.replacedBy.None? && next.family == used.family
    requires next.installationId == used.installationId && next.tenantId == used.tenantId
    requires used.refreshExpiresAt <= next.refreshExpiresAt
    ensures IsChain(before[token := used][renewed := next], used.family, chain + [renewed])
  {
    var family := used.family;
    var after := before[token := used][renewed := next];
    var longer := chain + [renewed];
    UnusedIsLast(before, family, chain, token);
    forall i, j | 0 <= i < j < |longer| && j == i + 1 ensures LinkedTo(after, longer[i], longer[j]) {
      if j < |chain| {
        assert LinkedTo(before, chain[i], chain[j]);
        assert chain[i] != token;
      }
    }
    forall t | t in after && after[t].family == family ensures t in longer {
      if t != renewed { assert t in chain; }
    }
  }

  // ------------------------------------------------------------- invariance

  lemma AccessStaysUnique(w: World, e: Event)
    requires AccessUnique(w.db.credentials)
    ensures AccessUnique(Commit(w.db, e).credentials)
  {
    match e.op {
      case RefreshOp(_, _) => hide Poll, Approve, Create, RevokeConnector;
      case PollOp(_, _, _) => hide Refresh, Approve, Create, RevokeConnector;
      case RevokeOp(_, _) => hide Refresh, Approve, Create, Poll;
      case _ => hide Refresh, Poll, RevokeConnector;
    }
  }

  lemma UserCodesStayUnique(w: World, e: Event)
    requires UserCodesUnique(w.db)
    ensures UserCodesUnique(Commit(w.db, e))
  {
  }

  lemma CredentialsStayLinked(w: World, e: Event)
    requires CredentialsLinked(w.db) && AuthorizationsLinked(w.db)
    ensures CredentialsLinked(Commit(w.db, e))
  {
    match e.op {
      case RefreshOp(_, _) => hide Poll, Approve, Create, RevokeConnector;
      case PollOp(_, _, _) => hide Refresh, Approve, Create, RevokeConnector;
      case ApproveOp(_, _, _, _) => hide Refresh, Poll, Create, RevokeConnector;
      case RevokeOp(_, _) => hide Refresh, Approve, Create, Poll;
      case _ => hide Refresh, Poll, Approve, RevokeConnector;
    }
  }

  /** Nothing but the revocation of an installation changes its row. */
  lemma InstallationsPersist(db: Tables, e: Event, id: InstallationId)
    requires id in db.installations
    ensures id in Commit(db, e).installations
    ensures var after := Commit(db, e).installations[id];
            after == db.installations[id].(active := after.active)
            && (after.active ==> db.installations[id].active)
  {
  }

  /** No step removes a credential or changes more of it than its use and revocation
      marks, and neither mark is ever taken back. */
  lemma CredentialsPersist(db: Tables, e: Event, t: RefreshToken)
    requires t in db.credentials
    ensures t in Commit(db, e).credentials
    ensures var before, after := db.credentials[t], Commit(db, e).credentials[t];
            && after == before.(usedAt := after.usedAt, revokedAt := after.revokedAt, replacedBy := after.replacedBy)
            && (before.usedAt.Some? ==> after.usedAt == before.usedAt && after.replacedBy == before.replacedBy)
            && (before.revokedAt.Some? ==> after.revokedAt == before.revokedAt)
  {
    match e.op {
      case RefreshOp(_, _) => hide Poll, Approve, Create, RevokeConnector;
      case PollOp(_, _, _) => hide Refresh, Approve, Create, RevokeConnector;
      case ApproveOp(_, _, _, _) => hide Refresh, Poll, Create, RevokeConnector;
      case RevokeOp(_, _) => hide Refresh, Approve, Create, Poll;
      case _ => hide Refresh, Poll, Approve, RevokeConnector;
    }
  }

  /** No step removes an authorization, changes what was requested, revives a consumed
      code or rewrites an approval. */
  lemma CodesPersist(db: Tables, e: Event, code: DeviceCode)
    requires code in db.authorizations
    ensures code in Commit(db, e).authorizations
    ensures var before, after := db.authorizations[code], Commit(db, e).authorizations[code];
            && after.userCode == before.userCode && after.platform == before.platform
            && after.challenge == before.challenge && after.expiresAt == before.expiresAt
            && (before.status == CONSUMED ==> after.status == CONSUMED)
            && (before.approval.Some? && before.status != PENDING ==> after.approval == before.approval)
  {
    match e.op {
      case RefreshOp(_, _) => hide Poll, Approve, Create, RevokeConnector;
      case PollOp(_, _, _) => hide Refresh, Approve, Create, RevokeConnector;
      case ApproveOp(_, _, _, _) => hide Refresh, Poll, Create, RevokeConnector;
      case RevokeOp(_, _) => hide Refresh, Approve, Create, Poll;
      case _ => hide Refresh, Poll, Approve, RevokeConnector;
    }
  }

  lemma RowStaysLinked(db: Tables, e: Event, c: DeviceCode)
    requires c in db.authorizations && RowLinked(db.installations, db.authorizations[c])
    ensures c in Commit(db, e).authorizations && RowLinked(Commit(db, e).installations, Commit(db, e).authorizations[c])
  {
    var row := db.authorizations[c];
    if row.approval.Some? {
      InstallationsPersist(db, e, row.approval.value.installationId);
    }
  }

  lemma AuthorizationsStayLinked(w: World, e: Event)
    requires AuthorizationsLinked(w.db)
    ensures AuthorizationsLinked(Commit(w.db, e))
  {
    var db := Commit(w.db, e);
    forall c | c in db.authorizations ensures RowLinked(db.installations, db.authorizations[c]) {
      if c in w.db.authorizations {
        RowStaysLinked(w.db, e, c);
      }
    }
  }

  lemma ExpiryStaysBounded(w: World, e: Event)
    requires ExpiryBounded(w) && Admissible(w, e)
    ensures ExpiryBounded(World(Commit(w.db, e), e.at))
  {
  }

  lemma StepKeeps(w: World, e: Event)
    requires Consistent(w) && Admissible(w, e)
    ensures Consistent(World(Commit(w.db, e), e.at))
  {
    AccessStaysUnique(w, e);
    UserCodesStayUnique(w, e);
    CredentialsStayLinked(w, e);
    AuthorizationsStayLinked(w, e);
    ExpiryStaysBounded(w, e);
    hide AccessUnique, UserCodesUnique, CredentialsLinked, AuthorizationsLinked, ExpiryBounded, Commit;
  }

  lemma {:induction false} Reachable(run: Run)
    requires IsRun(run)
    ensures Consistent(After(run))
  {
    if run.Then? {
      Reachable(run.past);
      StepKeeps(After(run.past), run.event);
    }
  }

  /** The token that an event issues into a family, if it issues one there. */
  ghost function IssuedInto(db: Tables, e: Event, family: FamilyId): seq<RefreshToken> {
    match e.op
    case PollOp(code, verifier, draw) =>
      if draw.family == family && Poll(db, code, verifier, e.at, draw).1.PollIssued? then [draw.refresh] else []
    case RefreshOp(token, draw) =>
      if Refresh(db, token, e.at, draw).1.RefreshIssued? && db.credentials[token].family == family then [draw.refresh] else []
    case _ => []
  }

  /** The tokens of a family in the order in which they were issued. */
  ghost function IssueOrder(run: Run, family: FamilyId): seq<RefreshToken> {
    match run
    case Start => []
    case Then(past, e) => IssueOrder(past, family) + IssuedInto(After(past).db, e, family)
  }

  /** The family is empty or is exactly this chain. */
  ghost predicate HasShape(credentials: Credentials, family: FamilyId, chain: seq<RefreshToken>) {
    if chain == [] then forall t :: t in credentials ==> credentials[t].family != family
    else IsChain(credentials, family, chain)
  }

  lemma ShapeKept(before: Credentials, after: Credentials, family: FamilyId, chain: seq<RefreshToken>)
    requires HasShape(before, family, chain)
    requires forall t :: t in before && before[t].family == family ==> t in after && SameLink(before[t], after[t])
    requires forall t :: t in after && after[t].family == family ==> t in before && before[t].family == family
    ensures HasShape(after, family, chain)
  {
    if chain != [] {
      ChainKept(before, after, family, chain);
    }
  }

  lemma ShapeAfterPoll(w: World, e: Event, family: FamilyId, chain: seq<RefreshToken>)
    requires Admissible(w, e) && e.op.PollOp?
    requires HasShape(w.db.credentials, family, chain)
    ensures HasShape(Commit(w.db, e).credentials, family, chain + IssuedInto(w.db, e, family))
  {
    var PollOp(code, verifier, draw) := e.op;
    var (db, answer) := Poll(w.db, code, verifier, e.at, draw);
    if IssuedInto(w.db, e, family) == [] {
      assert chain + [] == chain;
      hide IsChain, HasShape, AccessTaken;
      ShapeKept(w.db.credentials, db.credentials, family, chain);
    } else {
      assert chain == [];
      assert chain + [draw.refresh] == [draw.refresh];
      assert IsChain(db.credentials, family, [draw.refresh]);
    }
  }

  lemma ShapeAfterRefresh(w: World, e: Event, family: FamilyId, chain: seq<RefreshToken>)
    requires Consistent(w) && Admissible(w, e) && e.op.RefreshOp?
    requires HasShape(w.db.credentials, family, chain)
    ensures HasShape(Commit(w.db, e).credentials, family, chain + IssuedInto(w.db, e, family))
  {
    if IssuedInto(w.db, e, family) == [] {
      assert chain + [] == chain;
      ShapeWithoutIssue(w, e, family, chain);
    } else {
      ShapeAfterRotation(w, e, chain);
    }
    hide Commit, IsChain, Consistent;
  }

  lemma ShapeWithoutIssue(w: World, e: Event, family: FamilyId, chain: seq<RefreshToken>)
    requires e.op.RefreshOp? && IssuedInto(w.db, e, family) == [] && HasShape(w.db.credentials, family, chain)
    ensures HasShape(Commit(w.db, e).credentials, family, chain)
  {
    hide IsChain, HasShape, AccessTaken;
    ShapeKept(w.db.credentials, Commit(w.db, e).credentials, family, chain);
  }

  lemma ShapeAfterRotation(w: World, e: Event, chain: seq<RefreshToken>)
    requires Consistent(w) && Admissible(w, e) && e.op.RefreshOp? && Refresh(w.db, e.op.token, e.at, e.op.draw).1.RefreshIssued?
    requires HasShape(w.db.credentials, w.db.credentials[e.op.token].family, chain)
    ensures HasShape(Commit(w.db, e).credentials, w.db.credentials[e.op.token].family, chain + [e.op.draw.refresh])
  {
    var RefreshOp(token, draw) := e.op;
    var row := w.db.credentials[token];
    var used, next := row.(usedAt := Some(e.at), replacedBy := Some(draw.refresh)), Issue(row.tenantId, row.installationId, row.family, draw, e.at);
    assert Commit(w.db, e).credentials == w.db.credentials[token := used][draw.refresh := next];
    hide IsChain, Commit, AccessTaken;
    RotationExtendsChain(w.db.credentials, token, used, draw.refresh, next, chain);
  }

  lemma ShapeAfterOther(w: World, e: Event, family: FamilyId, chain: seq<RefreshToken>)
    requires !e.op.PollOp? && !e.op.RefreshOp?
    requires HasShape(w.db.credentials, family, chain)
    ensures HasShape(Commit(w.db, e).credentials, family, chain)
  {
    ShapeKept(w.db.credentials, Commit(w.db, e).credentials, family, chain);
  }

  // ------------------------------------------------------------ main results

  /** In every reachable state the credentials of a family form one chain, in the order
      in which they were issued. */
  lemma {:induction false} FamiliesAreChains(run: Run, family: FamilyId)
    requires IsRun(run)
    ensures HasShape(After(run).db.credentials, family, IssueOrder(run, family))
  {
    if run.Then? {
      var w, e, chain := After(run.past), run.event, IssueOrder(run.past, family);
      FamiliesAreChains(run.past, family);
      Reachable(run.past);
      match e.op {
        case PollOp(_, _, _) => ShapeAfterPoll(w, e, family, chain);
        case RefreshOp(_, _) => ShapeAfterRefresh(w, e, family, chain);
        case _ =>
          ShapeAfterOther(w, e, family, chain);
          assert chain + [] == chain;
      }
    }
  }

  /** Two credentials of one family: if both are unused they are the same. A credential
      is used exactly when it is replaced, and by a member of its family that does not
      expire earlier. */
  lemma OneUnusedPerFamily(run: Run, t: RefreshToken, u: RefreshToken)
    requires IsRun(run)
    requires t in After(run).db.credentials && u in After(run).db.credentials
    requires After(run).db.credentials[t].family == After(run).db.credentials[u].family
    ensures var credentials := After(run).db.credentials;
            && (credentials[t].usedAt.None? && credentials[u].usedAt.None? ==> t == u)
            && (credentials[t].usedAt.Some? <==> credentials[t].replacedBy.Some?)
            && (credentials[t].replacedBy.Some? ==>
                  && credentials[t].replacedBy.value in credentials
                  && credentials[credentials[t].replacedBy.value].family == credentials[t].family
                  && credentials[t].refreshExpiresAt <= credentials[credentials[t].replacedBy.value].refreshExpiresAt)
  {
    var credentials := After(run).db.credentials;
    var family := credentials[t].family;
    FamiliesAreChains(run, family);
    var chain := IssueOrder(run, family);
    UnusedIsLast(credentials, family, chain, t);
    UnusedIsLast(credentials, family, chain, u);
    if credentials[t].replacedBy.Some? {
      var i := IndexOf(credentials, family, chain, t);
      assert LinkedTo(credentials, chain[i], chain[i + 1]);
    }
  }

  /** No credential replaces two others. */
  lemma ReplacementsAreInjective(run: Run, t: RefreshToken, u: RefreshToken)
    requires IsRun(run)
    requires t in After(run).db.credentials && u in After(run).db.credentials
    requires After(run).db.credentials[t].replacedBy.Some?
    requires After(run).db.credentials[t].replacedBy == After(run).db.credentials[u].replacedBy
    ensures t == u
  {
    var credentials := After(run).db.credentials;
    OneUnusedPerFamily(run, t, t);
    OneUnusedPerFamily(run, u, u);
    var family := credentials[t].family;
    FamiliesAreChains(run, family);
    SameReplacement(credentials, family, IssueOrder(run, family), t, u);
  }

  lemma SameReplacement(credentials: Credentials, family: FamilyId, chain: seq<RefreshToken>, t: RefreshToken, u: RefreshToken)
    requires IsChain(credentials, family, chain)
    requires t in credentials && u in credentials
    requires credentials[t].family == family && credentials[u].family == family
    requires credentials[t].replacedBy.Some? && credentials[t].replacedBy == credentials[u].replacedBy
    ensures t == u
  {
    var i := IndexOf(credentials, family, chain, t);
    var k := IndexOf(credentials, family, chain, u);
    hide LinkedTo, IsTail;
    assert chain[k + 1] == chain[i + 1];
  }

  /** Where a replaced member stands in its chain. */
  lemma IndexOf(credentials: Credentials, family: FamilyId, chain: seq<RefreshToken>, t: RefreshToken) returns (i: nat)
    requires IsChain(credentials, family, chain)
    requires t in credentials && credentials[t].family == family && credentials[t].replacedBy.Some?
    ensures i < |chain| - 1 && chain[i] == t && credentials[t].replacedBy == Some(chain[i + 1])
  {
    UnusedIsLast(credentials, family, chain, t);
    i :| 0 <= i < |chain| && chain[i] == t;
    assert LinkedTo(credentials, chain[i], chain[i + 1]);
  }

  /** Positions counted from the end hold the same member in both lists, up to `n`. */
  ghost predicate SameSuffix(c: seq<RefreshToken>, d: seq<RefreshToken>, n: nat) {
    forall i, j :: 0 <= i < |c| && 0 <= j < |d| && |c| - i == |d| - j <= n ==> c[i] == d[j]
  }

  /** The chain of a family is unique, so the family has one order. */
  lemma ChainUnique(credentials: Credentials, family: FamilyId, c: seq<RefreshToken>, d: seq<RefreshToken>)
    requires IsChain(credentials, family, c) && IsChain(credentials, family, d)
    ensures c == d
  {
    NotLonger(credentials, family, c, d);
    NotLonger(credentials, family, d, c);
    SuffixesAgree(credentials, family, c, d, |c|);
    hide IsChain;
    assert forall i :: 0 <= i < |c| ==> c[i] == d[i];
  }

  lemma {:induction false} SuffixesAgree(credentials: Credentials, family: FamilyId, c: seq<RefreshToken>, d: seq<RefreshToken>, n: nat)
    requires IsChain(credentials, family, c) && IsChain(credentials, family, d)
    requires n <= |c| && n <= |d|
    ensures SameSuffix(c, d, n)
  {
    if n > 0 {
      SuffixesAgree(credentials, family, c, d, n - 1);
      SuffixGrows(credentials, family, c, d, n);
    }
  }

  lemma SuffixGrows(credentials: Credentials, family: FamilyId, c: seq<RefreshToken>, d: seq<RefreshToken>, n: nat)
    requires IsChain(credentials, family, c) && IsChain(credentials, family, d)
    requires 0 < n <= |c| && n <= |d| && SameSuffix(c, d, n - 1)
    ensures SameSuffix(c, d, n)
  {
    var t := c[|c| - n];
    UnusedIsLast(credentials, family, c, t);
    UnusedIsLast(credentials, family, d, t);
    if n > 1 {
      assert t != c[|c| - 1];
      var i := IndexOf(credentials, family, c, t);
      var j := IndexOf(credentials, family, d, t);
      hide LinkedTo, IsTail;
      assert i == |c| - n;
      assert c[i + 1] == d[|d| - n + 1];
      assert j + 1 == |d| - n + 1;
    }
  }

  lemma NotLonger(credentials: Credentials, family: FamilyId, c: seq<RefreshToken>, d: seq<RefreshToken>)
    requires IsChain(credentials, family, c) && IsChain(credentials, family, d)
    ensures |d| <= |c|
  {
    if |c| < |d| {
      SuffixesAgree(credentials, family, c, d, |c|);
      HeadIsInSuffix(c, d);
      assert false;
    }
  }

  lemma HeadIsInSuffix(c: seq<RefreshToken>, d: seq<RefreshToken>)
    requires |c| < |d| && SameSuffix(c, d, |c|)
    requires forall i, j :: 0 <= i < j < |d| ==> d[i] != d[j]
    ensures d[0] !in c
  {
    forall k | 0 <= k < |c| ensures c[k] != d[0] {
      assert c[k] == d[|d| - |c| + k];
    }
  }
}
