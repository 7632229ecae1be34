/** Types shared by every part of the model. */
module Prelude {

  /** A nullable database column, a missing row or an absent argument. */
  datatype Option<+T> = None | Some(value: T)

  /** Clock readings in milliseconds. */
  type Millis = int

  /** Membership roles, from packages/database/prisma/schema.prisma. */
  datatype Role = OWNER | ADMIN | MEMBER | VIEWER

  /** The session data that the services receive as the acting user. */
  datatype Actor = Actor(tenantId: nat, userId: nat, role: Role)

  /** The roles that administer a workspace. */
  predicate IsTenantAdmin(role: Role) {
    role == OWNER || role == ADMIN
  }

  /** What has happened so far, oldest event first. */
  datatype History<E> = Start | Then(past: History<E>, event: E)

  /** `h` is an initial part of `run`, possibly all of it. */
  predicate Within<E(==)>(h: History<E>, run: History<E>)
    decreases run
  {
    h == run || (run.Then? && Within(h, run.past))
  }

  lemma {:induction false} WithinTransitive<E>(a: History<E>, b: History<E>, c: History<E>)
    requires Within(a, b) && Within(b, c)
    ensures Within(a, c)
    decreases c
  {
    if b != c {
      WithinTransitive(a, b, c.past);
    }
  }

  /** Two more events. */
  lemma WithinLonger<E>(h: History<E>, run: History<E>, d: E, e: E)
    requires Within(h, run)
    ensures Within(h, Then(Then(run, d), e))
  {
    assert Within(h, Then(run, d));
  }

  /** Initial parts of one history are comparable. */
  lemma {:induction false} WithinLinear<E>(a: History<E>, b: History<E>, run: History<E>)
    requires Within(a, run) && Within(b, run)
    ensures Within(a, b) || Within(b, a)
    decreases run
  {
    if a != run && b != run {
      WithinLinear(a, b, run.past);
    }
  }
}
