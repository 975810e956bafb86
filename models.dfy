/**
 * The four record kinds of the task tracker (User, Organization, Tasklist,
 * Task) and the record store that holds them, one map per kind from id to
 * record.  Every list field (members, tasklist, tasks, assignees) is a
 * sequence: MongoDB's `$push` appends, so a list may hold an id twice.
 */
module Models {

  /** A document id.  MongoDB ObjectIds are opaque; the store hands them out. */
  type Id = nat

  datatype Option<T> = None | Some(value: T)

  /** Why a handler gave up.  NotFound is the TypeError raised by reading a
      field of a lookup that returned null; the others are the 400 answers. */
  datatype Failure = NotFound | NotOwner | NotMember | NotAssignee

  datatype Result<T> = Ok(value: T) | Err(error: Failure)

  /** A user; `orgId` is None while the user belongs to no organization. */
  datatype User = User(email: string, fullName: string, password: string, orgId: Option<Id>)

  datatype Organization = Organization(
    creator: Id,
    name: string,
    desc: string,
    members: seq<Id>,
    tasklist: seq<Id>)

  datatype Tasklist = Tasklist(title: string, orgId: Id, tasks: seq<Id>)

  /** `createdAt` and `due` are timestamps the model does not interpret. */
  datatype Task = Task(
    title: string,
    desc: string,
    status: string,
    createdAt: int,
    due: Option<int>,
    assignees: seq<Id>,
    tasklistId: Id)

  /** The whole database as a value; `nextId` is the next id the store hands
      out.  `startTime` is the `Date.now()` the Task schema's `created_at`
      default evaluates once, when the schema is built: every task the
      server creates carries that one time, and no handler changes it. */
  datatype Db = Db(
    users: map<Id, User>,
    orgs: map<Id, Organization>,
    tasklists: map<Id, Tasklist>,
    tasks: map<Id, Task>,
    nextId: nat,
    startTime: int)

  predicate IdsBelow<V>(m: map<Id, V>, bound: nat) {
    forall k :: k in m ==> k < bound
  }

  /** Signup refuses an email that is already registered, so no two users share one. */
  predicate UniqueEmails(users: map<Id, User>) {
    forall a, b :: a in users && b in users && users[a].email == users[b].email ==> a == b
  }

  /** The store's own invariant: every id in use is below `nextId`, and emails are unique. */
  predicate WellFormed(db: Db) {
    && IdsBelow(db.users, db.nextId)
    && IdsBelow(db.orgs, db.nextId)
    && IdsBelow(db.tasklists, db.nextId)
    && IdsBelow(db.tasks, db.nextId)
    && UniqueEmails(db.users)
  }

  /** `findOne({ _id: k })`: the record, or null. */
  function Lookup<V>(m: map<Id, V>, k: Id): (r: Option<V>)
    ensures r.Some? <==> k in m
    ensures r.Some? ==> r.value == m[k]
  {
    if k in m then Some(m[k]) else None
  }

  /** `after` holds the same ids as `before` and differs from it at most in
      the record under `k`. */
  ghost predicate ChangedAt<V>(before: map<Id, V>, after: map<Id, V>, k: Id) {
    k in before && k in after && after == before[k := after[k]]
  }

  /** `after` is `before` with one record inserted under the fresh id `k`. */
  ghost predicate InsertedAt<V>(before: map<Id, V>, after: map<Id, V>, k: Id) {
    k !in before && k in after && after == before[k := after[k]]
  }
}
