/**
 * The eight state-changing handlers of the organization controller as
 * transitions of the database value: each takes the database before the
 * request and returns the database after it together with the handler's
 * answer.  The HTTP layer is gone; what is left is the sequence of record
 * updates each handler issues and the checks it makes before issuing them.
 * The ninth handler, getOrgData, only reads; it is a method of
 * `Controller.OrgStore`.
 *
 * A lookup that returns null and is then dereferenced throws; that is
 * `Err(NotFound)`.  In every handler but createOrg the throw comes before
 * the first write, so the database is unchanged.  An update whose filter
 * matches nothing is not an error: it writes nothing and the handler goes on.
 */
module Handlers {
  import opened Models
  import opened ArrayOps

  /** The database after a request, and the handler's answer. */
  datatype Step<T> = Step(db: Db, out: Result<T>)

  /** Some user is registered under `email`. */
  predicate HasEmail(users: map<Id, User>, email: string) {
    exists u :: u in users && users[u].email == email
  }

  /** createOrg: save a new organization whose only member is its creator, then
      point the creator's `org_id` at it.  The save happens first, so a
      missing creator still leaves the new organization behind. */
  function CreateOrg(db: Db, creator: Id, name: string, desc: string): (s: Step<Id>)
    requires WellFormed(db)
    ensures WellFormed(s.db) && s.db.nextId == db.nextId + 1
    ensures InsertedAt(db.orgs, s.db.orgs, db.nextId)
    ensures s.db.orgs[db.nextId] == Organization(creator, name, desc, [creator], [])
    ensures creator in db.users ==>
      && s.out == Ok(db.nextId)
      && ChangedAt(db.users, s.db.users, creator)
      && s.db.users[creator] == db.users[creator].(orgId := Some(db.nextId))
    ensures creator !in db.users ==> s.out == Err(NotFound) && s.db.users == db.users
    ensures s.db.tasklists == db.tasklists && s.db.tasks == db.tasks
    ensures s.db.startTime == db.startTime
  {
    var id := db.nextId;
    var org := Organization(creator, name, desc, [creator], []);
    var saved := db.(orgs := db.orgs[id := org], nextId := id + 1);
    if creator in saved.users then
      Step(saved.(users := SetOrgId(saved.users, creator, Some(id))), Ok(id))
    else
      Step(saved, Err(NotFound))
  }

  /** addMemberOrg: set the `org_id` of the user registered under `email`, then
      append that user to the organization's members.  Neither step checks
      anything: a user already in another organization is moved without being
      removed from it, and an unknown organization id is written to the user
      although no organization record changes. */
  function AddMemberOrg(db: Db, orgId: Id, email: string): (s: Step<Id>)
    requires WellFormed(db)
    ensures WellFormed(s.db) && s.db.nextId == db.nextId
    ensures s.out.Ok? <==> HasEmail(db.users, email)
    ensures !HasEmail(db.users, email) ==> s == Step(db, Err(NotFound))
    ensures s.out.Ok? ==>
      var u := s.out.value;
      && u in db.users && db.users[u].email == email
      && ChangedAt(db.users, s.db.users, u)
      && s.db.users[u] == db.users[u].(orgId := Some(orgId))
      && (orgId in db.orgs ==>
            && ChangedAt(db.orgs, s.db.orgs, orgId)
            && s.db.orgs[orgId] == db.orgs[orgId].(members := db.orgs[orgId].members + [u]))
      && (orgId !in db.orgs ==> s.db.orgs == db.orgs)
    ensures s.db.tasklists == db.tasklists && s.db.tasks == db.tasks
    ensures s.db.startTime == db.startTime
  {
    if HasEmail(db.users, email) then
      var u :| u in db.users && db.users[u].email == email;
      var users := SetOrgId(db.users, u, Some(orgId));
      var orgs :=
        if orgId in db.orgs
        then db.orgs[orgId := db.orgs[orgId].(members := db.orgs[orgId].members + [u])]
        else db.orgs;
      Step(db.(users := users, orgs := orgs), Ok(u))
    else
      Step(db, Err(NotFound))
  }

  /** createTasklist: save a new, empty tasklist, then append its id to the
      organization's `tasklist`.  An unknown organization gets no update, and
      the new tasklist is still saved and returned. */
  function CreateTasklist(db: Db, title: string, orgId: Id): (s: Step<Id>)
    requires WellFormed(db)
    ensures WellFormed(s.db) && s.db.nextId == db.nextId + 1
    ensures s.out == Ok(db.nextId)
    ensures InsertedAt(db.tasklists, s.db.tasklists, db.nextId)
    ensures s.db.tasklists[db.nextId] == Tasklist(title, orgId, [])
    ensures orgId in db.orgs ==>
      && ChangedAt(db.orgs, s.db.orgs, orgId)
      && s.db.orgs[orgId] == db.orgs[orgId].(tasklist := db.orgs[orgId].tasklist + [db.nextId])
    ensures orgId !in db.orgs ==> s.db.orgs == db.orgs
    ensures s.db.users == db.users && s.db.tasks == db.tasks
    ensures s.db.startTime == db.startTime
  {
    var id := db.nextId;
    var saved := db.(tasklists := db.tasklists[id := Tasklist(title, orgId, [])], nextId := id + 1);
    if orgId in saved.orgs then
      var org := saved.orgs[orgId];
      Step(saved.(orgs := saved.orgs[orgId := org.(tasklist := org.tasklist + [id])]), Ok(id))
    else
      Step(saved, Ok(id))
  }

  /** createTask: save a new task with no assignees, stamped with the schema's
      `created_at` default `startTime`, then append
      its id to the tasklist's `tasks`.  An unknown tasklist gets no update,
      and the new task is still saved and returned. */
  function CreateTask(db: Db, title: string, tasklistId: Id, status: string, desc: string,
                      due: Option<int>): (s: Step<Id>)
    requires WellFormed(db)
    ensures WellFormed(s.db) && s.db.nextId == db.nextId + 1
    ensures s.out == Ok(db.nextId)
    ensures InsertedAt(db.tasks, s.db.tasks, db.nextId)
    ensures s.db.tasks[db.nextId] == Task(title, desc, status, db.startTime, due, [], tasklistId)
    ensures tasklistId in db.tasklists ==>
      && ChangedAt(db.tasklists, s.db.tasklists, tasklistId)
      && s.db.tasklists[tasklistId]
         == db.tasklists[tasklistId].(tasks := db.tasklists[tasklistId].tasks + [db.nextId])
    ensures tasklistId !in db.tasklists ==> s.db.tasklists == db.tasklists
    ensures s.db.users == db.users && s.db.orgs == db.orgs
    ensures s.db.startTime == db.startTime
  {
    var id := db.nextId;
    var task := Task(title, desc, status, db.startTime, due, [], tasklistId);
    var saved := db.(tasks := db.tasks[id := task], nextId := id + 1);
    if tasklistId in saved.tasklists then
      var list := saved.tasklists[tasklistId];
      Step(saved.(tasklists := saved.tasklists[tasklistId := list.(tasks := list.tasks + [id])]), Ok(id))
    else
      Step(saved, Ok(id))
  }

  /** `Task.updateMany({ assignees: { $in: [u] } }, { $pull: { assignees: u } })`
      over the whole task collection. */
  function UnassignEverywhere(tasks: map<Id, Task>, u: Id): (r: map<Id, Task>)
    ensures r.Keys == tasks.Keys
    ensures forall t :: t in tasks ==> r[t] == tasks[t].(assignees := Pull(tasks[t].assignees, u))
    ensures forall t :: t in r ==> u !in r[t].assignees
  {
    assert forall t :: t in tasks && u !in tasks[t].assignees ==>
        Pull(tasks[t].assignees, u) == tasks[t].assignees by {
      forall t | t in tasks && u !in tasks[t].assignees {
        PullAbsent(tasks[t].assignees, u);
      }
    }
    map t | t in tasks ::
      if u in tasks[t].assignees
      then tasks[t].(assignees := Pull(tasks[t].assignees, u))
      else tasks[t]
  }

  /** `User.findOneAndUpdate({ _id: u }, { $set: { org_id: o } })`; no
      match writes nothing. */
  function SetOrgId(users: map<Id, User>, u: Id, o: Option<Id>): (r: map<Id, User>)
    requires UniqueEmails(users)
    ensures UniqueEmails(r) && r.Keys == users.Keys
    ensures u in users ==> ChangedAt(users, r, u) && r[u] == users[u].(orgId := o)
    ensures u !in users ==> r == users
  {
    if u in users then users[u := users[u].(orgId := o)] else users
  }

  /** The three updates removeMember issues once the creator has asked: pull
      the user from the organization's members, clear the user's `org_id`, and
      pull the user from the assignees of EVERY task in the store, whatever
      organization it belongs to. */
  function Expel(db: Db, orgId: Id, userId: Id): (after: Db)
    requires WellFormed(db) && orgId in db.orgs
    ensures WellFormed(after) && after.nextId == db.nextId
    ensures ChangedAt(db.orgs, after.orgs, orgId)
    ensures after.orgs[orgId] == db.orgs[orgId].(members := Pull(db.orgs[orgId].members, userId))
    ensures userId !in after.orgs[orgId].members
    ensures userId in db.users ==>
      && ChangedAt(db.users, after.users, userId)
      && after.users[userId] == db.users[userId].(orgId := None)
    ensures userId !in db.users ==> after.users == db.users
    ensures after.tasks.Keys == db.tasks.Keys
    ensures forall t :: t in db.tasks ==>
      after.tasks[t] == db.tasks[t].(assignees := Pull(db.tasks[t].assignees, userId))
    ensures forall t :: t in after.tasks ==> userId !in after.tasks[t].assignees
    ensures after.tasklists == db.tasklists && after.startTime == db.startTime
  {
    var org := db.orgs[orgId];
    var orgs := db.orgs[orgId := org.(members := Pull(org.members, userId))];
    var users := SetOrgId(db.users, userId, None);
    var tasks := UnassignEverywhere(db.tasks, userId);
    assert IdsBelow(orgs, db.nextId) && IdsBelow(tasks, db.nextId);
    db.(orgs := orgs, users := users, tasks := tasks)
  }

  /** removeMember: only the organization's creator may remove a member, and
      nothing checks that the user removed was a member.  The answer is the
      user record as it was before the update, or null. */
  function RemoveMember(db: Db, orgId: Id, userId: Id, requestUserId: Id): (s: Step<Option<User>>)
    requires WellFormed(db)
    ensures WellFormed(s.db)
    ensures orgId !in db.orgs ==> s == Step(db, Err(NotFound))
    ensures orgId in db.orgs && db.orgs[orgId].creator != requestUserId ==> s == Step(db, Err(NotOwner))
    ensures s.out.Ok? <==> orgId in db.orgs && db.orgs[orgId].creator == requestUserId
    ensures s.out.Ok? ==> s == Step(Expel(db, orgId, userId), Ok(Lookup(db.users, userId)))
  {
    if orgId !in db.orgs then
      Step(db, Err(NotFound))
    else if db.orgs[orgId].creator != requestUserId then
      Step(db, Err(NotOwner))
    else
      Step(Expel(db, orgId, userId), Ok(Lookup(db.users, userId)))
  }

  /** removeMemberTask: any member of the organization named in the request may
      pull a user from a task's assignees.  Nothing checks that the task
      belongs to that organization.  The answer is the updated task, or null
      when no task has that id. */
  function RemoveMemberTask(db: Db, taskId: Id, userId: Id, requestUserId: Id, orgId: Id):
    (s: Step<Option<Task>>)
    requires WellFormed(db)
    ensures WellFormed(s.db)
    ensures orgId !in db.orgs ==> s == Step(db, Err(NotFound))
    ensures orgId in db.orgs && requestUserId !in db.orgs[orgId].members ==> s == Step(db, Err(NotMember))
    ensures s.out.Ok? <==> orgId in db.orgs && requestUserId in db.orgs[orgId].members
    ensures s.out.Ok? && taskId !in db.tasks ==> s == Step(db, Ok(None))
    ensures s.out.Ok? && taskId in db.tasks ==>
      && ChangedAt(db.tasks, s.db.tasks, taskId)
      && s.db.tasks[taskId] == db.tasks[taskId].(assignees := Pull(db.tasks[taskId].assignees, userId))
      && userId !in s.db.tasks[taskId].assignees
      && s.out == Ok(Some(s.db.tasks[taskId]))
    ensures s.db == db.(tasks := s.db.tasks)
  {
    if orgId !in db.orgs then
      Step(db, Err(NotFound))
    else if requestUserId !in db.orgs[orgId].members then
      Step(db, Err(NotMember))
    else if taskId in db.tasks then
      var task := db.tasks[taskId].(assignees := Pull(db.tasks[taskId].assignees, userId));
      Step(db.(tasks := db.tasks[taskId := task]), Ok(Some(task)))
    else
      Step(db, Ok(None))
  }

  /** addMember: append the given ids to a task's assignees, with no check that
      they are members and no check for ids already assigned.  An unknown task
      gets no update; the answer is always the ids sent. */
  function AddMember(db: Db, taskId: Id, userArray: seq<Id>): (s: Step<seq<Id>>)
    requires WellFormed(db)
    ensures WellFormed(s.db)
    ensures s.out == Ok(userArray)
    ensures taskId in db.tasks ==>
      && ChangedAt(db.tasks, s.db.tasks, taskId)
      && s.db.tasks[taskId] == db.tasks[taskId].(assignees := db.tasks[taskId].assignees + userArray)
    ensures taskId !in db.tasks ==> s.db == db
    ensures s.db == db.(tasks := s.db.tasks)
  {
    if taskId in db.tasks then
      var task := db.tasks[taskId];
      Step(db.(tasks := db.tasks[taskId := task.(assignees := task.assignees + userArray)]), Ok(userArray))
    else
      Step(db, Ok(userArray))
  }

  /** changeStatus: only an assignee of the task may set its status, to any
      value; there is no order among statuses. */
  function ChangeStatus(db: Db, taskId: Id, userId: Id, status: string): (s: Step<string>)
    requires WellFormed(db)
    ensures WellFormed(s.db)
    ensures taskId !in db.tasks ==> s == Step(db, Err(NotFound))
    ensures taskId in db.tasks && userId !in db.tasks[taskId].assignees ==> s == Step(db, Err(NotAssignee))
    ensures s.out.Ok? <==> taskId in db.tasks && userId in db.tasks[taskId].assignees
    ensures s.out.Ok? ==>
      && s.out == Ok(status)
      && ChangedAt(db.tasks, s.db.tasks, taskId)
      && s.db.tasks[taskId].status == status
      && s.db.tasks[taskId] == db.tasks[taskId].(status := status)
    ensures s.db == db.(tasks := s.db.tasks)
  {
    if taskId !in db.tasks then
      Step(db, Err(NotFound))
    else if userId in db.tasks[taskId].assignees then
      Step(db.(tasks := db.tasks[taskId := db.tasks[taskId].(status := status)]), Ok(status))
    else
      Step(db, Err(NotAssignee))
  }
}
