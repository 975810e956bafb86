/**
 * Properties of task assignment and status that relate several requests:
 * assignees form a list, not a set; unassigning undoes an assignment; the
 * status gate is the assignee list, so a member removed from the
 * organization loses it on every task.
 */
module Assignments {
  import opened Models
  import opened ArrayOps
  import opened Handlers

  /** addMember appends with no duplicate check: sending the same user twice
      lists that user two more times. */
  lemma AddMemberTwiceDuplicates(db: Db, taskId: Id, u: Id)
    requires WellFormed(db) && taskId in db.tasks
    ensures var once := AddMember(db, taskId, [u]).db;
      var twice := AddMember(once, taskId, [u]).db;
      multiset(twice.tasks[taskId].assignees)[u] == multiset(db.tasks[taskId].assignees)[u] + 2
  {
    var once := AddMember(db, taskId, [u]).db;
    var twice := AddMember(once, taskId, [u]).db;
    assert twice.tasks[taskId].assignees == db.tasks[taskId].assignees + [u] + [u];
  }

  /** addMember checks no membership: a user listed by no organization, once
      assigned, is an assignee and so may set the task's status, while
      still belonging to no organization. */
  lemma NonMemberCanBeAssigned(db: Db, taskId: Id, u: Id, status: string)
    requires WellFormed(db) && taskId in db.tasks
    requires forall o :: o in db.orgs ==> u !in db.orgs[o].members
    ensures var once := AddMember(db, taskId, [u]).db;
      && u in once.tasks[taskId].assignees
      && (forall o :: o in once.orgs ==> u !in once.orgs[o].members)
      && ChangeStatus(once, taskId, u, status).out == Ok(status)
  {
    var once := AddMember(db, taskId, [u]).db;
    assert once.tasks[taskId].assignees == db.tasks[taskId].assignees + [u];
    assert u in once.tasks[taskId].assignees;
  }

  /** removeMemberTask checks membership in the organization the request
      names, not in the one that owns the task: a member of `orgId` may pull
      a user from a task whose tasklist belongs to another organization. */
  lemma UnassignAcrossOrganizations(db: Db, taskId: Id, userId: Id, requestUserId: Id, orgId: Id)
    requires WellFormed(db) && taskId in db.tasks
    requires orgId in db.orgs && requestUserId in db.orgs[orgId].members
    requires db.tasks[taskId].tasklistId in db.tasklists
    requires db.tasklists[db.tasks[taskId].tasklistId].orgId != orgId
    ensures var s := RemoveMemberTask(db, taskId, userId, requestUserId, orgId);
      && s.out.Ok? && s.out.value.Some?
      && userId !in s.db.tasks[taskId].assignees
      && s.db.tasklists[s.db.tasks[taskId].tasklistId].orgId != orgId
  {
  }

  /** changeStatus accepts any status string: whether the change succeeds
      does not depend on the value asked for, and the value is stored as
      given. */
  lemma AnyStatusAccepted(db: Db, taskId: Id, userId: Id, status: string, other: string)
    requires WellFormed(db)
    ensures ChangeStatus(db, taskId, userId, status).out.Ok?
        <==> ChangeStatus(db, taskId, userId, other).out.Ok?
    ensures ChangeStatus(db, taskId, userId, status).out.Ok? ==>
      ChangeStatus(db, taskId, userId, status).db.tasks[taskId].status == status
  {
  }

  /** A member pulling a user from a task after that user was pushed onto it
      leaves the task's assignees as pulling alone would, and every other
      record as it was. */
  lemma UnassignUndoesAssign(db: Db, taskId: Id, u: Id, requestUserId: Id, orgId: Id)
    requires WellFormed(db) && taskId in db.tasks
    requires orgId in db.orgs && requestUserId in db.orgs[orgId].members
    ensures var once := AddMember(db, taskId, [u]).db;
      var back := RemoveMemberTask(once, taskId, u, requestUserId, orgId).db;
      var task := db.tasks[taskId];
      back == db.(tasks := db.tasks[taskId := task.(assignees := Pull(task.assignees, u))])
  {
    var task := db.tasks[taskId];
    var once := AddMember(db, taskId, [u]).db;
    assert once.tasks == db.tasks[taskId := task.(assignees := task.assignees + [u])];
    var back := RemoveMemberTask(once, taskId, u, requestUserId, orgId).db;
    assert back.tasks == once.tasks[taskId := task.(assignees := Pull(task.assignees + [u], u))];
    PullAfterPush(task.assignees, [u], u);
  }

  /** When the user was not assigned before, unassigning after assigning puts
      the whole database back where it started. */
  lemma UnassignRestores(db: Db, taskId: Id, u: Id, requestUserId: Id, orgId: Id)
    requires WellFormed(db) && taskId in db.tasks && u !in db.tasks[taskId].assignees
    requires orgId in db.orgs && requestUserId in db.orgs[orgId].members
    ensures var once := AddMember(db, taskId, [u]).db;
      RemoveMemberTask(once, taskId, u, requestUserId, orgId).db == db
  {
    UnassignUndoesAssign(db, taskId, u, requestUserId, orgId);
    var task := db.tasks[taskId];
    PullAbsent(task.assignees, u);
    assert db.tasks[taskId := task] == db.tasks;
  }

  /** Setting the same status twice is setting it once. */
  lemma ChangeStatusIdempotent(db: Db, taskId: Id, userId: Id, status: string)
    requires WellFormed(db)
    ensures var first := ChangeStatus(db, taskId, userId, status);
      ChangeStatus(first.db, taskId, userId, status) == first
  {
    var first := ChangeStatus(db, taskId, userId, status);
    if first.out.Ok? {
      assert first.db.tasks[taskId] == db.tasks[taskId].(status := status);
      assert first.db.tasks[taskId := first.db.tasks[taskId].(status := status)] == first.db.tasks;
    }
  }

  /** Once the creator has removed a user, that user may change the status of
      no task in the store, not only of this organization's tasks. */
  lemma RemovedMemberCannotChangeStatus(db: Db, orgId: Id, userId: Id, requestUserId: Id,
                                        taskId: Id, status: string)
    requires WellFormed(db) && RemoveMember(db, orgId, userId, requestUserId).out.Ok?
    ensures var after := RemoveMember(db, orgId, userId, requestUserId).db;
      var s := ChangeStatus(after, taskId, userId, status);
      s.out.Err? && s.db == after
  {
  }
}
