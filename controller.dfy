/**
 * The record store and the organization controller's handlers as methods
 * that update it in place, one Mongoose call after another.  Each method's
 * contract ties the new store and its answer to the transition of the same
 * name in module Handlers, where the properties of each handler are stated.
 */
module Controller {
  import opened Models
  import opened ArrayOps
  import H = Handlers

  /** What getOrgData sends back: the organization, its tasklists, the tasks of
      each of those tasklists (by tasklist id) and the user record (or null)
      of each member (by user id). */
  datatype OrgData = OrgData(
    org: Organization,
    tasklists: map<Id, Tasklist>,
    tasks: map<Id, map<Id, Task>>,
    members: map<Id, Option<User>>)

  /** The four collections, keyed by document id, and the id generator. */
  class OrgStore {
    var users: map<Id, User>
    var orgs: map<Id, Organization>
    var tasklists: map<Id, Tasklist>
    var tasks: map<Id, Task>
    var nextId: nat
    var startTime: int

    /** The whole store as a value. */
    function Snapshot(): Db
      reads this
    {
      Db(users, orgs, tasklists, tasks, nextId, startTime)
    }

    ghost predicate Valid()
      reads this
    {
      WellFormed(Snapshot())
    }

    /** A store holding the given registered users and nothing else, for a
        server whose Task schema was built at `started`.  Users enter the
        store by signing up, which is not part of this model. */
    constructor (registered: map<Id, User>, next: nat, started: int)
      requires IdsBelow(registered, next) && UniqueEmails(registered)
      ensures Valid()
      ensures Snapshot() == Db(registered, map[], map[], map[], next, started)
    {
      users, orgs, tasklists, tasks := registered, map[], map[], map[];
      nextId := next;
      startTime := started;
    }

    /** The id a newly saved document receives. */
    method FreshId() returns (id: Id)
      modifies this`nextId
      ensures id == old(nextId) && nextId == id + 1
    {
      id := nextId;
      nextId := nextId + 1;
    }

    /** createOrg, controllers/organizations.js:14-48 */
    method CreateOrg(creator: Id, name: string, desc: string) returns (r: Result<Id>)
      requires Valid()
      modifies this
      ensures Valid()
      ensures H.Step(Snapshot(), r) == H.CreateOrg(old(Snapshot()), creator, name, desc)
    {
      // org.save()
      var id := FreshId();
      orgs := orgs[id := Organization(creator, name, desc, [creator], [])];
      // User.findOneAndUpdate({ _id: creator }, { org_id: id })
      if creator in users {
        users := users[creator := users[creator].(orgId := Some(id))];
        r := Ok(id);
      } else {
        // `userData._id` on null
        r := Err(NotFound);
      }
    }

    /** addMemberOrg, controllers/organizations.js:57-82 */
    method AddMemberOrg(orgId: Id, email: string) returns (r: Result<Id>)
      requires Valid()
      modifies this
      ensures Valid()
      ensures H.Step(Snapshot(), r) == H.AddMemberOrg(old(Snapshot()), orgId, email)
    {
      // User.findOneAndUpdate({ email }, { $set: { org_id } })
      if u :| u in users && users[u].email == email {
        users := users[u := users[u].(orgId := Some(orgId))];
        // Organization.findOneAndUpdate({ id: org_id }, { $push: { members: u } })
        if orgId in orgs {
          orgs := orgs[orgId := orgs[orgId].(members := orgs[orgId].members + [u])];
        }
        r := Ok(u);
      } else {
        // `user._id` on null
        r := Err(NotFound);
      }
    }

    /** createTasklist, controllers/organizations.js:91-113 */
    method CreateTasklist(title: string, orgId: Id) returns (r: Result<Id>)
      requires Valid()
      modifies this
      ensures Valid()
      ensures H.Step(Snapshot(), r) == H.CreateTasklist(old(Snapshot()), title, orgId)
    {
      // tasklist.save()
      var id := FreshId();
      tasklists := tasklists[id := Tasklist(title, orgId, [])];
      // Organization.findOneAndUpdate({ id: org_id }, { $push: { tasklist: id } })
      if orgId in orgs {
        orgs := orgs[orgId := orgs[orgId].(tasklist := orgs[orgId].tasklist + [id])];
      }
      r := Ok(id);
    }

    /** createTask, controllers/organizations.js:122-148; `created_at` is the
        schema default `startTime`, the same for every task. */
    method CreateTask(title: string, tasklistId: Id, status: string, desc: string,
                      due: Option<int>) returns (r: Result<Id>)
      requires Valid()
      modifies this
      ensures Valid()
      ensures H.Step(Snapshot(), r) == H.CreateTask(old(Snapshot()), title, tasklistId, status, desc, due)
    {
      // task.save()
      var id := FreshId();
      tasks := tasks[id := Task(title, desc, status, startTime, due, [], tasklistId)];
      // Tasklist.findOneAndUpdate({ id: tasklist_id }, { $push: { tasks: id } })
      if tasklistId in tasklists {
        tasklists := tasklists[tasklistId := tasklists[tasklistId].(tasks := tasklists[tasklistId].tasks + [id])];
      }
      r := Ok(id);
    }

    /** removeMember, controllers/organizations.js:157-190 */
    method RemoveMember(orgId: Id, userId: Id, requestUserId: Id) returns (r: Result<Option<User>>)
      requires Valid()
      modifies this
      ensures Valid()
      ensures H.Step(Snapshot(), r) == H.RemoveMember(old(Snapshot()), orgId, userId, requestUserId)
    {
      // Organization.findOne({ _id: org_id }); `org.creator` on null
      if orgId !in orgs {
        return Err(NotFound);
      }
      if orgs[orgId].creator != requestUserId {
        return Err(NotOwner);
      }
      // Organization.findOneAndUpdate({ _id: org_id }, { $pull: { members: user_id } })
      orgs := orgs[orgId := orgs[orgId].(members := Pull(orgs[orgId].members, userId))];
      // User.findOneAndUpdate({ _id: user_id }, { $set: { org_id: null } }) answers the old record
      var before := Lookup(users, userId);
      if userId in users {
        users := users[userId := users[userId].(orgId := None)];
      }
      // Task.updateMany({ assignees: { $in: [user_id] } }, { $pull: { assignees: user_id } })
      tasks := H.UnassignEverywhere(tasks, userId);
      r := Ok(before);
    }

    /** removeMemberTask, controllers/organizations.js:199-226 */
    method RemoveMemberTask(taskId: Id, userId: Id, requestUserId: Id, orgId: Id)
      returns (r: Result<Option<Task>>)
      requires Valid()
      modifies this
      ensures Valid()
      ensures H.Step(Snapshot(), r) == H.RemoveMemberTask(old(Snapshot()), taskId, userId, requestUserId, orgId)
    {
      // Organization.findOne({ _id: org_id }); `org.members` on null
      if orgId !in orgs {
        return Err(NotFound);
      }
      if requestUserId !in orgs[orgId].members {
        return Err(NotMember);
      }
      // Task.findOneAndUpdate({ _id: task_id }, { $pull: { assignees: user_id } }, { new: true })
      if taskId in tasks {
        tasks := tasks[taskId := tasks[taskId].(assignees := Pull(tasks[taskId].assignees, userId))];
      }
      r := Ok(Lookup(tasks, taskId));
    }

    /** addMember, controllers/organizations.js:234-256 */
    method AddMember(taskId: Id, userArray: seq<Id>) returns (r: Result<seq<Id>>)
      requires Valid()
      modifies this
      ensures Valid()
      ensures H.Step(Snapshot(), r) == H.AddMember(old(Snapshot()), taskId, userArray)
    {
      // Task.findOneAndUpdate({ _id: task_id }, { $push: { assignees: userArray } })
      if taskId in tasks {
        tasks := tasks[taskId := tasks[taskId].(assignees := tasks[taskId].assignees + userArray)];
      }
      r := Ok(userArray);
    }

    /** changeStatus, controllers/organizations.js:265-288 */
    method ChangeStatus(taskId: Id, userId: Id, status: string) returns (r: Result<string>)
      requires Valid()
      modifies this
      ensures Valid()
      ensures H.Step(Snapshot(), r) == H.ChangeStatus(old(Snapshot()), taskId, userId, status)
    {
      // Task.findOne({ _id: task_id }); `task.assignees` on null
      if taskId !in tasks {
        return Err(NotFound);
      }
      if userId in tasks[taskId].assignees {
        // Task.findOneAndUpdate({ _id: task_id }, { $set: { status } })
        tasks := tasks[taskId := tasks[taskId].(status := status)];
        r := Ok(status);
      } else {
        r := Err(NotAssignee);
      }
    }

    /** `Task.find({ tasklist_id: l })` */
    function TasksIn(l: Id): (r: map<Id, Task>)
      reads this
      ensures forall t :: t in r <==> t in tasks && tasks[t].tasklistId == l
      ensures forall t :: t in r ==> r[t] == tasks[t]
    {
      map t | t in tasks && tasks[t].tasklistId == l :: tasks[t]
    }

    /** getOrgData, controllers/organizations.js:297-326: read-only.  It fills
        one dictionary with the user record of every member and another with
        the tasks of every tasklist of the organization. */
    method GetOrgData(orgId: Id) returns (r: Result<OrgData>)
      ensures r.Ok? <==> orgId in orgs
      ensures r.Err? ==> r.error == NotFound
      ensures r.Ok? ==>
        var data := r.value;
        && data.org == orgs[orgId]
        && (forall m :: m in data.members <==> m in orgs[orgId].members)
        && (forall m :: m in data.members ==> data.members[m] == Lookup(users, m))
        && (forall l :: l in data.tasklists <==> l in tasklists && tasklists[l].orgId == orgId)
        && (forall l :: l in data.tasklists ==> data.tasklists[l] == tasklists[l])
        && data.tasks.Keys == data.tasklists.Keys
        && (forall l, t :: l in data.tasks ==>
              (t in data.tasks[l] <==> t in tasks && tasks[t].tasklistId == l))
        && (forall l, t :: l in data.tasks && t in data.tasks[l] ==> data.tasks[l][t] == tasks[t])
    {
      // Organization.findOne({ id: org_id })
      if orgId !in orgs {
        // `org.members` on null
        return Err(NotFound);
      }
      var org := orgs[orgId];
      // Tasklist.find({ org_id })
      var lists := map l | l in tasklists && tasklists[l].orgId == orgId :: tasklists[l];

      var allMembers: map<Id, Option<User>> := map[];
      for i := 0 to |org.members|
        invariant forall m :: m in allMembers <==> m in org.members[..i]
        invariant forall m :: m in allMembers ==> allMembers[m] == Lookup(users, m)
      {
        var member := org.members[i];
        allMembers := allMembers[member := Lookup(users, member)];
      }
      assert org.members[..|org.members|] == org.members;

      var allTasks: map<Id, map<Id, Task>> := map[];
      var pending := lists.Keys;
      while pending != {}
        invariant pending <= lists.Keys
        invariant allTasks.Keys == lists.Keys - pending
        invariant forall l :: l in allTasks ==> allTasks[l] == TasksIn(l)
        decreases pending
      {
        var l :| l in pending;
        allTasks := allTasks[l := TasksIn(l)];
        pending := pending - {l};
      }
      r := Ok(OrgData(org, lists, allTasks, allMembers));
    }
  }
}
