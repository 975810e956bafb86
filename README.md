# Task-Star organization controller, modelled in Dafny

Task-Star is a task-tracking server. Users belong to organizations. Organizations own tasklists, tasklists own tasks, and tasks are assigned to users. The organization controller (`controllers/organizations.js`) has nine request handlers. Between them they read and update four MongoDB collections: User, Organization, Tasklist and Task. This project models those handlers without their HTTP and Mongoose layers, as a record store with one map per collection, and proves what each handler does to the store.

Membership is written down twice: in `Organization.members` and in `User.org_id`. The handlers keep the two copies in step only in some cases. The proofs say exactly which cases those are.

## Layout

- `models.dfy` (module `Models`): the four record kinds, taken from the Mongoose schemas. Also the database value `Db`, one map per collection plus the id counter, and the store's invariant `WellFormed`: every id in use is below the counter, and no two users share an email.
- `arrayops.dfy` (module `ArrayOps`): MongoDB's `$pull` on a list of ids, with its laws. `$push` is concatenation and is written inline.
- `handlers.dfy` (module `Handlers`): each handler as a function from the database before the request to the database after it, plus the handler's answer. The handler's properties are the `ensures` clauses of these functions.
- `controller.dfy` (module `Controller`): class `OrgStore`, whose fields are the four collections. Its methods perform the Mongoose calls one after another. Each state-changing method's contract equates the new store and its answer with the function of the same name in `Handlers`. `GetOrgData` is read-only and fills its two dictionaries in loops, as the source does.
- `membership.dfy` (module `Membership`): the agreement between `members` and `org_id` (`Symmetric`). For each handler, the lemmas give the exact condition under which the agreement survives.
- `assignments.dfy` (module `Assignments`): properties of assignment and status that involve more than one request.
- `walkthrough.dfy` (module `Walkthrough`): one session against the store, written only against the method contracts. Carol founds an organization. She adds Bob by email. A task is created and Bob is assigned to it. Only Bob may change its status. Removing Bob also takes him off the task.

## Modelling decisions

- Ids are natural numbers handed out by a counter in the store. They stand in for MongoDB's ObjectIds. Users enter the store through the constructor, because signup is not part of this model.
- A lookup that returns null and is then dereferenced throws a TypeError, which the handler turns into a 500 response. This is modelled as `Err(NotFound)`. The dereferences are at lines 35, 71, 165, 207, 273 and 308. In `createOrg` (line 35) the throw comes after the organization is saved and the user update is issued. In every other handler it comes before the first write, so the store is unchanged.
- An update whose filter matches no document writes nothing, and the handler carries on. So the model keeps these behaviours of the code:
  - If the creator does not exist, `createOrg` still saves the organization, and then answers `NotFound`.
  - If the organization id is unknown, `addMemberOrg` still sets the user's `org_id`, and succeeds.
  - If the parent is unknown, `createTasklist` and `createTask` still save the new record, and succeed.
- The 400 answers become their own failures: `NotOwner`, `NotMember` and `NotAssignee`.
- The model keeps these behaviours of the code, which makes none of the extra checks one might expect:
  - `addMember` appends without any membership or duplicate check.
  - `addMemberOrg` overwrites an existing `org_id` without any conflict check.
  - `removeMember` does not check that the target is a member.
  - The `removeMember` cascade pulls the user from every task in the store, not only this organization's tasks.
  - `removeMemberTask` does not check that the task belongs to the organization it checked membership in.
  - `changeStatus` accepts any status string.

  What follows from each of these is stated by:
  - `addMember`: `Assignments.NonMemberCanBeAssigned` (a user in no organization is assigned and may then set the status) and `Assignments.AddMemberTwiceDuplicates`.
  - `addMemberOrg`: `Membership.AddMemberOrgSymmetry`.
  - `removeMember` with a non-member target: `Membership.RemoveMemberSymmetry`.
  - The cascade over every task: `Assignments.RemovedMemberCannotChangeStatus`, and the contract of `Handlers.Expel`.
  - `removeMemberTask`: `Assignments.UnassignAcrossOrganizations`, and the contract of `Handlers.RemoveMemberTask`.
  - `changeStatus`: `Assignments.AnyStatusAccepted`, and the contract of `Handlers.ChangeStatus`.

## Model

| member | source | states |
|---|---|---|
| `Handlers.CreateOrg` | controllers/organizations.js:21-33 | The new organization gets a fresh id, `members == [creator]`, an empty `tasklist`, and the given creator, name and desc. The creator's `org_id` becomes that id. No other record changes. If the creator is missing, the organization is still inserted and the answer is `NotFound`. |
| `Handlers.AddMemberOrg` | controllers/organizations.js:64-73 | It succeeds exactly when some user has the email. That user's `org_id` becomes `org_id`, and the user's id is appended to the organization's `members` when the organization exists. No other record changes. With an unknown email, the store is unchanged and the answer is `NotFound`. |
| `Handlers.CreateTasklist` | controllers/organizations.js:99-105 | A fresh tasklist `(title, org_id, [])` is inserted. Its id is appended to the organization's `tasklist` when the organization exists. No user or task changes. |
| `Handlers.CreateTask` | controllers/organizations.js:129-141 | A fresh task with no assignees and the given fields is inserted. Its `created_at` is the store's `startTime`. Its id is appended to the tasklist's `tasks` when the tasklist exists. No user or organization changes. |
| `Handlers.UnassignEverywhere` | controllers/organizations.js:177-181 | `updateMany` with the `$in` filter is the same as pulling the user from every task. Afterwards the user is in no task's assignees. The set of tasks is the same. |
| `Handlers.SetOrgId` | controllers/organizations.js:173-176 | Setting the `org_id` of an existing user changes that user's `org_id` and nothing else, and emails stay unique. For an unknown id nothing changes. |
| `Handlers.Expel` | controllers/organizations.js:168-181 | This is the cascade. The user is pulled from this organization's members and from every task's assignees, and the user's `org_id` becomes null. Afterwards the user is in neither list, and nothing else changes. |
| `Handlers.RemoveMember` | controllers/organizations.js:164-185 | An unknown organization gives `NotFound`, and a requester who is not the creator gives `NotOwner`; in both cases the store is unchanged. It succeeds exactly when the requester is the creator. Then the new store is the cascade's, and the answer is the user record from before the update. |
| `Handlers.RemoveMemberTask` | controllers/organizations.js:206-217 | An unknown organization gives `NotFound`, and a requester who is not a member gives `NotMember`; in both cases the store is unchanged. When the requester is a member, the user is pulled from the given task only, and the answer is the updated task (null if the task is missing). Only that task changes. |
| `Handlers.AddMember` | controllers/organizations.js:241-252 | The given ids are appended to the task's assignees as they are. The answer is always the ids sent. Nothing but that task changes, and nothing changes if the task is missing. |
| `Handlers.ChangeStatus` | controllers/organizations.js:272-284 | A missing task gives `NotFound`. Otherwise it succeeds exactly when the user is an assignee, and then the task's status becomes the new value and no other field or record changes. A non-assignee gets `NotAssignee` and the store is unchanged. |
| `ArrayOps.Pull` | controllers/organizations.js:170 | `$pull` removes every occurrence of the id and keeps every other element with its multiplicity. |
| `ArrayOps.PullAbsent` | controllers/organizations.js:215 | Pulling an id that is not in the list changes nothing. |
| `ArrayOps.PullAppend` | controllers/organizations.js:179 | `$pull` distributes over concatenation. |
| `ArrayOps.PullAfterPush` | controllers/organizations.js:245 | Pulling an id after pushing copies of it gives the same list as pulling it alone. |
| `Models.Lookup` | controllers/organizations.js:164 | `findOne({ _id: k })` gives the record stored under `k` when there is one, and null exactly when there is none. |
| `Controller.OrgStore.TasksIn` | controllers/organizations.js:313 | `Task.find({ tasklist_id: l })` gives exactly the tasks whose `tasklist_id` is `l`, each with its stored record. |
| `Controller.OrgStore.FreshId` | controllers/organizations.js:28 | A saved document gets the next unused id. |
| `Controller.OrgStore.CreateOrg` | controllers/organizations.js:14-48 | The save and then the user update give exactly `Handlers.CreateOrg`. |
| `Controller.OrgStore.AddMemberOrg` | controllers/organizations.js:57-82 | The user update and then the organization push give exactly `Handlers.AddMemberOrg`. |
| `Controller.OrgStore.CreateTasklist` | controllers/organizations.js:91-113 | The save and then the push give exactly `Handlers.CreateTasklist`. |
| `Controller.OrgStore.CreateTask` | controllers/organizations.js:122-148 | The save and then the push give exactly `Handlers.CreateTask`. |
| `Controller.OrgStore.RemoveMember` | controllers/organizations.js:157-190 | The owner check, the members pull, the `org_id` reset and `updateMany` give exactly `Handlers.RemoveMember`. |
| `Controller.OrgStore.RemoveMemberTask` | controllers/organizations.js:199-226 | The membership check and the assignees pull give exactly `Handlers.RemoveMemberTask`. |
| `Controller.OrgStore.AddMember` | controllers/organizations.js:234-256 | The assignees push gives exactly `Handlers.AddMember`. |
| `Controller.OrgStore.ChangeStatus` | controllers/organizations.js:265-288 | The assignee check and the status set give exactly `Handlers.ChangeStatus`. |
| `Controller.OrgStore.GetOrgData` | controllers/organizations.js:304-314 | It changes nothing, and fails exactly when the organization is missing. Otherwise: the members dictionary's keys are exactly the ids in `org.members`, each mapped to that user's record or null. The tasklists are exactly those whose `org_id` matches. The tasks dictionary has one entry per such tasklist, and each entry holds exactly the tasks whose `tasklist_id` is that tasklist. |
| `Membership.CreateOrgSymmetry` | controllers/organizations.js:21-33 | If the two membership records agreed before, `createOrg` keeps them in agreement exactly when the creator exists and is in no organization. |
| `Membership.AddMemberOrgSymmetry` | controllers/organizations.js:64-73 | If they agreed before, `addMemberOrg` keeps them in agreement exactly when the organization exists and the user is in no organization or already in this one. Otherwise the user is moved without being removed from the old organization, or is pointed at an organization that does not exist. |
| `Membership.RemoveMemberSymmetry` | controllers/organizations.js:168-176 | If they agreed before, `removeMember` by the creator keeps them in agreement exactly when the target is not a member of some other organization. |
| `Membership.ExpelKeepsMembersKnown` | controllers/organizations.js:168-172 | After the cascade, every listed member is still a user whose `org_id` names that organization, provided the target belonged to no other organization. |
| `Membership.ExpelKeepsOrgIdsKnown` | controllers/organizations.js:173-176 | After the cascade, every user whose `org_id` is set is still listed by that organization. |
| `Membership.CreateTasklistKeepsSymmetry` | controllers/organizations.js:99-105 | `createTasklist` never disturbs membership. |
| `Membership.CreateTaskKeepsSymmetry` | controllers/organizations.js:129-141 | `createTask` never disturbs membership. |
| `Membership.RemoveMemberTaskKeepsSymmetry` | controllers/organizations.js:213-217 | `removeMemberTask` never disturbs membership. |
| `Membership.AddMemberKeepsSymmetry` | controllers/organizations.js:243-247 | `addMember` never disturbs membership. |
| `Membership.ChangeStatusKeepsSymmetry` | controllers/organizations.js:273-278 | `changeStatus` never disturbs membership. |
| `Membership.RemoveMemberLeavesNoTrace` | controllers/organizations.js:168-181 | Suppose the records agreed and the target was a member. Then, after removal by the creator, the target is in no organization's members, has a null `org_id`, and is in no task's assignees. |
| `Assignments.AddMemberTwiceDuplicates` | controllers/organizations.js:243-247 | Assigning the same user twice adds two occurrences: assignees are a list, not a set. |
| `Assignments.NonMemberCanBeAssigned` | controllers/organizations.js:241-252 | A user listed by no organization, once assigned, is an assignee of the task, still belongs to no organization, and may set the task's status. |
| `Assignments.UnassignAcrossOrganizations` | controllers/organizations.js:206-217 | A member of the organization the request names may pull a user from a task whose tasklist belongs to another organization. |
| `Assignments.AnyStatusAccepted` | controllers/organizations.js:272-284 | Whether a status change succeeds does not depend on the status asked for, and a successful change stores the value as given. |
| `Assignments.UnassignUndoesAssign` | controllers/organizations.js:213-217 | A member unassigning a user right after that user was assigned leaves the task's assignees equal to pulling that user alone. Every other record is as before. |
| `Assignments.UnassignRestores` | controllers/organizations.js:243-247 | If the user was not assigned before, assigning and then unassigning restores the whole database. |
| `Assignments.ChangeStatusIdempotent` | controllers/organizations.js:272-284 | Setting the same status twice gives the same result as setting it once. |
| `Assignments.RemovedMemberCannotChangeStatus` | controllers/organizations.js:177-181 | Once the creator has removed a user, that user's status change fails on every task in the store and writes nothing. |

## Left out

- HTTP transport: status codes, JSON message strings, the `catch` → 500 branches (beyond their failure value), and the `console.log` calls.
- Request validation by express-validator:
  - The branches that send 400 without returning are left out. The route for `addMemberOrg` validates a `userArray` field, but the controller reads `email`.
  - Mongoose's required-field checks are also left out; a save never fails in the model.
- `controllers/users.js` (signup, login, Google sign-in: bcrypt, JWT and OAuth calls), `middlewares/auth.js`, the routes and `index.js` are not part of this model. The password field is an opaque string.
- Concurrency and atomicity: the updates of one handler are sequential steps with no interleaving and no partial failure.
- Mongoose's `{ id: … }` filters are modelled as lookup by `_id`. These are `org_id` at lines 70, 102 and 304, and `tasklist_id` at line 139. In Mongoose, `id` is a virtual getter, not a stored path, so these filters do not select the document with that `_id`: depending on the `strictQuery` setting, they match no document, or reduce to `{}` and match an arbitrary one. The model describes the by-id reading the code evidently intends. That reading covers the organization push in `Handlers.AddMemberOrg` (and so the agreement-kept case of `Membership.AddMemberOrgSymmetry`), the pushes in `Handlers.CreateTasklist` and `Handlers.CreateTask`, and the organization lookup in `Controller.OrgStore.GetOrgData`. ObjectId casting is not modelled either; for example, line 140 pushes the whole saved task, which the model records as its id.
- Timestamps: `User.created_at` (set at signup, controllers/users.js:164) is not modelled, since signup is not part of this model. The Task schema's `created_at` default is `Date.now()` evaluated once, when the schema is built (models/tasks.js:10). So every task gets the same time. The model keeps that time as the store's constant `startTime`, fixed by the constructor. Its value, the server's start time, is not modelled. `due` is an opaque optional number.
- The `Task.findOne` at line 241 in `addMember` neither writes nor decides anything, so it has no model.
- `Controller.OrgStore.GetOrgData`: does not model the order of the arrays `Tasklist.find` and `Task.find` return. The tasklists and each tasklist's tasks are maps keyed by id.
- `Handlers.CreateOrg`: the answer is the new organization's id. The response's `members` dictionary holding the creator's record is not modelled.
- `Handlers.AddMemberOrg`: the answer is the user's id, not the updated user record that line 77 sends. That record is the new store's entry under this id.
- `Handlers.CreateTasklist`: the answer is the new tasklist's id, not `savedList` (line 108). That record is the new store's entry under this id.
- `Handlers.CreateTask`: the answer is the new task's id, not `savedTask` (line 144). That record is the new store's entry under this id.
