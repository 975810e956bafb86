/**
 * Membership is recorded twice: in `Organization.members` and in
 * `User.org_id`.  `Symmetric` says the two records agree.  The lemmas below
 * say, handler by handler, exactly when a handler keeps them in agreement:
 * the handlers that touch membership keep it only under conditions they do
 * not check themselves, and the others never disturb it.
 */
module Membership {
  import opened Models
  import opened ArrayOps
  import opened Handlers

  /** Every member listed by an organization is a user whose `org_id` names it. */
  ghost predicate MembersKnown(db: Db) {
    forall o, m :: o in db.orgs && m in db.orgs[o].members ==>
      m in db.users && db.users[m].orgId == Some(o)
  }

  /** Every user whose `org_id` is set is listed by an organization with that id. */
  ghost predicate OrgIdsKnown(db: Db) {
    forall u :: u in db.users && db.users[u].orgId.Some? ==>
      db.users[u].orgId.value in db.orgs && u in db.orgs[db.users[u].orgId.value].members
  }

  ghost predicate Symmetric(db: Db) {
    MembersKnown(db) && OrgIdsKnown(db)
  }

  /** createOrg keeps the two records in agreement exactly when the creator is
      a registered user who belongs to no organization yet. */
  lemma CreateOrgSymmetry(db: Db, creator: Id, name: string, desc: string)
    requires WellFormed(db) && Symmetric(db)
    ensures Symmetric(CreateOrg(db, creator, name, desc).db)
        <==> creator in db.users && db.users[creator].orgId == None
  {
    var after := CreateOrg(db, creator, name, desc).db;
    var id := db.nextId;
    if creator !in db.users {
      assert creator in after.orgs[id].members;
    } else if db.users[creator].orgId.Some? {
      var a := db.users[creator].orgId.value;
      assert a != id && creator in after.orgs[a].members;
    } else {
      forall o, m | o in after.orgs && m in after.orgs[o].members
        ensures m in after.users && after.users[m].orgId == Some(o)
      {
        if o != id {
          assert m in db.orgs[o].members;
        }
      }
    }
  }

  /** addMemberOrg keeps the two records in agreement exactly when the
      organization exists and the user is in no organization, or already in
      this one: it neither checks for nor undoes a membership elsewhere. */
  lemma AddMemberOrgSymmetry(db: Db, orgId: Id, email: string)
    requires WellFormed(db) && Symmetric(db) && HasEmail(db.users, email)
    ensures var u := AddMemberOrg(db, orgId, email).out.value;
      Symmetric(AddMemberOrg(db, orgId, email).db)
      <==> orgId in db.orgs && (db.users[u].orgId == None || db.users[u].orgId == Some(orgId))
  {
    var s := AddMemberOrg(db, orgId, email);
    var u := s.out.value;
    var after := s.db;
    if orgId !in db.orgs {
      assert after.users[u].orgId == Some(orgId);
    } else if db.users[u].orgId.Some? && db.users[u].orgId.value != orgId {
      var a := db.users[u].orgId.value;
      assert u in after.orgs[a].members;
    } else {
      forall o, m | o in after.orgs && m in after.orgs[o].members
        ensures m in after.users && after.users[m].orgId == Some(o)
      {
        if o == orgId && m == u {
        } else if o == orgId {
          assert m in db.orgs[o].members + [u];
        } else {
          assert m in db.orgs[o].members;
        }
      }
      forall v | v in after.users && after.users[v].orgId.Some?
        ensures after.users[v].orgId.value in after.orgs
        ensures v in after.orgs[after.users[v].orgId.value].members
      {
        if v != u {
          var o := db.users[v].orgId.value;
          assert v in db.orgs[o].members;
        }
      }
    }
  }

  /** removeMember, when the creator asks, keeps the two records in agreement
      exactly when the removed user is not a member of some other
      organization: it clears `org_id` without checking that the user was a
      member of this one. */
  lemma RemoveMemberSymmetry(db: Db, orgId: Id, userId: Id, requestUserId: Id)
    requires WellFormed(db) && Symmetric(db)
    requires orgId in db.orgs && db.orgs[orgId].creator == requestUserId
    ensures Symmetric(RemoveMember(db, orgId, userId, requestUserId).db)
        <==> !(userId in db.users && db.users[userId].orgId.Some? && db.users[userId].orgId.value != orgId)
  {
    var after := Expel(db, orgId, userId);
    if userId in db.users && db.users[userId].orgId.Some? && db.users[userId].orgId.value != orgId {
      var a := db.users[userId].orgId.value;
      assert userId in after.orgs[a].members;
    } else {
      ExpelKeepsMembersKnown(db, orgId, userId);
      ExpelKeepsOrgIdsKnown(db, orgId, userId);
    }
  }

  lemma ExpelKeepsMembersKnown(db: Db, orgId: Id, userId: Id)
    requires WellFormed(db) && Symmetric(db) && orgId in db.orgs
    requires userId in db.users && db.users[userId].orgId.Some? ==> db.users[userId].orgId.value == orgId
    ensures MembersKnown(Expel(db, orgId, userId))
  {
    var after := Expel(db, orgId, userId);
    forall o, m | o in after.orgs && m in after.orgs[o].members
      ensures m in after.users && after.users[m].orgId == Some(o)
    {
      assert m in db.orgs[o].members;
    }
  }

  lemma ExpelKeepsOrgIdsKnown(db: Db, orgId: Id, userId: Id)
    requires WellFormed(db) && Symmetric(db) && orgId in db.orgs
    ensures OrgIdsKnown(Expel(db, orgId, userId))
  {
    var after := Expel(db, orgId, userId);
    forall v | v in after.users && after.users[v].orgId.Some?
      ensures after.users[v].orgId.value in after.orgs
      ensures v in after.orgs[after.users[v].orgId.value].members
    {
      var o := db.users[v].orgId.value;
      assert v in db.orgs[o].members;
    }
  }

  /** createTasklist changes an organization's `tasklist` and never its members. */
  lemma CreateTasklistKeepsSymmetry(db: Db, title: string, orgId: Id)
    requires WellFormed(db) && Symmetric(db)
    ensures Symmetric(CreateTasklist(db, title, orgId).db)
  {
    var after := CreateTasklist(db, title, orgId).db;
    forall o | o in after.orgs
      ensures after.orgs[o].members == db.orgs[o].members
    {
      if o != orgId {
        assert after.orgs[o] == (after.orgs - {orgId})[o];
      }
    }
  }

  /** A handler that writes neither users nor organizations cannot disturb membership. */
  lemma SameRecordsSameSymmetry(db: Db, after: Db)
    requires Symmetric(db) && after.users == db.users && after.orgs == db.orgs
    ensures Symmetric(after)
  {
  }

  /** createTask writes a task and a tasklist, never a user or an organization. */
  lemma CreateTaskKeepsSymmetry(db: Db, title: string, tasklistId: Id, status: string, desc: string,
                                due: Option<int>)
    requires WellFormed(db) && Symmetric(db)
    ensures Symmetric(CreateTask(db, title, tasklistId, status, desc, due).db)
  {
    SameRecordsSameSymmetry(db, CreateTask(db, title, tasklistId, status, desc, due).db);
  }

  /** removeMemberTask writes only one task's assignees. */
  lemma RemoveMemberTaskKeepsSymmetry(db: Db, taskId: Id, userId: Id, requestUserId: Id, orgId: Id)
    requires WellFormed(db) && Symmetric(db)
    ensures Symmetric(RemoveMemberTask(db, taskId, userId, requestUserId, orgId).db)
  {
    SameRecordsSameSymmetry(db, RemoveMemberTask(db, taskId, userId, requestUserId, orgId).db);
  }

  /** addMember writes only one task's assignees. */
  lemma AddMemberKeepsSymmetry(db: Db, taskId: Id, userArray: seq<Id>)
    requires WellFormed(db) && Symmetric(db)
    ensures Symmetric(AddMember(db, taskId, userArray).db)
  {
    SameRecordsSameSymmetry(db, AddMember(db, taskId, userArray).db);
  }

  /** changeStatus writes only one task's status. */
  lemma ChangeStatusKeepsSymmetry(db: Db, taskId: Id, userId: Id, status: string)
    requires WellFormed(db) && Symmetric(db)
    ensures Symmetric(ChangeStatus(db, taskId, userId, status).db)
  {
    SameRecordsSameSymmetry(db, ChangeStatus(db, taskId, userId, status).db);
  }

  /** removeMember by the creator leaves the user in no organization at all,
      and assigned to no task, as long as the two records agreed and the user
      was a member of this organization. */
  lemma RemoveMemberLeavesNoTrace(db: Db, orgId: Id, userId: Id)
    requires WellFormed(db) && Symmetric(db)
    requires orgId in db.orgs && userId in db.orgs[orgId].members
    ensures var after := RemoveMember(db, orgId, userId, db.orgs[orgId].creator).db;
      && (forall o :: o in after.orgs ==> userId !in after.orgs[o].members)
      && after.users[userId].orgId == None
      && (forall t :: t in after.tasks ==> userId !in after.tasks[t].assignees)
  {
    var after := RemoveMember(db, orgId, userId, db.orgs[orgId].creator).db;
    forall o | o in after.orgs
      ensures userId !in after.orgs[o].members
    {
      if o != orgId {
        assert after.orgs[o] == (after.orgs - {orgId})[o];
      }
    }
  }
}
