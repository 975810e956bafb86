/**
 * One session against the store, from creating an organization to removing
 * a member, with what a caller learns from the handlers' contracts alone.
 */
module Walkthrough {
  import opened Models
  import opened ArrayOps
  import opened Controller

  /** Carol founds an organization and adds Bob by email. */
  method FoundOrganization() returns (store: OrgStore)
    ensures fresh(store) && store.Valid()
    ensures 2 in store.orgs && store.orgs[2].creator == 0 && store.orgs[2].members == [0, 1]
    ensures 0 in store.users && 1 in store.users && store.users[1].orgId == Some(2)
  {
    var carol := User("carol@x.com", "Carol", "hash-c", None);
    var bob := User("bob@x.com", "Bob", "hash-b", None);
    store := new OrgStore(map[0 := carol, 1 := bob], 2, 0);

    var org := store.CreateOrg(0, "Acme", "tools");
    assert org == Ok(2);
    assert store.orgs[2].members == [0] && store.users[0].orgId == Some(2);

    assert "carol@x.com"[0] != "bob@x.com"[0];
    assert store.users == map[0 := carol.(orgId := Some(2)), 1 := bob];
    assert store.users[1].email == "bob@x.com";
    var added := store.AddMemberOrg(2, "bob@x.com");
    assert added.Ok? && added.value in {0, 1} && added.value != 0;
    assert store.orgs[2].members == [0, 1] && store.users[1].orgId == Some(2);
  }

  /** A task is created and given to Bob; only Bob may move it; removing Bob
      from the organization takes him off the task as well. */
  method Session() {
    var store := FoundOrganization();

    var list := store.CreateTasklist("Sprint1", 2);
    assert list.Ok? && store.orgs[2].tasklist[|store.orgs[2].tasklist| - 1] == list.value;

    var task := store.CreateTask("Fix bug", list.value, "open", "desc", None);
    var k := task.value;
    assert store.tasks[k].assignees == [] && store.tasks[k].status == "open";

    var assignment := store.AddMember(k, [1]);
    assert store.tasks[k].assignees == [1];

    var done := store.ChangeStatus(k, 1, "done");
    assert done == Ok("done") && store.tasks[k].status == "done";

    var refused := store.ChangeStatus(k, 0, "open");
    assert refused == Err(NotAssignee) && store.tasks[k].status == "done";

    var removed := store.RemoveMember(2, 1, 0);
    assert removed.Ok?;
    assert 1 !in store.orgs[2].members && store.users[1].orgId == None;
    assert 1 !in store.tasks[k].assignees;
  }
}
