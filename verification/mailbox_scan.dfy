/** What a full scan of the stored tasks says, and how each reading changes when one record does.
    Nothing here looks at an index or a counter. */
module MailboxScan {
  import opened Wrappers
  import opened Lifecycle
  import opened MailboxState

  type Tasks = map<CallId, Task>

  ghost function Where(tasks: Tasks, p: Task -> bool): set<CallId> {
    set id | id in tasks && p(tasks[id])
  }

  function Open(): Task -> bool {
    t => HoldsQuota(t)
  }

  function OpenFor(agent: string): Task -> bool {
    t => HoldsQuota(t) && t.mail.value.agent == agent
  }

  ghost function StoredBytes(tasks: Tasks): nat
    decreases |tasks|
  {
    if tasks == map[] then 0
    else
      var id :| id in tasks;
      Charge(tasks[id]) + StoredBytes(tasks - {id})
  }

  ghost function DueKeys(tasks: Tasks): set<Key> {
    set id | id in tasks :: DueKey(id, tasks[id])
  }

  lemma {:induction false} StoredBytesSplit(tasks: Tasks, id: CallId)
    requires id in tasks
    ensures StoredBytes(tasks) == Charge(tasks[id]) + StoredBytes(tasks - {id})
    decreases |tasks|
  {
    var picked :| picked in tasks && StoredBytes(tasks) == Charge(tasks[picked]) + StoredBytes(tasks - {picked});
    if picked != id {
      StoredBytesSplit(tasks - {picked}, id);
      StoredBytesSplit(tasks - {id}, picked);
      assert tasks - {picked} - {id} == tasks - {id} - {picked};
    }
  }

  lemma StoredBytesPut(tasks: Tasks, id: CallId, t: Task)
    ensures StoredBytes(tasks[id := t]) ==
            StoredBytes(tasks) + Charge(t) - (if id in tasks then Charge(tasks[id]) else 0)
  {
    StoredBytesSplit(tasks[id := t], id);
    if id in tasks {
      StoredBytesSplit(tasks, id);
      assert tasks[id := t] - {id} == tasks - {id};
    } else {
      assert tasks[id := t] - {id} == tasks;
    }
  }

  function Bit(b: bool): nat {
    if b then 1 else 0
  }

  lemma ReplacedSize(was: set<CallId>, now: set<CallId>, id: CallId, keep: bool)
    requires now == was - {id} + if keep then {id} else {}
    ensures |now| == |was| + Bit(keep) - Bit(id in was)
  {
    assert |was - {id}| == |was| - Bit(id in was);
  }

  lemma WhereAfterPut(tasks: Tasks, id: CallId, t: Task, p: Task -> bool)
    ensures |Where(tasks[id := t], p)| ==
            |Where(tasks, p)| + Bit(p(t)) - Bit(id in tasks && p(tasks[id]))
  {
    ReplacedSize(Where(tasks, p), Where(tasks[id := t], p), id, p(t));
  }

  lemma WhereAfterRemove(tasks: Tasks, id: CallId, p: Task -> bool)
    requires id in tasks
    ensures |Where(tasks - {id}, p)| == |Where(tasks, p)| - Bit(p(tasks[id]))
  {
    ReplacedSize(Where(tasks, p), Where(tasks - {id}, p), id, false);
  }

  lemma DueMember(tasks: Tasks, k: Key)
    ensures k in DueKeys(tasks) <==> k.call in tasks && k == DueKey(k.call, tasks[k.call])
  {
  }

  lemma DueAfterPut(tasks: Tasks, id: CallId, t: Task)
    ensures DueKeys(tasks[id := t]) ==
            DueKeys(tasks) - (if id in tasks then {DueKey(id, tasks[id])} else {}) + {DueKey(id, t)}
  {
    var after := DueKeys(tasks[id := t]);
    var expected := DueKeys(tasks) - (if id in tasks then {DueKey(id, tasks[id])} else {}) + {DueKey(id, t)};
    forall k: Key
      ensures k in after <==> k in expected
    {
      DueMember(tasks, k);
      DueMember(tasks[id := t], k);
    }
  }

  lemma DueAfterRemove(tasks: Tasks, id: CallId)
    requires id in tasks
    ensures DueKeys(tasks - {id}) == DueKeys(tasks) - {DueKey(id, tasks[id])}
  {
    var after := DueKeys(tasks - {id});
    var expected := DueKeys(tasks) - {DueKey(id, tasks[id])};
    forall k: Key
      ensures k in after <==> k in expected
    {
      DueMember(tasks, k);
      DueMember(tasks - {id}, k);
    }
  }
}
