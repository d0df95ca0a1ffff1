/** From a placement to events and back: the events computed from the difference between the
    current and the target instances, folded again by `EventApply`. */
module Transition {
  import opened Common
  import opened Cluster

  /** A dictionary's iteration order: every key once. */
  ghost predicate Orders(order: seq<nat>, keys: set<nat>)
  {
    && (forall i, j :: 0 <= i < j < |order| ==> order[i] != order[j])
    && forall x :: x in order <==> x in keys
  }

  predicate Active(task: Task)
  {
    task.status == TaskPending || task.status == TaskRunning
  }

  ghost function Creations(ids: seq<InstanceId>, current: map<InstanceId, Instance>,
                           target: map<InstanceId, Instance>): seq<Body>
    requires forall id :: id in ids ==> id in target
  {
    if ids == [] then []
    else
      var last := ids[|ids| - 1];
      Creations(ids[..|ids| - 1], current, target)
      + (if last in current then [] else [InstanceCreated(target[last])])
  }

  ghost function Cancellations(ids: seq<TaskId>, tasks: map<TaskId, Task>, instance: InstanceId): seq<Body>
    requires forall id :: id in ids ==> id in tasks
  {
    if ids == [] then []
    else
      var last := ids[|ids| - 1];
      Cancellations(ids[..|ids| - 1], tasks, instance)
      + (if tasks[last].instance == instance && Active(tasks[last])
         then [TaskStatusUpdated(tasks[last].id, TaskCancelled)] else [])
  }

  ghost function Deletions(ids: seq<InstanceId>, target: map<InstanceId, Instance>,
                           taskIds: seq<TaskId>, tasks: map<TaskId, Task>): seq<Body>
    requires forall id :: id in taskIds ==> id in tasks
  {
    if ids == [] then []
    else
      var last := ids[|ids| - 1];
      Deletions(ids[..|ids| - 1], target, taskIds, tasks)
      + (if last in target then [] else Cancellations(taskIds, tasks, last) + [InstanceDeleted(last)])
  }

  lemma DeletionsStep(front: seq<InstanceId>, last: InstanceId, target: map<InstanceId, Instance>,
                      taskIds: seq<TaskId>, tasks: map<TaskId, Task>)
    requires forall id :: id in taskIds ==> id in tasks
    ensures Deletions(front + [last], target, taskIds, tasks)
         == if last in target then Deletions(front, target, taskIds, tasks)
            else Deletions(front, target, taskIds, tasks)
                 + (Cancellations(taskIds, tasks, last) + [InstanceDeleted(last)])
  {
    assert (front + [last])[..|front|] == front;
    assert Deletions(front, target, taskIds, tasks) + [] == Deletions(front, target, taskIds, tasks);
  }

  method CreationEvents(current: map<InstanceId, Instance>, target: map<InstanceId, Instance>,
                        targetIds: seq<InstanceId>) returns (events: seq<Body>)
    requires forall id :: id in targetIds ==> id in target
    ensures events == Creations(targetIds, current, target)
  {
    events := [];
    for i := 0 to |targetIds|
      invariant events == Creations(targetIds[..i], current, target)
    {
      assert targetIds[..i + 1][..i] == targetIds[..i];
      if targetIds[i] !in current {
        events := events + [InstanceCreated(target[targetIds[i]])];
      }
    }
    assert targetIds[..|targetIds|] == targetIds;
  }

  method CancellationEvents(tasks: map<TaskId, Task>, taskIds: seq<TaskId>, instance: InstanceId)
    returns (events: seq<Body>)
    requires forall id :: id in taskIds ==> id in tasks
    ensures events == Cancellations(taskIds, tasks, instance)
  {
    events := [];
    for j := 0 to |taskIds|
      invariant events == Cancellations(taskIds[..j], tasks, instance)
    {
      var task := tasks[taskIds[j]];
      assert taskIds[..j + 1][..j] == taskIds[..j];
      if task.instance == instance && (task.status == TaskPending || task.status == TaskRunning) {
        events := events + [TaskStatusUpdated(task.id, TaskCancelled)];
      }
    }
    assert taskIds[..|taskIds|] == taskIds;
  }

  method DeletionEvents(currentIds: seq<InstanceId>, target: map<InstanceId, Instance>,
                        tasks: map<TaskId, Task>, taskIds: seq<TaskId>) returns (events: seq<Body>)
    requires forall id :: id in taskIds ==> id in tasks
    ensures events == Deletions(currentIds, target, taskIds, tasks)
  {
    events := [];
    for i := 0 to |currentIds|
      invariant events == Deletions(currentIds[..i], target, taskIds, tasks)
    {
      var id := currentIds[i];
      DeletionsStep(currentIds[..i], id, target, taskIds, tasks);
      assert currentIds[..i + 1] == currentIds[..i] + [id];
      if id !in target {
        var cancelled := CancellationEvents(tasks, taskIds, id);
        events := events + (cancelled + [InstanceDeleted(id)]);
      }
    }
    assert currentIds[..|currentIds|] == currentIds;
  }

  method GetTransitionEvents(current: map<InstanceId, Instance>, currentIds: seq<InstanceId>,
                             target: map<InstanceId, Instance>, targetIds: seq<InstanceId>,
                             tasks: map<TaskId, Task>, taskIds: seq<TaskId>)
    returns (events: seq<Body>)
    requires forall id :: id in targetIds ==> id in target
    requires forall id :: id in taskIds ==> id in tasks
    ensures events == Creations(targetIds, current, target) + Deletions(currentIds, target, taskIds, tasks)
  {
    events := CreationEvents(current, target, targetIds);
    var deleted := DeletionEvents(currentIds, target, tasks, taskIds);
    events := events + deleted;
  }

  // ---------------------------------------------------------------- folding the events

  ghost function After(s: State, bodies: seq<Body>): State
  {
    if bodies == [] then s
    else EventApply(Event(0, bodies[|bodies| - 1]), After(s, bodies[..|bodies| - 1]))
  }

  /** The identifier of an event plays no part in applying it. */
  lemma IdentifierIrrelevant(s: State, id: EventId, body: Body)
    ensures EventApply(Event(id, body), s) == EventApply(Event(0, body), s)
  {
  }

  lemma {:induction false} AfterConcat(s: State, a: seq<Body>, b: seq<Body>)
    ensures After(s, a + b) == After(After(s, a), b)
    decreases |b|
  {
    if b == [] {
      assert a + b == a;
    } else {
      var last := |b| - 1;
      assert (a + b)[..|a + b| - 1] == a + b[..last];
      AfterConcat(s, a, b[..last]);
    }
  }

  ghost predicate KeyedInstances(m: map<InstanceId, Instance>)
  {
    forall id :: id in m ==> m[id].id == id
  }

  ghost predicate KeyedTasks(m: map<TaskId, Task>)
  {
    forall id :: id in m ==> m[id].id == id
  }

  /** The instances once those of `ids` that are not current have been created. */
  ghost function Adding(now: map<InstanceId, Instance>, ids: seq<InstanceId>, current: map<InstanceId, Instance>,
                        target: map<InstanceId, Instance>): map<InstanceId, Instance>
  {
    now + map id | id in ids && id in target && id !in current :: target[id]
  }

  lemma AddingStep(now: map<InstanceId, Instance>, front: seq<InstanceId>, last: InstanceId,
                   current: map<InstanceId, Instance>, target: map<InstanceId, Instance>)
    requires last in target
    ensures Adding(now, front + [last], current, target)
         == if last in current then Adding(now, front, current, target)
            else Adding(now, front, current, target)[last := target[last]]
  {
  }

  lemma AfterMore(s: State, bodies: seq<Body>, body: Body)
    ensures After(s, bodies + [body]) == EventApply(Event(0, body), After(s, bodies))
  {
    assert (bodies + [body])[..|bodies|] == bodies;
  }

  lemma CreatedEffect(s: State, instance: Instance)
    ensures EventApply(Event(0, InstanceCreated(instance)), s)
         == s.(instances := s.instances[instance.id := instance])
  {
  }

  lemma CreatedStep(s: State, bodies: seq<Body>, t: State, instance: Instance)
    requires After(s, bodies) == t
    ensures After(s, bodies + [InstanceCreated(instance)])
         == t.(instances := t.instances[instance.id := instance])
  {
    AfterMore(s, bodies, InstanceCreated(instance));
    CreatedEffect(t, instance);
  }

  lemma {:induction false} CreationsEffect(s: State, ids: seq<InstanceId>, current: map<InstanceId, Instance>,
                                           target: map<InstanceId, Instance>)
    requires forall id :: id in ids ==> id in target
    requires KeyedInstances(target)
    ensures After(s, Creations(ids, current, target)) == s.(instances := Adding(s.instances, ids, current, target))
  {
    if ids == [] {
      assert Adding(s.instances, ids, current, target) == s.instances;
    } else {
      var front, last := ids[..|ids| - 1], ids[|ids| - 1];
      CreationsEffect(s, front, current, target);
      assert ids == front + [last];
      AddingStep(s.instances, front, last, current, target);
      if last !in current {
        CreatedStep(s, Creations(front, current, target),
                    s.(instances := Adding(s.instances, front, current, target)), target[last]);
      } else {
        assert Creations(front, current, target) + [] == Creations(front, current, target);
      }
    }
  }

  lemma CancelledEffect(s: State, id: TaskId)
    requires id in s.tasks
    ensures EventApply(Event(0, TaskStatusUpdated(id, TaskCancelled)), s)
         == s.(tasks := s.tasks[id := SetStatus(s.tasks[id], TaskCancelled)])
  {
  }

  lemma DeletedEffect(s: State, id: InstanceId)
    ensures EventApply(Event(0, InstanceDeleted(id)), s)
         == s.(instances := s.instances - {id}, links := TrimLinks(s.links, id))
  {
  }

  lemma CancelledStep(s: State, bodies: seq<Body>, t: State, id: TaskId)
    requires After(s, bodies) == t && id in t.tasks
    ensures After(s, bodies + [TaskStatusUpdated(id, TaskCancelled)])
         == t.(tasks := t.tasks[id := SetStatus(t.tasks[id], TaskCancelled)])
  {
    AfterMore(s, bodies, TaskStatusUpdated(id, TaskCancelled));
    CancelledEffect(t, id);
  }

  lemma DeletedStep(s: State, bodies: seq<Body>, t: State, id: InstanceId)
    requires After(s, bodies) == t
    ensures After(s, bodies + [InstanceDeleted(id)])
         == t.(instances := t.instances - {id}, links := TrimLinks(t.links, id))
  {
    AfterMore(s, bodies, InstanceDeleted(id));
    DeletedEffect(t, id);
  }

  /** The task map once the active tasks of `removed` among `ids` are cancelled. */
  ghost function Cancelling(now: map<TaskId, Task>, ids: seq<TaskId>, tasks: map<TaskId, Task>,
                            removed: set<InstanceId>): map<TaskId, Task>
  {
    map id | id in now ::
      if id in ids && id in tasks && tasks[id].instance in removed && Active(tasks[id])
      then SetStatus(now[id], TaskCancelled) else now[id]
  }

  lemma CancellingStep(now: map<TaskId, Task>, front: seq<TaskId>, last: TaskId, tasks: map<TaskId, Task>,
                       instance: InstanceId)
    requires last in tasks && last in now
    ensures var more := Cancelling(now, front + [last], tasks, {instance});
            var less := Cancelling(now, front, tasks, {instance});
            more == if tasks[last].instance == instance && Active(tasks[last])
                    then less[last := SetStatus(less[last], TaskCancelled)] else less
  {
  }

  lemma {:induction false} CancellationsEffect(s: State, ids: seq<TaskId>, tasks: map<TaskId, Task>, instance: InstanceId)
    requires forall id :: id in ids ==> id in tasks
    requires KeyedTasks(tasks) && s.tasks.Keys == tasks.Keys
    ensures After(s, Cancellations(ids, tasks, instance)) == s.(tasks := Cancelling(s.tasks, ids, tasks, {instance}))
  {
    if ids == [] {
      assert Cancelling(s.tasks, ids, tasks, {instance}) == s.tasks;
    } else {
      var front, last := ids[..|ids| - 1], ids[|ids| - 1];
      CancellationsEffect(s, front, tasks, instance);
      assert ids == front + [last];
      CancellingStep(s.tasks, front, last, tasks, instance);
      if tasks[last].instance == instance && Active(tasks[last]) {
        CancelledStep(s, Cancellations(front, tasks, instance),
                      s.(tasks := Cancelling(s.tasks, front, tasks, {instance})), last);
      } else {
        assert Cancellations(front, tasks, instance) + [] == Cancellations(front, tasks, instance);
      }
    }
  }

  ghost function WithoutAll(ids: seq<InstanceId>, removed: set<InstanceId>): seq<InstanceId>
  {
    if ids == [] then []
    else (if ids[0] in removed then [] else [ids[0]]) + WithoutAll(ids[1..], removed)
  }

  ghost function Surviving(link: Link, removed: set<InstanceId>): Link
  {
    link.(prefill := WithoutAll(link.prefill, removed), decode := WithoutAll(link.decode, removed))
  }

  /** The links once instances are removed: untouched if none is, otherwise cut down to the
      survivors, and only those that keep both sides. */
  ghost function SurvivingLinks(links: map<LinkId, Link>, removed: set<InstanceId>): map<LinkId, Link>
  {
    if removed == {} then links
    else map l | l in links && TwoSided(Surviving(links[l], removed)) :: Surviving(links[l], removed)
  }

  lemma {:induction false} WithoutOneMore(ids: seq<InstanceId>, removed: set<InstanceId>, id: InstanceId)
    ensures Without(WithoutAll(ids, removed), id) == WithoutAll(ids, removed + {id})
  {
    if ids != [] {
      WithoutOneMore(ids[1..], removed, id);
      var rest := WithoutAll(ids[1..], removed);
      if ids[0] !in removed {
        assert ([ids[0]] + rest)[1..] == rest;
      } else {
        assert [] + rest == rest;
      }
    }
  }

  lemma {:induction false} WithoutNone(ids: seq<InstanceId>)
    ensures WithoutAll(ids, {}) == ids
  {
    if ids != [] {
      WithoutNone(ids[1..]);
    }
  }

  lemma TrimSurviving(links: map<LinkId, Link>, removed: set<InstanceId>, id: InstanceId)
    ensures TrimLinks(SurvivingLinks(links, removed), id) == SurvivingLinks(links, removed + {id})
  {
    forall l | l in links
      ensures TrimLink(Surviving(links[l], removed), id) == Surviving(links[l], removed + {id})
      ensures Surviving(links[l], {}) == links[l]
    {
      WithoutOneMore(links[l].prefill, removed, id);
      WithoutOneMore(links[l].decode, removed, id);
      WithoutNone(links[l].prefill);
      WithoutNone(links[l].decode);
    }
  }

  ghost function Removed(ids: seq<InstanceId>, target: map<InstanceId, Instance>): set<InstanceId>
  {
    set id | id in ids && id !in target
  }

  /** The state once the instances in `gone` have been removed and their tasks cancelled. */
  ghost function Deleted(s: State, taskIds: seq<TaskId>, gone: set<InstanceId>): State
  {
    s.(instances := s.instances - gone,
       tasks := Cancelling(s.tasks, taskIds, s.tasks, gone),
       links := SurvivingLinks(s.links, gone))
  }

  lemma CancellingMore(tasks: map<TaskId, Task>, taskIds: seq<TaskId>, gone: set<InstanceId>, id: InstanceId)
    ensures Cancelling(Cancelling(tasks, taskIds, tasks, gone), taskIds, tasks, {id})
         == Cancelling(tasks, taskIds, tasks, gone + {id})
  {
  }

  lemma OneDeletion(s: State, gone: set<InstanceId>, id: InstanceId, taskIds: seq<TaskId>)
    requires KeyedTasks(s.tasks)
    requires forall t :: t in taskIds ==> t in s.tasks
    ensures After(Deleted(s, taskIds, gone), Cancellations(taskIds, s.tasks, id) + [InstanceDeleted(id)])
         == Deleted(s, taskIds, gone + {id})
  {
    var now := Deleted(s, taskIds, gone);
    CancellationsEffect(now, taskIds, s.tasks, id);
    DeletedStep(now, Cancellations(taskIds, s.tasks, id),
                now.(tasks := Cancelling(now.tasks, taskIds, s.tasks, {id})), id);
    TrimSurviving(s.links, gone, id);
    CancellingMore(s.tasks, taskIds, gone, id);
    assert s.instances - gone - {id} == s.instances - (gone + {id});
  }

  lemma DeletionsMore(s: State, front: seq<InstanceId>, last: InstanceId, target: map<InstanceId, Instance>,
                      taskIds: seq<TaskId>, earlier: seq<Body>, gone: set<InstanceId>)
    requires KeyedTasks(s.tasks)
    requires forall t :: t in taskIds ==> t in s.tasks
    requires earlier == Deletions(front, target, taskIds, s.tasks) && gone == Removed(front, target)
    requires After(s, earlier) == Deleted(s, taskIds, gone)
    ensures After(s, Deletions(front + [last], target, taskIds, s.tasks))
         == Deleted(s, taskIds, Removed(front + [last], target))
  {
    DeletionsStep(front, last, target, taskIds, s.tasks);
    if last in target {
      assert Removed(front + [last], target) == gone;
    } else {
      assert Removed(front + [last], target) == gone + {last};
      OneDeletion(s, gone, last, taskIds);
      AfterConcat(s, earlier, Cancellations(taskIds, s.tasks, last) + [InstanceDeleted(last)]);
    }
  }

  lemma {:induction false} DeletionsEffect(s: State, ids: seq<InstanceId>, target: map<InstanceId, Instance>,
                                           taskIds: seq<TaskId>)
    requires KeyedTasks(s.tasks)
    requires forall t :: t in taskIds ==> t in s.tasks
    ensures After(s, Deletions(ids, target, taskIds, s.tasks)) == Deleted(s, taskIds, Removed(ids, target))
  {
    if ids == [] {
      assert Removed(ids, target) == {};
      assert Cancelling(s.tasks, taskIds, s.tasks, {}) == s.tasks;
    } else {
      var front, last := ids[..|ids| - 1], ids[|ids| - 1];
      DeletionsEffect(s, front, target, taskIds);
      DeletionsMore(s, front, last, target, taskIds, Deletions(front, target, taskIds, s.tasks), Removed(front, target));
      assert ids == front + [last];
    }
  }

  // ---------------------------------------------------------------- main results

  ghost predicate SharedAgree(current: map<InstanceId, Instance>, target: map<InstanceId, Instance>)
  {
    forall id :: id in current && id in target ==> current[id] == target[id]
  }

  lemma TargetInstances(current: map<InstanceId, Instance>, target: map<InstanceId, Instance>, targetIds: seq<InstanceId>)
    requires Orders(targetIds, target.Keys)
    ensures var final := Adding(current, targetIds, current, target) - (current.Keys - target.Keys);
            final == target <==> SharedAgree(current, target)
  {
    var final := Adding(current, targetIds, current, target) - (current.Keys - target.Keys);
    assert final.Keys == target.Keys;
    assert forall id :: id in target ==> final[id] == if id in current then current[id] else target[id];
  }

  /** Folding the transition events: the instances become the target exactly when the shared
      identifiers agree; exactly the active tasks of removed instances are cancelled; the links
      are cut down to surviving instances; nothing else changes. */
  lemma {:induction false} TransitionReachesTarget(s: State, currentIds: seq<InstanceId>,
      target: map<InstanceId, Instance>, targetIds: seq<InstanceId>, taskIds: seq<TaskId>)
    requires Orders(currentIds, s.instances.Keys) && Orders(targetIds, target.Keys) && Orders(taskIds, s.tasks.Keys)
    requires KeyedInstances(target) && KeyedTasks(s.tasks)
    ensures var t := After(s, Creations(targetIds, s.instances, target)
                              + Deletions(currentIds, target, taskIds, s.tasks));
            var gone := s.instances.Keys - target.Keys;
            && (t.instances == target <==> SharedAgree(s.instances, target))
            && t.tasks.Keys == s.tasks.Keys
            && (forall id :: id in s.tasks ==>
                  t.tasks[id] == if s.tasks[id].instance in gone && Active(s.tasks[id])
                                 then s.tasks[id].(status := TaskCancelled, error := None) else s.tasks[id])
            && t.links == SurvivingLinks(s.links, gone)
            && t == s.(instances := t.instances, tasks := t.tasks, links := t.links)
  {
    var created := s.(instances := Adding(s.instances, targetIds, s.instances, target));
    var gone := s.instances.Keys - target.Keys;
    CreationsEffect(s, targetIds, s.instances, target);
    DeletionsEffect(created, currentIds, target, taskIds);
    AfterConcat(s, Creations(targetIds, s.instances, target), Deletions(currentIds, target, taskIds, s.tasks));
    assert Removed(currentIds, target) == gone;
    TargetInstances(s.instances, target, targetIds);
  }

  lemma {:induction false} WithoutAllMembers(ids: seq<InstanceId>, removed: set<InstanceId>)
    ensures forall x :: x in WithoutAll(ids, removed) <==> x in ids && x !in removed
  {
    if ids != [] {
      WithoutAllMembers(ids[1..], removed);
    }
  }

  /** Once anything is removed, no link names a removed instance and every link has two sides. */
  lemma {:induction false} SurvivingLinksAreLive(links: map<LinkId, Link>, removed: set<InstanceId>, l: LinkId)
    requires removed != {} && l in SurvivingLinks(links, removed)
    ensures var link := SurvivingLinks(links, removed)[l];
            && TwoSided(link)
            && (forall x :: x in link.prefill ==> x in links[l].prefill && x !in removed)
            && (forall x :: x in link.decode ==> x in links[l].decode && x !in removed)
  {
    WithoutAllMembers(links[l].prefill, removed);
    WithoutAllMembers(links[l].decode, removed);
  }

  /** A link is dropped exactly when one of its sides has no surviving instance. */
  lemma {:induction false} LinkDroppedExactlyWhenSideGone(links: map<LinkId, Link>, removed: set<InstanceId>, l: LinkId)
    requires removed != {} && l in links
    ensures l in SurvivingLinks(links, removed) <==>
            (exists x :: x in links[l].prefill && x !in removed) && (exists x :: x in links[l].decode && x !in removed)
  {
    var link := Surviving(links[l], removed);
    WithoutAllMembers(links[l].prefill, removed);
    WithoutAllMembers(links[l].decode, removed);
    if link.prefill != [] {
      assert link.prefill[0] in link.prefill;
    }
    if link.decode != [] {
      assert link.decode[0] in link.decode;
    }
  }
}
