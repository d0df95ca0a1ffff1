/** Names shared by every component. */
module Common {

  datatype Option<+T> = None | Some(value: T)

  type NodeId = nat
  type InstanceId = nat
  type RunnerId = nat
  type TaskId = nat
  type CommandId = nat
  type ImageHash = nat

  /** One reign of one master: the node and the round that elected it. */
  datatype Session = Session(master: NodeId, clock: nat)

  datatype TaskStatus = TaskPending | TaskRunning | TaskComplete | TaskTimedOut | TaskFailed | TaskCancelled

  datatype Kind =
    | TextGeneration(images: set<ImageHash>)
    | ImageGeneration
    | ImageEdits(totalChunks: nat)
    | OtherKind

  datatype Task = Task(id: TaskId, instance: InstanceId, command: CommandId, kind: Kind,
                       status: TaskStatus, error: Option<string>)

  ghost predicate Distinct<T>(s: seq<T>)
  {
    forall i, j :: 0 <= i < j < |s| ==> s[i] != s[j]
  }

  method Least(s: set<nat>) returns (m: nat)
    requires s != {}
    ensures m in s && forall n :: n in s ==> m <= n
  {
    m :| m in s;
    var seen := {m};
    while seen != s
      invariant seen <= s && m in seen && forall n :: n in seen ==> m <= n
      decreases |s - seen|
    {
      var n :| n in s - seen;
      if n < m {
        m := n;
      }
      seen := seen + {n};
    }
  }

  /** The keys in ascending order. */
  method Ascending(keys: set<nat>) returns (r: seq<nat>)
    ensures forall n :: n in r <==> n in keys
    ensures forall i, j :: 0 <= i < j < |r| ==> r[i] < r[j]
  {
    r := [];
    var left := keys;
    while left != {}
      invariant left <= keys && forall n :: n in r <==> n in keys && n !in left
      invariant forall i, j :: 0 <= i < j < |r| ==> r[i] < r[j]
      invariant forall n, m :: n in r && m in left ==> n < m
      decreases |left|
    {
      var least := Least(left);
      left := left - {least};
      assert forall i :: 0 <= i < |r| ==> r[i] in r;
      r := r + [least];
    }
  }
}
