/**
 * `agent/tools/zfs.py`: the per-user dataset scheme and the command
 * sequences that create and destroy a container's workspace dataset.
 *
 * The pool is a map from dataset name to its mountpoint and quota. Every
 * `zfs` command is answered by an environment: `Honest` lets the pool answer
 * by the semantics of `zfs` (and supplies the text it prints); `Forced`
 * imposes an arbitrary process reply, including a timeout, and leaves the
 * pool as it was. The pure functions `...Run` give each operation's result,
 * the new pool and the commands issued; the methods of `Pool` perform the
 * same steps one at a time and are proved to agree with them.
 */
module Zfs {
  import opened Common
  import opened Text
  import opened Cli

  const POOL := "tank"
  const USERS_ROOT := POOL + "/users"

  /** `_user_dataset`. */
  function UserDataset(owner: string): string {
    USERS_ROOT + "/" + owner
  }

  /** `_container_dataset`. */
  function ContainerDataset(owner: string, name: string): string {
    USERS_ROOT + "/" + owner + "/containers/" + name
  }

  /** `_workspace_dataset`. */
  function WorkspaceDataset(owner: string, name: string): string {
    USERS_ROOT + "/" + owner + "/containers/" + name + "/workspace"
  }

  /** `_workspace_mount_path`. */
  function WorkspaceMountPath(owner: string, name: string): string {
    "/tank/users/" + owner + "/containers/" + name + "/workspace"
  }

  /** The intermediate `containers` dataset `create_container_dataset` makes. */
  function ContainersDataset(owner: string): string {
    USERS_ROOT + "/" + owner + "/containers"
  }

  /** The host directory of a user root: `/tank/users/<owner>`. */
  function UserMountPath(owner: string): string {
    "/tank/users/" + owner
  }

  /**
   * The names nest: container = user + "/containers/" + name, workspace =
   * container + "/workspace", each mount path is "/" + its dataset, and the
   * pool name is fixed ("tank").
   */
  lemma PathNesting(owner: string, name: string)
    ensures UserDataset(owner) == "tank/users/" + owner
    ensures ContainersDataset(owner) == UserDataset(owner) + "/containers"
    ensures ContainerDataset(owner, name) == ContainersDataset(owner) + "/" + name
    ensures ContainerDataset(owner, name) == UserDataset(owner) + "/containers/" + name
    ensures WorkspaceDataset(owner, name) == ContainerDataset(owner, name) + "/workspace"
    ensures WorkspaceMountPath(owner, name) == "/" + WorkspaceDataset(owner, name)
    ensures UserMountPath(owner) == "/" + UserDataset(owner)
    ensures "/tank/users/" + owner + "/containers" == "/" + ContainersDataset(owner)
    ensures "/tank/users/" + owner + "/containers/" + name == "/" + ContainerDataset(owner, name)
  {
  }

  /** `ZfsResult`. */
  datatype ZfsResult = ZfsResult(success: bool, dataset: string, message: string, mountPath: Option<string>, error: Option<string>)

  /** What the pool records of a dataset. */
  datatype Dataset = Dataset(mountpoint: string, quota: string)

  type Datasets = map<string, Dataset>

  /** The `zfs` invocations the module issues. */
  datatype Command =
    | List(dataset: string)
    | Create(mountpoint: string, dataset: string)
    | SetMountpoint(mountpoint: string, dataset: string)
    | SetQuota(quota: string, dataset: string)
    | DestroyRecursive(dataset: string)

  /** The argument vector of a command. */
  function Argv(c: Command): seq<string> {
    match c
    case List(ds) => ["zfs", "list", "-H", "-o", "name", ds]
    case Create(mp, ds) => ["zfs", "create", "-o", "mountpoint=" + mp, ds]
    case SetMountpoint(mp, ds) => ["zfs", "set", "mountpoint=" + mp, ds]
    case SetQuota(q, ds) => ["zfs", "set", "quota=" + q, ds]
    case DestroyRecursive(ds) => ["zfs", "destroy", "-r", ds]
  }

  /** The `timeout_seconds` each command is given. */
  function Limit(c: Command): nat {
    match c
    case Create(_, _) => 30
    case DestroyRecursive(_) => 30
    case _ => 10
  }

  /** `k` is `ds` or lies below it. */
  predicate Within(k: string, ds: string) {
    k == ds || StartsWith(k, ds + "/")
  }

  /** The index of the last "/" in a dataset name, or -1. */
  function LastSlash(ds: string): (i: int)
    ensures -1 <= i < |ds|
  {
    if ds == "" then -1 else if ds[|ds| - 1] == '/' then |ds| - 1 else LastSlash(ds[..|ds| - 1])
  }

  /** The parent of a dataset: everything before its last "/". */
  function Parent(ds: string): Option<string> {
    var i := LastSlash(ds);
    if i < 0 then None else Some(ds[..i])
  }

  /** Whether `zfs` carries the command out on pool `p` (as opposed to failing). */
  predicate Applies(p: Datasets, c: Command) {
    match c
    case Create(_, ds) => ds !in p && Parent(ds).Some? && Parent(ds).value in p
    case _ => c.dataset in p
  }

  /** The pool after `zfs` carried the command out. */
  function Effect(p: Datasets, c: Command): Datasets
    requires Applies(p, c)
  {
    match c
    case List(_) => p
    case Create(mp, ds) => p[ds := Dataset(mp, "none")]
    case SetMountpoint(mp, ds) => p[ds := p[ds].(mountpoint := mp)]
    case SetQuota(q, ds) => p[ds := p[ds].(quota := q)]
    case DestroyRecursive(ds) => map k | k in p && !Within(k, ds) :: p[k]
  }

  /** How the environment answers one command. */
  datatype Reply = Honest(stdout: string, stderr: string) | Forced(reply: ProcessReply)

  predicate Hangs(r: Reply) {
    r.Forced? && r.reply.Hung?
  }

  ghost predicate AllHonest(env: Command -> Reply) {
    forall c :: env(c).Honest?
  }

  /** `env` with command `c` answered by `r` instead. */
  function Override(env: Command -> Reply, c: Command, r: Reply): Command -> Reply {
    (d: Command) => if d == c then r else env(d)
  }

  datatype StepOut = StepOut(out: Attempt<CommandResult>, pool: Datasets)

  /** One `run_command` of a `zfs` command against the pool. */
  function Step(p: Datasets, c: Command, reply: Reply): (s: StepOut)
    ensures reply.Honest? ==> s.out.Done? && (s.out.value.Success() <==> Applies(p, c))
    ensures s.out.TimeoutError? <==> Hangs(reply)
    ensures reply.Forced? ==> s.pool == p
  {
    match reply
    case Honest(o, e) =>
      var ok := Applies(p, c);
      StepOut(RunCommand(Argv(c), Limit(c), Exited(o, e, Some(if ok then 0 else 1))), if ok then Effect(p, c) else p)
    case Forced(pr) =>
      StepOut(RunCommand(Argv(c), Limit(c), pr), p)
  }

  /** A dataset other than the one a command names (and not below a destroyed one) is left alone. */
  lemma StepFrame(p: Datasets, c: Command, reply: Reply, k: string)
    requires k in p && k != c.dataset
    requires c.DestroyRecursive? ==> !Within(k, c.dataset)
    ensures var s := Step(p, c, reply); k in s.pool && s.pool[k] == p[k]
  {
  }

  /** No command adds a dataset except a `zfs create` of that dataset. */
  lemma StepOnlyCreateAdds(p: Datasets, c: Command, reply: Reply, k: string)
    requires k !in p && !(c.Create? && c.dataset == k)
    ensures k !in Step(p, c, reply).pool
  {
  }

  /** The outcome of an operation: its result (or the timeout it raises), the new pool, the commands issued. */
  datatype Run = Run(result: Attempt<ZfsResult>, pool: Datasets, issued: seq<Command>)

  /** Several steps that return nothing: the timeout they raised, if any. */
  datatype Partial = Partial(raised: Option<string>, pool: Datasets, issued: seq<Command>)

  /** The `ZfsResult` `_apply_quota` builds from the `zfs set quota=` result. */
  function QuotaResult(dataset: string, quota: string, r: CommandResult): ZfsResult {
    if r.Success() then
      ZfsResult(true, dataset, "Applied quota " + quota + " to '" + dataset + "'.", None, None)
    else
      ZfsResult(false, dataset, "Failed to apply quota " + quota + " to '" + dataset + "'.", None, Some(OrElse(r.stderr, r.stdout)))
  }

  /** `_apply_quota(dataset, quota)`. */
  function ApplyQuotaRun(p: Datasets, env: Command -> Reply, dataset: string, quota: string): Run {
    var c := SetQuota(quota, dataset);
    var s := Step(p, c, env(c));
    match s.out
    case TimeoutError(m) => Run(TimeoutError(m), s.pool, [c])
    case Done(r) => Run(Done(QuotaResult(dataset, quota, r)), s.pool, [c])
  }

  /** `create_user_datasets(owner)` with the configured quota `quota`. */
  function CreateUserRun(p: Datasets, env: Command -> Reply, owner: string, quota: string): Run {
    var check := List(UserDataset(owner));
    var s := Step(p, check, env(check));
    var rest := AfterUserList(s, env, owner, quota);
    Run(rest.result, rest.pool, [check] + rest.issued)
  }

  /** `create_user_datasets` after `zfs list` of the user root answered `s`. */
  function AfterUserList(s: StepOut, env: Command -> Reply, owner: string, quota: string): Run {
    if s.out.TimeoutError? then Run(TimeoutError(s.out.message), s.pool, [])
    else if s.out.value.Success() then UserExistsRun(s.pool, env, owner, quota)
    else UserMissingRun(s.pool, env, owner, quota)
  }

  /** `create_user_datasets` once the list found the user root: fix its mountpoint, then apply the quota. */
  function UserExistsRun(p: Datasets, env: Command -> Reply, owner: string, quota: string): Run {
    var dataset := UserDataset(owner);
    var fix := SetMountpoint(UserMountPath(owner), dataset);
    var s := Step(p, fix, env(fix));
    if s.out.TimeoutError? then Run(TimeoutError(s.out.message), s.pool, [fix])
    else
      var q := ApplyQuotaRun(s.pool, env, dataset, quota);
      var done := ZfsResult(true, dataset, "User dataset '" + dataset + "' already exists (quota: " + quota + ").", None, None);
      Run(if q.result.TimeoutError? then q.result else Done(done), q.pool, [fix] + q.issued)
  }

  /** `create_user_datasets` once the list failed: create the user root, then apply the quota. */
  function UserMissingRun(p: Datasets, env: Command -> Reply, owner: string, quota: string): Run {
    var dataset := UserDataset(owner);
    var create := Create(UserMountPath(owner), dataset);
    var s := Step(p, create, env(create));
    if s.out.TimeoutError? then Run(TimeoutError(s.out.message), s.pool, [create])
    else if s.out.value.Success() then
      var q := ApplyQuotaRun(s.pool, env, dataset, quota);
      var done := ZfsResult(true, dataset, "Created user dataset '" + dataset + "' (quota: " + quota + ").", None, None);
      Run(if q.result.TimeoutError? then q.result else Done(done), q.pool, [create] + q.issued)
    else
      var r := s.out.value;
      Run(Done(ZfsResult(false, dataset, "Failed to create user dataset '" + dataset + "'.", None, Some(OrElse(r.stderr, r.stdout)))),
          s.pool, [create])
  }

  /** An intermediate level of `create_container_dataset`: list it, and create it if the list fails; the create's result is not looked at. */
  function EnsureRun(p: Datasets, env: Command -> Reply, mountpoint: string, dataset: string): Partial {
    var check := List(dataset);
    var s1 := Step(p, check, env(check));
    if s1.out.TimeoutError? then Partial(Some(s1.out.message), s1.pool, [check])
    else if s1.out.value.Success() then Partial(None, s1.pool, [check])
    else
      var create := Create(mountpoint, dataset);
      var s2 := Step(s1.pool, create, env(create));
      Partial(if s2.out.TimeoutError? then Some(s2.out.message) else None, s2.pool, [check, create])
  }

  /** `create_container_dataset(owner, container_name)` with the configured user quota `quota`. */
  function CreateContainerRun(p: Datasets, env: Command -> Reply, owner: string, name: string, quota: string): Run {
    var u := CreateUserRun(p, env, owner, quota);
    var rest := AfterUser(u, env, owner, name);
    Run(rest.result, rest.pool, u.issued + rest.issued)
  }

  /** `create_container_dataset` after the user-root step `u`. */
  function AfterUser(u: Run, env: Command -> Reply, owner: string, name: string): Run {
    if u.result.TimeoutError? then Run(u.result, u.pool, [])
    else if !u.result.value.success then
      Run(Done(ZfsResult(false, WorkspaceDataset(owner, name), "Failed to create container dataset: " + u.result.value.message,
                         None, u.result.value.error)), u.pool, [])
    else WorkspaceRun(u.pool, env, owner, name)
  }

  /** `create_container_dataset` after the user root succeeded: list the workspace, then fix it or build the hierarchy. */
  function WorkspaceRun(p: Datasets, env: Command -> Reply, owner: string, name: string): Run {
    var check := List(WorkspaceDataset(owner, name));
    var s := Step(p, check, env(check));
    var rest := AfterWorkspaceList(s, env, owner, name);
    Run(rest.result, rest.pool, [check] + rest.issued)
  }

  /** `create_container_dataset` after `zfs list` of the workspace answered `s`. */
  function AfterWorkspaceList(s: StepOut, env: Command -> Reply, owner: string, name: string): Run {
    var ws := WorkspaceDataset(owner, name);
    var mountPath := WorkspaceMountPath(owner, name);
    if s.out.TimeoutError? then Run(TimeoutError(s.out.message), s.pool, [])
    else if s.out.value.Success() then
      var fix := SetMountpoint(mountPath, ws);
      var s2 := Step(s.pool, fix, env(fix));
      if s2.out.TimeoutError? then Run(TimeoutError(s2.out.message), s2.pool, [fix])
      else Run(Done(ZfsResult(true, ws, "Container dataset '" + ws + "' already exists.", Some(mountPath), None)), s2.pool, [fix])
    else CreateHierarchyRun(s.pool, env, owner, name)
  }

  /** The steps of `create_container_dataset` after the workspace list failed: two intermediate levels, then the leaf. */
  function CreateHierarchyRun(p: Datasets, env: Command -> Reply, owner: string, name: string): Run {
    var a := EnsureRun(p, env, "/tank/users/" + owner + "/containers", ContainersDataset(owner));
    var rest :=
      if a.raised.Some? then Run(TimeoutError(a.raised.value), a.pool, [])
      else ContainerLevelRun(a.pool, env, owner, name);
    Run(rest.result, rest.pool, a.issued + rest.issued)
  }

  /** The `containers/<name>` level, then the leaf. */
  function ContainerLevelRun(p: Datasets, env: Command -> Reply, owner: string, name: string): Run {
    var b := EnsureRun(p, env, "/tank/users/" + owner + "/containers/" + name, ContainerDataset(owner, name));
    var rest :=
      if b.raised.Some? then Run(TimeoutError(b.raised.value), b.pool, [])
      else LeafRun(b.pool, env, owner, name);
    Run(rest.result, rest.pool, b.issued + rest.issued)
  }

  /** The leaf `zfs create` of the workspace, whose outcome is the result. */
  function LeafRun(p: Datasets, env: Command -> Reply, owner: string, name: string): Run {
    var ws := WorkspaceDataset(owner, name);
    var mountPath := WorkspaceMountPath(owner, name);
    var leaf := Create(mountPath, ws);
    var s := Step(p, leaf, env(leaf));
    if s.out.TimeoutError? then Run(TimeoutError(s.out.message), s.pool, [leaf])
    else if s.out.value.Success() then
      Run(Done(ZfsResult(true, ws, "Created container dataset at '" + mountPath + "'.", Some(mountPath), None)), s.pool, [leaf])
    else
      var r := s.out.value;
      Run(Done(ZfsResult(false, ws, "Failed to create container dataset '" + ws + "'.", None, Some(OrElse(r.stderr, r.stdout)))), s.pool, [leaf])
  }

  /** `destroy_container_dataset(owner, container_name)`. */
  function DestroyRun(p: Datasets, env: Command -> Reply, owner: string, name: string): Run {
    DestroyDatasetRun(p, env, ContainerDataset(owner, name))
  }

  /** The steps of `destroy_container_dataset` on the container dataset `ds`. */
  function DestroyDatasetRun(p: Datasets, env: Command -> Reply, ds: string): Run {
    var check := List(ds);
    var s1 := Step(p, check, env(check));
    var rest := AfterDestroyList(s1, env, ds);
    Run(rest.result, rest.pool, [check] + rest.issued)
  }

  /** `destroy_container_dataset` after `zfs list` of the container dataset answered `s1`. */
  function AfterDestroyList(s1: StepOut, env: Command -> Reply, ds: string): Run {
    if s1.out.TimeoutError? then Run(TimeoutError(s1.out.message), s1.pool, [])
    else if !s1.out.value.Success() then
      Run(Done(ZfsResult(true, ds, "Container dataset '" + ds + "' does not exist (already clean).", None, None)), s1.pool, [])
    else
      var destroy := DestroyRecursive(ds);
      var s2 := Step(s1.pool, destroy, env(destroy));
      if s2.out.TimeoutError? then Run(TimeoutError(s2.out.message), s2.pool, [destroy])
      else if s2.out.value.Success() then
        Run(Done(ZfsResult(true, ds, "Destroyed container dataset '" + ds + "'.", None, None)), s2.pool, [destroy])
      else
        var r := s2.out.value;
        Run(Done(ZfsResult(false, ds, "Failed to destroy container dataset '" + ds + "'.", None, Some(OrElse(r.stderr, r.stdout)))), s2.pool, [destroy])
  }

  // ------------------------------------------------------------ the pool, step by step

  /** Regrouping a command log extended twice, stated on its own so the method proofs need no sequence reasoning for it. */
  lemma LogAppend(log: seq<Command>, a: seq<Command>, b: seq<Command>)
    ensures log + a + b == log + (a + b)
  {
  }

  /** The host's pool, changed by each `zfs` command the tools issue; `log` records them in order. */
  class Pool {
    var datasets: Datasets
    ghost var log: seq<Command>

    constructor (initial: Datasets)
      ensures datasets == initial && log == []
    {
      datasets := initial;
      log := [];
    }

    /** `run_command` of one `zfs` command, answered by `reply`. */
    method Exec(c: Command, reply: Reply) returns (out: Attempt<CommandResult>)
      modifies this
      ensures StepOut(out, datasets) == Step(old(datasets), c, reply)
      ensures log == old(log) + [c]
    {
      var ok := Applies(datasets, c);
      match reply {
        case Honest(o, e) =>
          out := RunCommand(Argv(c), Limit(c), Exited(o, e, Some(if ok then 0 else 1)));
          if ok {
            datasets := Effect(datasets, c);
          }
        case Forced(pr) =>
          out := RunCommand(Argv(c), Limit(c), pr);
      }
      log := log + [c];
    }

    /** `_apply_quota`. */
    method ApplyQuota(dataset: string, quota: string, env: Command -> Reply) returns (r: Attempt<ZfsResult>)
      modifies this
      ensures var run := ApplyQuotaRun(old(datasets), env, dataset, quota);
              r == run.result && datasets == run.pool && log == old(log) + run.issued
    {
      var c := SetQuota(quota, dataset);
      var result := Exec(c, env(c));
      if result.TimeoutError? {
        return TimeoutError(result.message);
      }
      r := Done(QuotaResult(dataset, quota, result.value));
    }

    /** `create_user_datasets`. */
    method CreateUserDatasets(owner: string, quota: string, env: Command -> Reply) returns (r: Attempt<ZfsResult>)
      modifies this
      ensures var run := CreateUserRun(old(datasets), env, owner, quota);
              r == run.result && datasets == run.pool && log == old(log) + run.issued
    {
      var dataset := UserDataset(owner);
      var check := Exec(List(dataset), env(List(dataset)));
      ghost var s := StepOut(check, datasets);
      if check.TimeoutError? {
        return TimeoutError(check.message);
      }
      if check.value.Success() {
        r := UserExists(owner, quota, env);
      } else {
        r := UserMissing(owner, quota, env);
      }
      LogAppend(old(log), [List(dataset)], AfterUserList(s, env, owner, quota).issued);
    }

    method UserExists(owner: string, quota: string, env: Command -> Reply) returns (r: Attempt<ZfsResult>)
      modifies this
      ensures var run := UserExistsRun(old(datasets), env, owner, quota);
              r == run.result && datasets == run.pool && log == old(log) + run.issued
    {
      var dataset := UserDataset(owner);
      var fix := Exec(SetMountpoint(UserMountPath(owner), dataset), env(SetMountpoint(UserMountPath(owner), dataset)));
      if fix.TimeoutError? {
        return TimeoutError(fix.message);
      }
      ghost var p1 := datasets;
      var quotaResult := ApplyQuota(dataset, quota, env);
      LogAppend(old(log), [SetMountpoint(UserMountPath(owner), dataset)], ApplyQuotaRun(p1, env, dataset, quota).issued);
      if quotaResult.TimeoutError? {
        return quotaResult;
      }
      r := Done(ZfsResult(true, dataset, "User dataset '" + dataset + "' already exists (quota: " + quota + ").", None, None));
    }

    method UserMissing(owner: string, quota: string, env: Command -> Reply) returns (r: Attempt<ZfsResult>)
      modifies this
      ensures var run := UserMissingRun(old(datasets), env, owner, quota);
              r == run.result && datasets == run.pool && log == old(log) + run.issued
    {
      var dataset := UserDataset(owner);
      var result := Exec(Create(UserMountPath(owner), dataset), env(Create(UserMountPath(owner), dataset)));
      if result.TimeoutError? {
        return TimeoutError(result.message);
      }
      if result.value.Success() {
        ghost var p1 := datasets;
        var quotaResult := ApplyQuota(dataset, quota, env);
        LogAppend(old(log), [Create(UserMountPath(owner), dataset)], ApplyQuotaRun(p1, env, dataset, quota).issued);
        if quotaResult.TimeoutError? {
          return quotaResult;
        }
        return Done(ZfsResult(true, dataset, "Created user dataset '" + dataset + "' (quota: " + quota + ").", None, None));
      }
      r := Done(ZfsResult(false, dataset, "Failed to create user dataset '" + dataset + "'.", None,
                          Some(OrElse(result.value.stderr, result.value.stdout))));
    }

    /** One intermediate level: list, then create if absent, ignoring the create's result. */
    method Ensure(mountpoint: string, dataset: string, env: Command -> Reply) returns (raised: Option<string>)
      modifies this
      ensures var part := EnsureRun(old(datasets), env, mountpoint, dataset);
              raised == part.raised && datasets == part.pool && log == old(log) + part.issued
    {
      var check := Exec(List(dataset), env(List(dataset)));
      if check.TimeoutError? {
        return Some(check.message);
      }
      if !check.value.Success() {
        var created := Exec(Create(mountpoint, dataset), env(Create(mountpoint, dataset)));
        if created.TimeoutError? {
          return Some(created.message);
        }
      }
      raised := None;
    }

    /** `create_container_dataset`. */
    method CreateContainerDataset(owner: string, name: string, quota: string, env: Command -> Reply)
      returns (r: Attempt<ZfsResult>)
      modifies this
      ensures var run := CreateContainerRun(old(datasets), env, owner, name, quota);
              r == run.result && datasets == run.pool && log == old(log) + run.issued
    {
      var userResult := CreateUserDatasets(owner, quota, env);
      ghost var u := Run(userResult, datasets, log[|old(log)|..]);
      assert log == old(log) + u.issued;
      if userResult.TimeoutError? {
        return userResult;
      }
      if !userResult.value.success {
        var ws := WorkspaceDataset(owner, name);
        return Done(ZfsResult(false, ws, "Failed to create container dataset: " + userResult.value.message, None, userResult.value.error));
      }
      r := Workspace(owner, name, env);
      LogAppend(old(log), u.issued, AfterUser(u, env, owner, name).issued);
    }

    method Workspace(owner: string, name: string, env: Command -> Reply) returns (r: Attempt<ZfsResult>)
      modifies this
      ensures var run := WorkspaceRun(old(datasets), env, owner, name);
              r == run.result && datasets == run.pool && log == old(log) + run.issued
    {
      var ws := WorkspaceDataset(owner, name);
      var mountPath := WorkspaceMountPath(owner, name);
      var check := Exec(List(ws), env(List(ws)));
      ghost var s := StepOut(check, datasets);
      if check.TimeoutError? {
        return TimeoutError(check.message);
      }
      if check.value.Success() {
        var fix := Exec(SetMountpoint(mountPath, ws), env(SetMountpoint(mountPath, ws)));
        if fix.TimeoutError? {
          return TimeoutError(fix.message);
        }
        return Done(ZfsResult(true, ws, "Container dataset '" + ws + "' already exists.", Some(mountPath), None));
      }
      r := CreateHierarchy(owner, name, env);
      LogAppend(old(log), [List(ws)], AfterWorkspaceList(s, env, owner, name).issued);
    }

    method CreateHierarchy(owner: string, name: string, env: Command -> Reply) returns (r: Attempt<ZfsResult>)
      modifies this
      ensures var run := CreateHierarchyRun(old(datasets), env, owner, name);
              r == run.result && datasets == run.pool && log == old(log) + run.issued
    {
      var a := Ensure("/tank/users/" + owner + "/containers", ContainersDataset(owner), env);
      ghost var aRun := EnsureRun(old(datasets), env, "/tank/users/" + owner + "/containers", ContainersDataset(owner));
      if a.Some? {
        return TimeoutError(a.value);
      }
      ghost var p1 := datasets;
      r := ContainerLevel(owner, name, env);
      LogAppend(old(log), aRun.issued, ContainerLevelRun(p1, env, owner, name).issued);
    }

    method ContainerLevel(owner: string, name: string, env: Command -> Reply) returns (r: Attempt<ZfsResult>)
      modifies this
      ensures var run := ContainerLevelRun(old(datasets), env, owner, name);
              r == run.result && datasets == run.pool && log == old(log) + run.issued
    {
      var b := Ensure("/tank/users/" + owner + "/containers/" + name, ContainerDataset(owner, name), env);
      ghost var bRun := EnsureRun(old(datasets), env, "/tank/users/" + owner + "/containers/" + name, ContainerDataset(owner, name));
      if b.Some? {
        return TimeoutError(b.value);
      }
      ghost var p1 := datasets;
      r := Leaf(owner, name, env);
      LogAppend(old(log), bRun.issued, LeafRun(p1, env, owner, name).issued);
    }

    method Leaf(owner: string, name: string, env: Command -> Reply) returns (r: Attempt<ZfsResult>)
      modifies this
      ensures var run := LeafRun(old(datasets), env, owner, name);
              r == run.result && datasets == run.pool && log == old(log) + run.issued
    {
      var ws := WorkspaceDataset(owner, name);
      var mountPath := WorkspaceMountPath(owner, name);
      var result := Exec(Create(mountPath, ws), env(Create(mountPath, ws)));
      if result.TimeoutError? {
        return TimeoutError(result.message);
      }
      if result.value.Success() {
        return Done(ZfsResult(true, ws, "Created container dataset at '" + mountPath + "'.", Some(mountPath), None));
      }
      r := Done(ZfsResult(false, ws, "Failed to create container dataset '" + ws + "'.", None,
                          Some(OrElse(result.value.stderr, result.value.stdout))));
    }

    /** `destroy_container_dataset`. */
    method DestroyContainerDataset(owner: string, name: string, env: Command -> Reply) returns (r: Attempt<ZfsResult>)
      modifies this
      ensures var run := DestroyRun(old(datasets), env, owner, name);
              r == run.result && datasets == run.pool && log == old(log) + run.issued
    {
      var ds := ContainerDataset(owner, name);
      var check := Exec(List(ds), env(List(ds)));
      ghost var s1 := StepOut(check, datasets);
      ghost var after := AfterDestroyList(s1, env, ds);
      LogAppend(old(log), [List(ds)], after.issued);
      if check.TimeoutError? {
        return TimeoutError(check.message);
      }
      if !check.value.Success() {
        return Done(ZfsResult(true, ds, "Container dataset '" + ds + "' does not exist (already clean).", None, None));
      }
      var result := Exec(DestroyRecursive(ds), env(DestroyRecursive(ds)));
      if result.TimeoutError? {
        return TimeoutError(result.message);
      }
      if result.value.Success() {
        return Done(ZfsResult(true, ds, "Destroyed container dataset '" + ds + "'.", None, None));
      }
      r := Done(ZfsResult(false, ds, "Failed to destroy container dataset '" + ds + "'.", None,
                          Some(OrElse(result.value.stderr, result.value.stdout))));
    }
  }
}
