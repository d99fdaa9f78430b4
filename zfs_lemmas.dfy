/**
 * What the dataset operations of `agent/tools/zfs.py` promise, stated over
 * the runs of module `Zfs`: which commands are issued, what they do to the
 * pool, and which command outcomes decide the result.
 */
module ZfsLemmas {
  import opened Common
  import opened Text
  import opened Cli
  import opened Zfs

  /** Every `zfs create` in `cs` sets the mountpoint to "/" + the dataset it creates. */
  predicate SelfMounted(cs: seq<Command>) {
    forall k :: 0 <= k < |cs| ==> cs[k].Create? ==> cs[k].mountpoint == "/" + cs[k].dataset
  }

  /** The `zfs set quota=` commands of `cs`, in order. */
  function Quotas(cs: seq<Command>): (qs: seq<Command>)
    ensures forall k :: 0 <= k < |qs| ==> qs[k].SetQuota?
  {
    if cs == [] then [] else (if cs[0].SetQuota? then [cs[0]] else []) + Quotas(cs[1..])
  }

  /** The `zfs destroy -r` commands of `cs`, in order. */
  function Destroys(cs: seq<Command>): (ds: seq<Command>)
    ensures forall k :: 0 <= k < |ds| ==> ds[k].DestroyRecursive?
  {
    if cs == [] then [] else (if cs[0].DestroyRecursive? then [cs[0]] else []) + Destroys(cs[1..])
  }

  lemma {:induction false} QuotasAppend(a: seq<Command>, b: seq<Command>)
    ensures Quotas(a + b) == Quotas(a) + Quotas(b)
  {
    if a == [] {
      assert a + b == b;
    } else {
      assert (a + b)[1..] == a[1..] + b;
      QuotasAppend(a[1..], b);
    }
  }

  lemma SelfMountedAppend(a: seq<Command>, b: seq<Command>)
    requires SelfMounted(a) && SelfMounted(b)
    ensures SelfMounted(a + b)
  {
    forall k | 0 <= k < |a + b| && (a + b)[k].Create?
      ensures (a + b)[k].mountpoint == "/" + (a + b)[k].dataset
    {
      if k >= |a| { assert (a + b)[k] == b[k - |a|]; }
    }
  }

  /** `c` occurs in `a + b` but not in `a`, so it occurs in `b`. */
  lemma InSuffix(c: Command, a: seq<Command>, b: seq<Command>)
    requires c in a + b && c !in a
    ensures c in b
  {
    var k :| 0 <= k < |a + b| && (a + b)[k] == c;
    if k < |a| {
      assert a[k] == c;
    } else {
      assert b[k - |a|] == c;
    }
  }

  // ------------------------------------------------------------ create_user_datasets

  /** The user-root step after its list issues the mountpoint fix or the create, then (unless that failed) the quota. */
  lemma AfterUserListShape(s: StepOut, env: Command -> Reply, owner: string, quota: string)
    ensures var ds := UserDataset(owner);
            var rest := AfterUserList(s, env, owner, quota);
            var first := if s.out.Done? && s.out.value.Success() then SetMountpoint(UserMountPath(owner), ds)
                         else Create(UserMountPath(owner), ds);
            && (s.out.TimeoutError? ==> rest.issued == [] && rest.result.TimeoutError?)
            && (s.out.Done? ==> rest.issued == [first] || rest.issued == [first, SetQuota(quota, ds)])
            && (rest.result.Done? && rest.result.value.success ==> rest.issued == [first, SetQuota(quota, ds)])
            && (rest.result.Done? && !rest.result.value.success ==> rest.issued == [first])
  {
  }

  lemma QuotasOfPair(a: Command, b: Command)
    ensures Quotas([a]) == (if a.SetQuota? then [a] else [])
    ensures Quotas([a, b]) == (if a.SetQuota? then [a] else []) + (if b.SetQuota? then [b] else [])
  {
    assert [a][1..] == [];
    assert [a, b][1..] == [b];
    assert [b][1..] == [];
  }

  /** What follows the user-root list issues the quota exactly when it reports success. */
  lemma AfterUserListQuotas(s: StepOut, env: Command -> Reply, owner: string, quota: string)
    ensures var rest := AfterUserList(s, env, owner, quota);
            rest.result.Done? ==>
              Quotas(rest.issued) == (if rest.result.value.success then [SetQuota(quota, UserDataset(owner))] else [])
  {
    var ds := UserDataset(owner);
    AfterUserListShape(s, env, owner, quota);
    var first := if s.out.Done? && s.out.value.Success() then SetMountpoint(UserMountPath(owner), ds)
                 else Create(UserMountPath(owner), ds);
    QuotasOfPair(first, SetQuota(quota, ds));
  }

  /**
   * Whenever `create_user_datasets` reports success it has issued exactly one
   * `zfs set quota=<configured quota>`, on the user root; when it reports
   * failure it has issued none.
   */
  lemma QuotaAppliedOnce(p: Datasets, env: Command -> Reply, owner: string, quota: string)
    ensures var run := CreateUserRun(p, env, owner, quota);
            run.result.Done? ==>
              Quotas(run.issued) == (if run.result.value.success then [SetQuota(quota, UserDataset(owner))] else [])
  {
    var ds := UserDataset(owner);
    var s := Step(p, List(ds), env(List(ds)));
    var rest := AfterUserList(s, env, owner, quota);
    AfterUserListQuotas(s, env, owner, quota);
    QuotasAppend([List(ds)], rest.issued);
    QuotasOfPair(List(ds), List(ds));
  }

  /** Both user-root branches give the same result however a not-hanging quota command is answered. */
  lemma QuotaOutcomeIgnoredAfterList(s: StepOut, env: Command -> Reply, owner: string, quota: string, reply: Reply)
    requires !Hangs(reply) && !Hangs(env(SetQuota(quota, UserDataset(owner))))
    ensures AfterUserList(s, Override(env, SetQuota(quota, UserDataset(owner)), reply), owner, quota).result
            == AfterUserList(s, env, owner, quota).result
  {
    var ds := UserDataset(owner);
    var env2 := Override(env, SetQuota(quota, ds), reply);
    assert env2(SetMountpoint(UserMountPath(owner), ds)) == env(SetMountpoint(UserMountPath(owner), ds));
    assert env2(Create(UserMountPath(owner), ds)) == env(Create(UserMountPath(owner), ds));
    forall pool: Datasets
      ensures ApplyQuotaRun(pool, env2, ds, quota).result.Done? && ApplyQuotaRun(pool, env, ds, quota).result.Done?
    {
      assert env2(SetQuota(quota, ds)) == reply;
    }
  }

  /**
   * The outcome of the quota command does not affect the result of
   * `create_user_datasets`: with the quota command answered any other way
   * (short of a timeout), the result is the same.
   */
  lemma QuotaOutcomeIgnored(p: Datasets, env: Command -> Reply, owner: string, quota: string, reply: Reply)
    requires !Hangs(reply) && !Hangs(env(SetQuota(quota, UserDataset(owner))))
    ensures CreateUserRun(p, Override(env, SetQuota(quota, UserDataset(owner)), reply), owner, quota).result
            == CreateUserRun(p, env, owner, quota).result
  {
    var ds := UserDataset(owner);
    var env2 := Override(env, SetQuota(quota, ds), reply);
    assert env2(List(ds)) == env(List(ds));
    QuotaOutcomeIgnoredAfterList(Step(p, List(ds), env(List(ds))), env, owner, quota, reply);
  }

  /** Every command the user-root step issues after its list names the user root. */
  lemma AfterUserListOnUserRoot(s: StepOut, env: Command -> Reply, owner: string, quota: string)
    ensures forall c :: c in AfterUserList(s, env, owner, quota).issued ==> c.dataset == UserDataset(owner)
  {
    AfterUserListShape(s, env, owner, quota);
  }

  /** Every command of the user-root step names the user root. */
  lemma UserRunOnUserRoot(p: Datasets, env: Command -> Reply, owner: string, quota: string)
    ensures var run := CreateUserRun(p, env, owner, quota);
            forall c :: c in run.issued ==> c.dataset == UserDataset(owner)
  {
    var ds := UserDataset(owner);
    var s := Step(p, List(ds), env(List(ds)));
    var rest := AfterUserList(s, env, owner, quota);
    AfterUserListOnUserRoot(s, env, owner, quota);
    assert CreateUserRun(p, env, owner, quota).issued == [List(ds)] + rest.issued;
  }

  /** What the user-root step issues after its list creates only with the mountpoint "/" + the user root. */
  lemma AfterUserListSelfMounted(s: StepOut, env: Command -> Reply, owner: string, quota: string)
    ensures SelfMounted(AfterUserList(s, env, owner, quota).issued)
  {
    AfterUserListShape(s, env, owner, quota);
    PathNesting(owner, "");
  }

  /** `create_user_datasets` creates the user root only with the explicit mountpoint "/" + the dataset. */
  lemma UserCreatesSelfMounted(p: Datasets, env: Command -> Reply, owner: string, quota: string)
    ensures SelfMounted(CreateUserRun(p, env, owner, quota).issued)
  {
    var ds := UserDataset(owner);
    var s := Step(p, List(ds), env(List(ds)));
    var rest := AfterUserList(s, env, owner, quota);
    AfterUserListSelfMounted(s, env, owner, quota);
    SelfMountedAppend([List(ds)], rest.issued);
    assert CreateUserRun(p, env, owner, quota).issued == [List(ds)] + rest.issued;
  }

  // ------------------------------------------------------------ create_container_dataset

  /** A failing user-root step ends `create_container_dataset`: nothing more is issued and no mount path is reported. */
  lemma UserFailureStops(p: Datasets, env: Command -> Reply, owner: string, name: string, quota: string)
    ensures var u := CreateUserRun(p, env, owner, quota);
            var run := CreateContainerRun(p, env, owner, name, quota);
            u.result.Done? && !u.result.value.success ==>
              run.issued == u.issued && run.pool == u.pool
              && run.result == Done(ZfsResult(false, WorkspaceDataset(owner, name),
                                              "Failed to create container dataset: " + u.result.value.message,
                                              None, u.result.value.error))
  {
    var u := CreateUserRun(p, env, owner, quota);
    if u.result.Done? && !u.result.value.success {
      assert u.issued + [] == u.issued;
    }
  }

  /** The result `create_container_dataset` reports names the workspace, and carries its mount path exactly when it succeeds. */
  predicate Reports(r: Attempt<ZfsResult>, owner: string, name: string) {
    r.Done? ==>
      r.value.dataset == WorkspaceDataset(owner, name)
      && (r.value.success ==> r.value.mountPath == Some(WorkspaceMountPath(owner, name)))
      && (!r.value.success ==> r.value.mountPath.None?)
  }

  lemma LeafReports(p: Datasets, env: Command -> Reply, owner: string, name: string)
    ensures Reports(LeafRun(p, env, owner, name).result, owner, name)
  {
  }

  lemma ContainerLevelReports(p: Datasets, env: Command -> Reply, owner: string, name: string)
    ensures Reports(ContainerLevelRun(p, env, owner, name).result, owner, name)
  {
    var b := EnsureRun(p, env, "/tank/users/" + owner + "/containers/" + name, ContainerDataset(owner, name));
    LeafReports(b.pool, env, owner, name);
  }

  lemma HierarchyReports(p: Datasets, env: Command -> Reply, owner: string, name: string)
    ensures Reports(CreateHierarchyRun(p, env, owner, name).result, owner, name)
  {
    var a := EnsureRun(p, env, "/tank/users/" + owner + "/containers", ContainersDataset(owner));
    ContainerLevelReports(a.pool, env, owner, name);
  }

  lemma AfterWorkspaceListReports(s: StepOut, env: Command -> Reply, owner: string, name: string)
    ensures Reports(AfterWorkspaceList(s, env, owner, name).result, owner, name)
  {
    if s.out.Done? && !s.out.value.Success() {
      HierarchyReports(s.pool, env, owner, name);
    }
  }

  lemma AfterUserReports(u: Run, env: Command -> Reply, owner: string, name: string)
    ensures Reports(AfterUser(u, env, owner, name).result, owner, name)
  {
    if u.result.Done? && u.result.value.success {
      var ws := WorkspaceDataset(owner, name);
      AfterWorkspaceListReports(Step(u.pool, List(ws), env(List(ws))), env, owner, name);
    }
  }

  /** A successful `create_container_dataset` always reports the workspace dataset and its mount path; a failed one reports none. */
  lemma SuccessCarriesMountPath(p: Datasets, env: Command -> Reply, owner: string, name: string, quota: string)
    ensures Reports(CreateContainerRun(p, env, owner, name, quota).result, owner, name)
  {
    AfterUserReports(CreateUserRun(p, env, owner, quota), env, owner, name);
  }

  /** The leaf `zfs create` of the workspace. */
  function LeafCreate(owner: string, name: string): Command {
    Create(WorkspaceMountPath(owner, name), WorkspaceDataset(owner, name))
  }

  /** The leaf's result is its exit status. */
  lemma LeafRunDecides(p: Datasets, env: Command -> Reply, owner: string, name: string,
                       out: string, err: string, rc: Option<int>)
    requires env(LeafCreate(owner, name)) == Forced(Exited(out, err, rc))
    ensures var l := LeafRun(p, env, owner, name);
            l.result.Done? ==> (l.result.value.success <==> ExitCode(rc) == 0)
  {
  }

  lemma ContainerLevelDecides(p: Datasets, env: Command -> Reply, owner: string, name: string,
                              out: string, err: string, rc: Option<int>)
    requires env(LeafCreate(owner, name)) == Forced(Exited(out, err, rc))
    ensures var c := ContainerLevelRun(p, env, owner, name);
            c.result.Done? ==> (c.result.value.success <==> ExitCode(rc) == 0)
  {
    var b := EnsureRun(p, env, "/tank/users/" + owner + "/containers/" + name, ContainerDataset(owner, name));
    LeafRunDecides(b.pool, env, owner, name, out, err, rc);
  }

  /** Once the hierarchy step finishes, its result is the leaf create's exit status. */
  lemma HierarchyLeafDecides(p: Datasets, env: Command -> Reply, owner: string, name: string,
                             out: string, err: string, rc: Option<int>)
    requires env(LeafCreate(owner, name)) == Forced(Exited(out, err, rc))
    ensures var h := CreateHierarchyRun(p, env, owner, name);
            h.result.Done? ==> (h.result.value.success <==> ExitCode(rc) == 0)
  {
    var a := EnsureRun(p, env, "/tank/users/" + owner + "/containers", ContainersDataset(owner));
    ContainerLevelDecides(a.pool, env, owner, name, out, err, rc);
  }

  /** After a successful user root, the leaf create, once issued, decides the result. */
  lemma WorkspaceLeafDecides(p: Datasets, env: Command -> Reply, owner: string, name: string,
                             out: string, err: string, rc: Option<int>)
    requires env(LeafCreate(owner, name)) == Forced(Exited(out, err, rc))
    ensures var w := WorkspaceRun(p, env, owner, name);
            w.result.Done? && LeafCreate(owner, name) in w.issued ==> (w.result.value.success <==> ExitCode(rc) == 0)
  {
    var ws := WorkspaceDataset(owner, name);
    var s := Step(p, List(ws), env(List(ws)));
    var rest := AfterWorkspaceList(s, env, owner, name);
    var w := WorkspaceRun(p, env, owner, name);
    if w.result.Done? && LeafCreate(owner, name) in w.issued {
      InSuffix(LeafCreate(owner, name), [List(ws)], rest.issued);
      if s.out.Done? && !s.out.value.Success() {
        HierarchyLeafDecides(s.pool, env, owner, name, out, err, rc);
      }
    }
  }

  /**
   * Only the leaf `zfs create` decides: once it is issued, the result is a
   * success exactly when that create's exit code is 0, whatever the
   * intermediate lists and creates answered.
   */
  lemma LeafDecides(p: Datasets, env: Command -> Reply, owner: string, name: string, quota: string,
                    out: string, err: string, rc: Option<int>)
    requires env(LeafCreate(owner, name)) == Forced(Exited(out, err, rc))
    ensures var run := CreateContainerRun(p, env, owner, name, quota);
            run.result.Done? && LeafCreate(owner, name) in run.issued ==>
              (run.result.value.success <==> ExitCode(rc) == 0)
  {
    var run := CreateContainerRun(p, env, owner, name, quota);
    var u := CreateUserRun(p, env, owner, quota);
    var rest := AfterUser(u, env, owner, name);
    if run.result.Done? && LeafCreate(owner, name) in run.issued {
      UserRunOnUserRoot(p, env, owner, quota);
      assert |UserDataset(owner)| < |WorkspaceDataset(owner, name)|;
      InSuffix(LeafCreate(owner, name), u.issued, rest.issued);
      WorkspaceLeafDecides(u.pool, env, owner, name, out, err, rc);
    }
  }

  /** Each intermediate level is created with the mountpoint it is given. */
  lemma EnsureSelfMounted(p: Datasets, env: Command -> Reply, mountpoint: string, dataset: string)
    requires mountpoint == "/" + dataset
    ensures SelfMounted(EnsureRun(p, env, mountpoint, dataset).issued)
  {
  }

  lemma LeafSelfMounted(p: Datasets, env: Command -> Reply, owner: string, name: string)
    ensures SelfMounted(LeafRun(p, env, owner, name).issued)
  {
    PathNesting(owner, name);
  }

  lemma ContainerLevelSelfMounted(p: Datasets, env: Command -> Reply, owner: string, name: string)
    ensures SelfMounted(ContainerLevelRun(p, env, owner, name).issued)
  {
    var mp := "/tank/users/" + owner + "/containers/" + name;
    PathNesting(owner, name);
    var b := EnsureRun(p, env, mp, ContainerDataset(owner, name));
    EnsureSelfMounted(p, env, mp, ContainerDataset(owner, name));
    var rest := if b.raised.Some? then Run(TimeoutError(b.raised.value), b.pool, []) else LeafRun(b.pool, env, owner, name);
    LeafSelfMounted(b.pool, env, owner, name);
    SelfMountedAppend(b.issued, rest.issued);
  }

  lemma HierarchySelfMounted(p: Datasets, env: Command -> Reply, owner: string, name: string)
    ensures SelfMounted(CreateHierarchyRun(p, env, owner, name).issued)
  {
    var mp := "/tank/users/" + owner + "/containers";
    PathNesting(owner, name);
    var a := EnsureRun(p, env, mp, ContainersDataset(owner));
    EnsureSelfMounted(p, env, mp, ContainersDataset(owner));
    var rest := if a.raised.Some? then Run(TimeoutError(a.raised.value), a.pool, []) else ContainerLevelRun(a.pool, env, owner, name);
    ContainerLevelSelfMounted(a.pool, env, owner, name);
    SelfMountedAppend(a.issued, rest.issued);
  }

  /** After the workspace list, only the hierarchy creates, each with its own mountpoint. */
  lemma AfterWorkspaceListSelfMounted(s: StepOut, env: Command -> Reply, owner: string, name: string)
    ensures SelfMounted(AfterWorkspaceList(s, env, owner, name).issued)
  {
    if s.out.Done? && !s.out.value.Success() {
      HierarchySelfMounted(s.pool, env, owner, name);
    }
  }

  lemma AfterUserSelfMounted(u: Run, env: Command -> Reply, owner: string, name: string)
    ensures SelfMounted(AfterUser(u, env, owner, name).issued)
  {
    if u.result.Done? && u.result.value.success {
      var ws := WorkspaceDataset(owner, name);
      var s := Step(u.pool, List(ws), env(List(ws)));
      var after := AfterWorkspaceList(s, env, owner, name);
      AfterWorkspaceListSelfMounted(s, env, owner, name);
      SelfMountedAppend([List(ws)], after.issued);
      assert AfterUser(u, env, owner, name).issued == [List(ws)] + after.issued;
    }
  }

  /** Every `zfs create` that `create_container_dataset` issues, at any level, carries `-o mountpoint=/<that dataset>`. */
  lemma ContainerCreatesSelfMounted(p: Datasets, env: Command -> Reply, owner: string, name: string, quota: string)
    ensures SelfMounted(CreateContainerRun(p, env, owner, name, quota).issued)
  {
    var u := CreateUserRun(p, env, owner, quota);
    var rest := AfterUser(u, env, owner, name);
    UserCreatesSelfMounted(p, env, owner, quota);
    AfterUserSelfMounted(u, env, owner, name);
    SelfMountedAppend(u.issued, rest.issued);
  }

  /** Timeouts are not caught: a hung first `zfs list` raises out of `create_container_dataset` with nothing else issued. */
  lemma FirstTimeoutRaises(p: Datasets, env: Command -> Reply, owner: string, name: string, quota: string)
    requires Hangs(env(List(UserDataset(owner))))
    ensures var run := CreateContainerRun(p, env, owner, name, quota);
            run.result.TimeoutError? && run.issued == [List(UserDataset(owner))] && run.pool == p
  {
    var u := CreateUserRun(p, env, owner, quota);
    assert u.issued == [List(UserDataset(owner))] + [];
    assert u.issued + [] == u.issued;
  }

  // ------------------------------------------------------------ repeating a create

  /** Every dataset of `p` is still in `q`. */
  predicate Grows(p: Datasets, q: Datasets) {
    forall k :: k in p ==> k in q
  }

  /** Only a destroy removes datasets. */
  lemma StepGrows(p: Datasets, c: Command, reply: Reply)
    requires !c.DestroyRecursive?
    ensures Grows(p, Step(p, c, reply).pool)
  {
  }

  lemma GrowsTrans(p: Datasets, q: Datasets, r: Datasets)
    requires Grows(p, q) && Grows(q, r)
    ensures Grows(p, r)
  {
  }

  lemma QuotaGrows(p: Datasets, env: Command -> Reply, dataset: string, quota: string)
    ensures Grows(p, ApplyQuotaRun(p, env, dataset, quota).pool)
  {
    StepGrows(p, SetQuota(quota, dataset), env(SetQuota(quota, dataset)));
  }

  lemma UserExistsGrows(p: Datasets, env: Command -> Reply, owner: string, quota: string)
    ensures Grows(p, UserExistsRun(p, env, owner, quota).pool)
  {
    var fix := SetMountpoint(UserMountPath(owner), UserDataset(owner));
    var s := Step(p, fix, env(fix));
    StepGrows(p, fix, env(fix));
    QuotaGrows(s.pool, env, UserDataset(owner), quota);
  }

  lemma UserMissingGrows(p: Datasets, env: Command -> Reply, owner: string, quota: string)
    ensures Grows(p, UserMissingRun(p, env, owner, quota).pool)
  {
    var create := Create(UserMountPath(owner), UserDataset(owner));
    var s := Step(p, create, env(create));
    StepGrows(p, create, env(create));
    QuotaGrows(s.pool, env, UserDataset(owner), quota);
  }

  lemma UserRunGrows(p: Datasets, env: Command -> Reply, owner: string, quota: string)
    ensures Grows(p, CreateUserRun(p, env, owner, quota).pool)
  {
    var ds := UserDataset(owner);
    var s := Step(p, List(ds), env(List(ds)));
    ListKeepsPool(p, ds, env(List(ds)));
    UserExistsGrows(s.pool, env, owner, quota);
    UserMissingGrows(s.pool, env, owner, quota);
  }

  lemma EnsureGrows(p: Datasets, env: Command -> Reply, mountpoint: string, dataset: string)
    ensures Grows(p, EnsureRun(p, env, mountpoint, dataset).pool)
  {
    ListKeepsPool(p, dataset, env(List(dataset)));
    StepGrows(p, Create(mountpoint, dataset), env(Create(mountpoint, dataset)));
  }

  lemma LeafGrows(p: Datasets, env: Command -> Reply, owner: string, name: string)
    ensures Grows(p, LeafRun(p, env, owner, name).pool)
  {
    StepGrows(p, LeafCreate(owner, name), env(LeafCreate(owner, name)));
  }

  lemma ContainerLevelGrows(p: Datasets, env: Command -> Reply, owner: string, name: string)
    ensures Grows(p, ContainerLevelRun(p, env, owner, name).pool)
  {
    var mp := "/tank/users/" + owner + "/containers/" + name;
    var b := EnsureRun(p, env, mp, ContainerDataset(owner, name));
    EnsureGrows(p, env, mp, ContainerDataset(owner, name));
    LeafGrows(b.pool, env, owner, name);
  }

  lemma HierarchyGrows(p: Datasets, env: Command -> Reply, owner: string, name: string)
    ensures Grows(p, CreateHierarchyRun(p, env, owner, name).pool)
  {
    var mp := "/tank/users/" + owner + "/containers";
    var a := EnsureRun(p, env, mp, ContainersDataset(owner));
    EnsureGrows(p, env, mp, ContainersDataset(owner));
    ContainerLevelGrows(a.pool, env, owner, name);
  }

  lemma WorkspaceGrows(p: Datasets, env: Command -> Reply, owner: string, name: string)
    ensures Grows(p, WorkspaceRun(p, env, owner, name).pool)
  {
    var ws := WorkspaceDataset(owner, name);
    var s := Step(p, List(ws), env(List(ws)));
    ListKeepsPool(p, ws, env(List(ws)));
    var fix := SetMountpoint(WorkspaceMountPath(owner, name), ws);
    StepGrows(s.pool, fix, env(fix));
    HierarchyGrows(s.pool, env, owner, name);
  }

  /** Against the real `zfs`, a successful user-root step leaves the user root in the pool. */
  lemma UserRootAfterSuccess(p: Datasets, env: Command -> Reply, owner: string, quota: string)
    requires AllHonest(env)
    ensures var u := CreateUserRun(p, env, owner, quota);
            u.result.Done? && u.result.value.success ==> UserDataset(owner) in u.pool
  {
    var ds := UserDataset(owner);
    var s := Step(p, List(ds), env(List(ds)));
    assert env(List(ds)).Honest?;
    var fix := SetMountpoint(UserMountPath(owner), ds);
    var create := Create(UserMountPath(owner), ds);
    assert env(fix).Honest? && env(create).Honest?;
    StepGrows(Step(s.pool, fix, env(fix)).pool, SetQuota(quota, ds), env(SetQuota(quota, ds)));
    StepGrows(Step(s.pool, create, env(create)).pool, SetQuota(quota, ds), env(SetQuota(quota, ds)));
  }

  /** Against the real `zfs`, a successful leaf create has added the workspace. */
  lemma LeafAfterSuccess(p: Datasets, env: Command -> Reply, owner: string, name: string)
    requires AllHonest(env)
    ensures var l := LeafRun(p, env, owner, name);
            l.result.Done? && l.result.value.success ==> WorkspaceDataset(owner, name) in l.pool
  {
    var leaf := LeafCreate(owner, name);
    assert env(leaf).Honest?;
    var s := Step(p, leaf, env(leaf));
    assert s.out.Done? && s.out.value.Success() ==> Applies(p, leaf);
  }

  lemma ContainerLevelAfterSuccess(p: Datasets, env: Command -> Reply, owner: string, name: string)
    requires AllHonest(env)
    ensures var c := ContainerLevelRun(p, env, owner, name);
            c.result.Done? && c.result.value.success ==> WorkspaceDataset(owner, name) in c.pool
  {
    var b := EnsureRun(p, env, "/tank/users/" + owner + "/containers/" + name, ContainerDataset(owner, name));
    LeafAfterSuccess(b.pool, env, owner, name);
  }

  /** Against the real `zfs`, once the hierarchy step succeeds the workspace is in the pool. */
  lemma HierarchyAfterSuccess(p: Datasets, env: Command -> Reply, owner: string, name: string)
    requires AllHonest(env)
    ensures var h := CreateHierarchyRun(p, env, owner, name);
            h.result.Done? && h.result.value.success ==> WorkspaceDataset(owner, name) in h.pool
  {
    var a := EnsureRun(p, env, "/tank/users/" + owner + "/containers", ContainersDataset(owner));
    ContainerLevelAfterSuccess(a.pool, env, owner, name);
  }

  /** Against the real `zfs`, a successful workspace step leaves the workspace in the pool. */
  lemma WorkspaceAfterSuccess(p: Datasets, env: Command -> Reply, owner: string, name: string)
    requires AllHonest(env)
    ensures var w := WorkspaceRun(p, env, owner, name);
            w.result.Done? && w.result.value.success ==> WorkspaceDataset(owner, name) in w.pool
  {
    var ws := WorkspaceDataset(owner, name);
    var s := Step(p, List(ws), env(List(ws)));
    assert env(List(ws)).Honest?;
    var fix := SetMountpoint(WorkspaceMountPath(owner, name), ws);
    StepGrows(s.pool, fix, env(fix));
    HierarchyAfterSuccess(s.pool, env, owner, name);
  }

  /** Against the real `zfs`, a successful `create_container_dataset` leaves the user root and the workspace in the pool. */
  lemma CreatedInPool(p: Datasets, env: Command -> Reply, owner: string, name: string, quota: string)
    requires AllHonest(env)
    ensures var run := CreateContainerRun(p, env, owner, name, quota);
            run.result.Done? && run.result.value.success ==>
              UserDataset(owner) in run.pool && WorkspaceDataset(owner, name) in run.pool
  {
    var u := CreateUserRun(p, env, owner, quota);
    UserRootAfterSuccess(p, env, owner, quota);
    WorkspaceGrows(u.pool, env, owner, name);
    WorkspaceAfterSuccess(u.pool, env, owner, name);
  }

  /** Against the real `zfs`, the user-root step on a pool that has the user root only fixes its mountpoint and quota. */
  lemma UserRootPresent(p: Datasets, env: Command -> Reply, owner: string, quota: string)
    requires AllHonest(env) && UserDataset(owner) in p
    ensures var ds := UserDataset(owner);
            var u := CreateUserRun(p, env, owner, quota);
            && u.issued == [List(ds), SetMountpoint(UserMountPath(owner), ds), SetQuota(quota, ds)]
            && u.result == Done(ZfsResult(true, ds, "User dataset '" + ds + "' already exists (quota: " + quota + ").", None, None))
            && Grows(p, u.pool)
  {
    var ds := UserDataset(owner);
    assert env(List(ds)).Honest?;
    var fix := SetMountpoint(UserMountPath(owner), ds);
    assert env(fix).Honest? && env(SetQuota(quota, ds)).Honest?;
    UserRunGrows(p, env, owner, quota);
  }

  /** The workspace list found it: only its mountpoint is fixed. */
  lemma WorkspaceFound(s: StepOut, env: Command -> Reply, owner: string, name: string)
    requires s.out.Done? && s.out.value.Success()
    requires env(SetMountpoint(WorkspaceMountPath(owner, name), WorkspaceDataset(owner, name))).Honest?
    requires WorkspaceDataset(owner, name) in s.pool
    ensures var ws := WorkspaceDataset(owner, name);
            var mp := WorkspaceMountPath(owner, name);
            var rest := AfterWorkspaceList(s, env, owner, name);
            && rest.issued == [SetMountpoint(mp, ws)]
            && rest.result == Done(ZfsResult(true, ws, "Container dataset '" + ws + "' already exists.", Some(mp), None))
  {
  }

  /** Against the real `zfs`, the workspace step on a pool that has the workspace only fixes its mountpoint. */
  lemma WorkspacePresent(p: Datasets, env: Command -> Reply, owner: string, name: string)
    requires AllHonest(env) && WorkspaceDataset(owner, name) in p
    ensures var ws := WorkspaceDataset(owner, name);
            var mp := WorkspaceMountPath(owner, name);
            var w := WorkspaceRun(p, env, owner, name);
            && w.issued == [List(ws), SetMountpoint(mp, ws)]
            && w.result == Done(ZfsResult(true, ws, "Container dataset '" + ws + "' already exists.", Some(mp), None))
  {
    var ws := WorkspaceDataset(owner, name);
    var fix := SetMountpoint(WorkspaceMountPath(owner, name), ws);
    assert env(List(ws)).Honest? && env(fix).Honest?;
    var s := Step(p, List(ws), env(List(ws)));
    ListKeepsPool(p, ws, env(List(ws)));
    WorkspaceFound(s, env, owner, name);
    assert [List(ws)] + [fix] == [List(ws), fix];
  }

  /** Against the real `zfs`, on a pool holding the user root and the workspace, a create only re-applies settings. */
  lemma CreateOnExisting(q: Datasets, env: Command -> Reply, owner: string, name: string, quota: string)
    requires AllHonest(env) && UserDataset(owner) in q && WorkspaceDataset(owner, name) in q
    ensures var run := CreateContainerRun(q, env, owner, name, quota);
            var ud := UserDataset(owner);
            var ws := WorkspaceDataset(owner, name);
            var mp := WorkspaceMountPath(owner, name);
            && run.issued == [List(ud), SetMountpoint(UserMountPath(owner), ud), SetQuota(quota, ud),
                              List(ws), SetMountpoint(mp, ws)]
            && run.result == Done(ZfsResult(true, ws, "Container dataset '" + ws + "' already exists.", Some(mp), None))
  {
    var u := CreateUserRun(q, env, owner, quota);
    UserRootPresent(q, env, owner, quota);
    WorkspacePresent(u.pool, env, owner, name);
    var w := WorkspaceRun(u.pool, env, owner, name);
    assert AfterUser(u, env, owner, name) == w;
  }

  /**
   * Creating the same container's storage twice against the real `zfs`: the
   * second run finds both datasets, only re-applies the mountpoints and the
   * quota, and reports that the workspace already exists, with its mount path.
   */
  lemma CreateIdempotent(p: Datasets, env1: Command -> Reply, env2: Command -> Reply, owner: string, name: string, quota: string)
    requires AllHonest(env1) && AllHonest(env2)
    ensures var run1 := CreateContainerRun(p, env1, owner, name, quota);
            var run2 := CreateContainerRun(run1.pool, env2, owner, name, quota);
            var ud := UserDataset(owner);
            var ws := WorkspaceDataset(owner, name);
            var mp := WorkspaceMountPath(owner, name);
            run1.result.Done? && run1.result.value.success ==>
              && run2.issued == [List(ud), SetMountpoint(UserMountPath(owner), ud), SetQuota(quota, ud),
                                 List(ws), SetMountpoint(mp, ws)]
              && run2.result == Done(ZfsResult(true, ws, "Container dataset '" + ws + "' already exists.", Some(mp), None))
  {
    var run1 := CreateContainerRun(p, env1, owner, name, quota);
    if run1.result.Done? && run1.result.value.success {
      CreatedInPool(p, env1, owner, name, quota);
      CreateOnExisting(run1.pool, env2, owner, name, quota);
    }
  }

  // ------------------------------------------------------------ destroy_container_dataset

  /** The user root is not within a container's dataset. */
  lemma UserRootOutsideContainer(owner: string, name: string)
    ensures !Within(UserDataset(owner), ContainerDataset(owner, name))
  {
    assert |UserDataset(owner)| < |ContainerDataset(owner, name)|;
  }

  lemma DestroysOfPair(a: Command, b: Command)
    ensures Destroys([a]) == (if a.DestroyRecursive? then [a] else [])
    ensures Destroys([a, b]) == (if a.DestroyRecursive? then [a] else []) + (if b.DestroyRecursive? then [b] else [])
  {
    assert [a][1..] == [];
    assert [a, b][1..] == [b];
    assert [b][1..] == [];
  }

  /** A `zfs list` never changes the pool. */
  lemma ListKeepsPool(p: Datasets, ds: string, reply: Reply)
    ensures Step(p, List(ds), reply).pool == p
  {
  }

  /** After its list, `destroy_container_dataset` issues nothing more, or the destroy with its effect. */
  lemma AfterDestroyListShape(s1: StepOut, env: Command -> Reply, ds: string)
    ensures var rest := AfterDestroyList(s1, env, ds);
            s1.out.TimeoutError? || !s1.out.value.Success() ==> rest.issued == [] && rest.pool == s1.pool
    ensures var rest := AfterDestroyList(s1, env, ds);
            s1.out.Done? && s1.out.value.Success() ==>
              rest.issued == [DestroyRecursive(ds)] && rest.pool == Step(s1.pool, DestroyRecursive(ds), env(DestroyRecursive(ds))).pool
  {
  }

  /** The commands and new pool of `destroy_container_dataset`: the list, then perhaps the destroy and its effect. */
  lemma DestroyShape(p: Datasets, env: Command -> Reply, ds: string)
    ensures var run := DestroyDatasetRun(p, env, ds);
            (run.issued == [List(ds)] && run.pool == p)
            || (run.issued == [List(ds), DestroyRecursive(ds)] && run.pool == Step(p, DestroyRecursive(ds), env(DestroyRecursive(ds))).pool)
  {
    var s1 := Step(p, List(ds), env(List(ds)));
    ListKeepsPool(p, ds, env(List(ds)));
    AfterDestroyListShape(s1, env, ds);
  }

  /** `destroy_container_dataset` issues at most one destroy, always `zfs destroy -r <container dataset>`. */
  lemma DestroyOnlyContainer(p: Datasets, env: Command -> Reply, owner: string, name: string)
    ensures var run := DestroyRun(p, env, owner, name);
            Destroys(run.issued) == [] || Destroys(run.issued) == [DestroyRecursive(ContainerDataset(owner, name))]
  {
    var ds := ContainerDataset(owner, name);
    DestroyShape(p, env, ContainerDataset(owner, name));
    DestroysOfPair(List(ds), DestroyRecursive(ds));
  }

  /** A destroy step adds nothing and keeps everything outside the destroyed subtree. */
  lemma DestroyStepScope(p: Datasets, ds: string, reply: Reply)
    ensures var q := Step(p, DestroyRecursive(ds), reply).pool;
            (forall k :: k in q ==> k in p)
            && (forall k :: k in p && !Within(k, ds) ==> k in q && q[k] == p[k])
  {
  }

  /**
   * `destroy_container_dataset` adds nothing to the pool and leaves every
   * dataset outside the container's subtree as it was.
   */
  lemma DestroyScope(p: Datasets, env: Command -> Reply, owner: string, name: string)
    ensures var run := DestroyRun(p, env, owner, name);
            forall k :: k in run.pool ==> k in p
    ensures var run := DestroyRun(p, env, owner, name);
            forall k :: k in p && !Within(k, ContainerDataset(owner, name)) ==> k in run.pool && run.pool[k] == p[k]
  {
    var ds := ContainerDataset(owner, name);
    DestroyShape(p, env, ContainerDataset(owner, name));
    DestroyStepScope(p, ds, env(DestroyRecursive(ds)));
  }

  /** In particular the user root survives the destroy unchanged. */
  lemma DestroyKeepsUserRoot(p: Datasets, env: Command -> Reply, owner: string, name: string)
    requires UserDataset(owner) in p
    ensures var run := DestroyRun(p, env, owner, name);
            UserDataset(owner) in run.pool && run.pool[UserDataset(owner)] == p[UserDataset(owner)]
  {
    UserRootOutsideContainer(owner, name);
    DestroyScope(p, env, owner, name);
  }

  /** On a pool without the container dataset, destroy issues only the list and reports success, changing nothing. */
  lemma DestroyAbsent(p: Datasets, env: Command -> Reply, owner: string, name: string)
    requires ContainerDataset(owner, name) !in p
    requires env(List(ContainerDataset(owner, name))).Honest?
    ensures var run := DestroyRun(p, env, owner, name);
            run.issued == [List(ContainerDataset(owner, name))] && run.pool == p
            && run.result == Done(ZfsResult(true, ContainerDataset(owner, name),
                                            "Container dataset '" + ContainerDataset(owner, name) + "' does not exist (already clean).",
                                            None, None))
  {
  }

  /** After a successful destroy against the real `zfs`, the container dataset is gone, so a second destroy is a no-op. */
  lemma DestroyIdempotent(p: Datasets, env1: Command -> Reply, env2: Command -> Reply, owner: string, name: string)
    requires AllHonest(env1) && env2(List(ContainerDataset(owner, name))).Honest?
    ensures var run1 := DestroyRun(p, env1, owner, name);
            var run2 := DestroyRun(run1.pool, env2, owner, name);
            run1.result.Done? && run1.result.value.success ==>
              run2.pool == run1.pool && run2.issued == [List(ContainerDataset(owner, name))]
              && run2.result.Done? && run2.result.value.success
  {
    var ds := ContainerDataset(owner, name);
    var run1 := DestroyRun(p, env1, owner, name);
    assert env1(List(ds)).Honest?;
    assert env1(DestroyRecursive(ds)).Honest?;
    if run1.result.Done? && run1.result.value.success {
      assert ds !in run1.pool;
      DestroyAbsent(run1.pool, env2, owner, name);
    }
  }
}
