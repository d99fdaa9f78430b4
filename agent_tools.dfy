/**
 * `agent/agent.py`: the tools the language model may call.  They turn the
 * lifecycle operations' results into one-line replies, refuse to destroy a
 * container the caller does not own, and format the caller's workloads.
 * The lifecycle operations themselves live in `agent/tools/containers.py`,
 * which is not part of this model: their results are inputs here.
 */
module AgentTools {
  import opened Common
  import opened Text
  import opened Cli
  import opened Models
  import opened Workloads

  /** What a lifecycle operation reports: the container, whether it worked, and `str(error)`. */
  datatype ContainerResult = ContainerResult(name: string, success: bool, error: string)

  /** A tool either answers with text or lets an exception out to the agent framework. */
  datatype ToolOutcome = Reply(text: string) | Raise(errors: seq<string>)

  const DONE_MARK := "✅ "
  const FAIL_MARK := "❌ "

  /** A container name as the replies show it, between backticks. */
  function Quoted(name: string): string {
    "`" + name + "`"
  }

  /** The shared shape of the create/start/stop/destroy replies. */
  function LifecycleReply(r: ContainerResult, done: string, verb: string): string {
    if r.success then DONE_MARK + "Container " + Quoted(r.name) + " " + done + "."
    else FAIL_MARK + "Failed to " + verb + " " + Quoted(r.name) + ": " + r.error
  }

  /** A reply made of a mark, an opening, the quoted name and a closing holds the name and ends with the closing. */
  lemma ReplyPieces(mark: string, opening: string, quoted: string, closing: string)
    ensures Contains(mark + opening + quoted + closing, quoted)
    ensures Contains(mark + opening + quoted + closing, opening)
    ensures EndsWith(mark + opening + quoted + closing, closing)
  {
    ContainsMiddle(mark + opening, quoted, closing);
    ContainsMiddle(mark, opening, quoted + closing);
    assert mark + opening + (quoted + closing) == mark + opening + quoted + closing;
    EndsWithSuffix(mark + opening + quoted, closing);
  }

  /**
   * Every reply names the container in backticks; a success ends with what
   * was done, a failure says which operation failed and ends with its error.
   */
  lemma LifecycleReplyShape(r: ContainerResult, done: string, verb: string)
    ensures Contains(LifecycleReply(r, done, verb), Quoted(r.name))
    ensures r.success ==> EndsWith(LifecycleReply(r, done, verb), " " + done + ".")
    ensures !r.success ==> Contains(LifecycleReply(r, done, verb), "Failed to " + verb + " ")
                           && EndsWith(LifecycleReply(r, done, verb), ": " + r.error)
  {
    var text := LifecycleReply(r, done, verb);
    var q := Quoted(r.name);
    if r.success {
      var closing := " " + done + ".";
      assert text == DONE_MARK + "Container " + q + closing;
      ReplyPieces(DONE_MARK, "Container ", q, closing);
    } else {
      var opening := "Failed to " + verb + " ";
      var closing := ": " + r.error;
      assert text == FAIL_MARK + opening + q + closing;
      ReplyPieces(FAIL_MARK, opening, q, closing);
    }
  }

  /** `tool_create_container`: validate the spec (a `ValidationError` escapes), then create. */
  function ToolCreateContainer(name: string, owner: string, modules: seq<string>,
                               create: ContainerSpec -> ContainerResult): (r: ToolOutcome)
    ensures r.Raise? <==> MakeSpec(name, owner, modules, None, None).Failure?
    ensures r.Raise? ==> r.errors == MakeSpec(name, owner, modules, None, None).error && r.errors != []
    ensures r.Reply? ==> r.text == LifecycleReply(create(ContainerSpec(name, owner, modules, None, None)), "is running", "create")
  {
    match MakeSpec(name, owner, modules, None, None)
    case Failure(errs) => Raise(errs)
    case Success(spec) => Reply(LifecycleReply(create(spec), "is running", "create"))
  }

  /** `tool_start_container`. */
  function ToolStartContainer(name: string, start: string -> ContainerResult): (text: string)
    ensures StartsWith(text, DONE_MARK) <==> start(name).success
    ensures start(name).success ==> text == DONE_MARK + "Container " + Quoted(start(name).name) + " started."
    ensures !start(name).success ==> text == FAIL_MARK + "Failed to start " + Quoted(start(name).name) + ": " + start(name).error
  {
    LifecycleMarks(start(name), "started", "start");
    LifecycleReply(start(name), "started", "start")
  }

  /** `tool_stop_container`. */
  function ToolStopContainer(name: string, stop: string -> ContainerResult): (text: string)
    ensures StartsWith(text, DONE_MARK) <==> stop(name).success
    ensures stop(name).success ==> text == DONE_MARK + "Container " + Quoted(stop(name).name) + " stopped."
    ensures !stop(name).success ==> text == FAIL_MARK + "Failed to stop " + Quoted(stop(name).name) + ": " + stop(name).error
  {
    LifecycleMarks(stop(name), "stopped", "stop");
    LifecycleReply(stop(name), "stopped", "stop")
  }

  /** `tool_destroy_container`: destroy only a container whose resolved owner is the caller. */
  function ToolDestroyContainer(name: string, owner: string, procs: Processes, files: Files,
                                destroy: string -> ContainerResult): (text: string)
    ensures StartsWith(text, DONE_MARK) <==> GetContainerOwner(name, procs, files) == Some(owner) && destroy(name).success
  {
    var containerOwner := GetContainerOwner(name, procs, files);
    if containerOwner != Some(owner) then
      if containerOwner.None? then
        DiffersAtPrefix(FAIL_MARK, "Container `" + name + "` not found or not running.", DONE_MARK, 0);
        FAIL_MARK + "Container `" + name + "` not found or not running."
      else
        DiffersAtPrefix(FAIL_MARK, "Container `" + name + "` belongs to another user.", DONE_MARK, 0);
        FAIL_MARK + "Container `" + name + "` belongs to another user."
    else
      LifecycleMarks(destroy(name), "destroyed", "destroy");
      LifecycleReply(destroy(name), "destroyed", "destroy")
  }

  /**
   * The ownership guard: unless the caller owns the container, the reply is a
   * refusal that does not depend on the destroy operation at all, so nothing
   * is destroyed; an unknown owner reads as "not found", anyone else's as
   * "another user".
   */
  lemma DestroyGuard(name: string, owner: string, procs: Processes, files: Files,
                     d1: string -> ContainerResult, d2: string -> ContainerResult)
    ensures GetContainerOwner(name, procs, files) != Some(owner) ==>
              ToolDestroyContainer(name, owner, procs, files, d1) == ToolDestroyContainer(name, owner, procs, files, d2)
    ensures GetContainerOwner(name, procs, files).None? ==>
              ToolDestroyContainer(name, owner, procs, files, d1) == FAIL_MARK + "Container `" + name + "` not found or not running."
    ensures GetContainerOwner(name, procs, files).Some? && GetContainerOwner(name, procs, files).value != owner ==>
              ToolDestroyContainer(name, owner, procs, files, d1) == FAIL_MARK + "Container `" + name + "` belongs to another user."
    ensures GetContainerOwner(name, procs, files) == Some(owner) ==>
              ToolDestroyContainer(name, owner, procs, files, d1) == LifecycleReply(d1(name), "destroyed", "destroy")
  {
  }

  /** Success and failure read differently: exactly the successful replies open with the check mark. */
  lemma LifecycleMarks(r: ContainerResult, done: string, verb: string)
    ensures StartsWith(LifecycleReply(r, done, verb), DONE_MARK) <==> r.success
    ensures StartsWith(LifecycleReply(r, done, verb), FAIL_MARK) <==> !r.success
  {
    var text := LifecycleReply(r, done, verb);
    if r.success {
      var rest := "Container " + Quoted(r.name) + " " + done + ".";
      assert text == DONE_MARK + rest;
      StartsWithPrefix(DONE_MARK, rest);
      DiffersAtPrefix(DONE_MARK, rest, FAIL_MARK, 0);
    } else {
      var rest := "Failed to " + verb + " " + Quoted(r.name) + ": " + r.error;
      assert text == FAIL_MARK + rest;
      StartsWithPrefix(FAIL_MARK, rest);
      DiffersAtPrefix(FAIL_MARK, rest, DONE_MARK, 0);
    }
  }


  // ------------------------------------------------------------ tool_list_workloads

  /** One workload's line: name, kind, state and addresses. */
  function WorkloadLine(w: Workload): string {
    var status := if w.IsRunning() then "🟢 running" else "🔴 stopped";
    var kind := if w.IsContainer() then "container" else "VM";
    var addr := if w.addresses != [] then Join(w.addresses, ", ") else "no address";
    "• `" + w.name + "` (" + kind + ") — " + status + " — " + addr
  }

  function WorkloadLines(ws: seq<Workload>): (ls: seq<string>)
    ensures |ls| == |ws|
  {
    if ws == [] then [] else [WorkloadLine(ws[0])] + WorkloadLines(ws[1..])
  }

  /** One line per workload, in order. */
  lemma {:induction false} WorkloadLinesSpec(ws: seq<Workload>)
    ensures forall k :: 0 <= k < |ws| ==> WorkloadLines(ws)[k] == WorkloadLine(ws[k])
  {
    if ws != [] {
      WorkloadLinesSpec(ws[1..]);
      var ls := WorkloadLines(ws);
      assert ls == [WorkloadLine(ws[0])] + WorkloadLines(ws[1..]);
      forall k | 1 <= k < |ws|
        ensures ls[k] == WorkloadLine(ws[k])
      {
        assert ls[k] == WorkloadLines(ws[1..])[k - 1] && ws[k] == ws[1..][k - 1];
      }
    }
  }

  /** The line of one more workload goes at the end. */
  lemma {:induction false} WorkloadLinesSnoc(ws: seq<Workload>, w: Workload)
    ensures WorkloadLines(ws + [w]) == WorkloadLines(ws) + [WorkloadLine(w)]
  {
    if ws == [] {
      assert [w][1..] == [];
    } else {
      var t := ws + [w];
      assert t[0] == ws[0] && t[1..] == ws[1..] + [w];
      WorkloadLinesSnoc(ws[1..], w);
    }
  }

  /** The `for w in workloads: lines.append(...)` loop and the final join. */
  method FormatWorkloads(ws: seq<Workload>) returns (text: string)
    ensures text == Join(WorkloadLines(ws), "\n")
  {
    var lines: seq<string> := [];
    var i := 0;
    while i < |ws|
      invariant 0 <= i <= |ws|
      invariant lines == WorkloadLines(ws[..i])
    {
      var w := ws[i];
      var status := if w.IsRunning() then "🟢 running" else "🔴 stopped";
      var kind := if w.IsContainer() then "container" else "VM";
      var addr := if w.addresses != [] then Join(w.addresses, ", ") else "no address";
      var line := "• `" + w.name + "` (" + kind + ") — " + status + " — " + addr;
      assert line == WorkloadLine(w);
      assert ws[..i + 1] == ws[..i] + [w];
      WorkloadLinesSnoc(ws[..i], w);
      lines := lines + [line];
      i := i + 1;
    }
    assert ws[..i] == ws;
    text := Join(lines, "\n");
  }

  /** `tool_list_workloads`: a `WorkloadError` becomes a reply, a timeout escapes. */
  function ListReply(listed: Result<seq<Workload>, Raised>, formatted: string): ToolOutcome {
    match listed
    case Failure(WorkloadError(m)) => Reply(FAIL_MARK + "Could not query workloads: " + m)
    case Failure(Timeout(m)) => Raise([m])
    case Success(ws) => if ws == [] then Reply("No containers or VMs running.") else Reply(formatted)
  }

  method ToolListWorkloads(owner: string, procs: Processes, files: Files, decode: string -> Decoded)
    returns (r: ToolOutcome)
    ensures var listed := ListWorkloadsOf(Some(owner), procs, files, decode);
            r == ListReply(listed, if listed.Success? then Join(WorkloadLines(listed.value), "\n") else "")
  {
    var listed := ListWorkloads(Some(owner), procs, files, decode);
    if listed.Failure? {
      var e := listed.error;
      if e.WorkloadError? {
        return Reply(FAIL_MARK + "Could not query workloads: " + e.message);
      }
      return Raise([e.message]);
    }
    var workloads := listed.value;
    if workloads == [] {
      return Reply("No containers or VMs running.");
    }
    var text := FormatWorkloads(workloads);
    return Reply(text);
  }

  /** A line holds no line break when its workload's name and addresses hold none. */
  predicate OneLine(w: Workload) {
    Free(w.name, '\n') && forall k :: 0 <= k < |w.addresses| ==> Free(w.addresses[k], '\n')
  }

  lemma {:induction false} JoinFree(parts: seq<string>, sep: string, c: char)
    requires Free(sep, c) && forall k :: 0 <= k < |parts| ==> Free(parts[k], c)
    ensures Free(Join(parts, sep), c)
    decreases |parts|
  {
    if |parts| > 1 {
      JoinFree(parts[1..], sep, c);
      ConcatFree(parts[0], sep, c);
      ConcatFree(parts[0] + sep, Join(parts[1..], sep), c);
    }
  }

  lemma ConcatFree(a: string, b: string, c: char)
    requires Free(a, c) && Free(b, c)
    ensures Free(a + b, c)
  {
    assert forall j :: 0 <= j < |a + b| ==> (a + b)[j] == if j < |a| then a[j] else b[j - |a|];
  }

  lemma WorkloadLineFree(w: Workload)
    requires OneLine(w)
    ensures Free(WorkloadLine(w), '\n')
  {
    var status := if w.IsRunning() then "🟢 running" else "🔴 stopped";
    var kind := if w.IsContainer() then "container" else "VM";
    var addr := if w.addresses != [] then Join(w.addresses, ", ") else "no address";
    if w.addresses != [] {
      JoinFree(w.addresses, ", ", '\n');
    }
    assert Free("• `", '\n') && Free("` (", '\n') && Free(") — ", '\n') && Free(" — ", '\n');
    assert Free(kind, '\n') && Free(status, '\n') && Free(addr, '\n');
    var s1 := "• `" + w.name;
    ConcatFree("• `", w.name, '\n');
    var s2 := s1 + "` (";
    ConcatFree(s1, "` (", '\n');
    var s3 := s2 + kind;
    ConcatFree(s2, kind, '\n');
    var s4 := s3 + ") — ";
    ConcatFree(s3, ") — ", '\n');
    var s5 := s4 + status;
    ConcatFree(s4, status, '\n');
    var s6 := s5 + " — ";
    ConcatFree(s5, " — ", '\n');
    ConcatFree(s6, addr, '\n');
    assert WorkloadLine(w) == s6 + addr;
  }

  /** The listing is one line per workload, in order: splitting it at line breaks gives back exactly the lines. */
  lemma ListingLines(ws: seq<Workload>)
    requires ws != [] && forall k :: 0 <= k < |ws| ==> OneLine(ws[k])
    ensures Split(Join(WorkloadLines(ws), "\n"), '\n') == WorkloadLines(ws)
  {
    var ls := WorkloadLines(ws);
    WorkloadLinesSpec(ws);
    forall k | 0 <= k < |ls|
      ensures Free(ls[k], '\n')
    {
      WorkloadLineFree(ws[k]);
    }
    SplitJoin(ls, '\n');
  }
}
