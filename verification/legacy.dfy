/**
 * The older snapshot creator of create_snap-v20240811.py. It shares the line grouping and the log
 * with create_snapy.py but differs in four ways:
 *   - commands go through an HTTP endpoint, and a reply whose status is not 200 raises
 *     `AzureCommandError`;
 *   - failures carry the error text;
 *   - each task reads the clock for its own timestamp;
 *   - any `AzureCommandError` in a group's lookup loop aborts the whole group. Every VM of the
 *     group is then recorded as failed, including those whose tasks already ran.
 * Tasks run to completion as soon as they are dispatched, as in the newer creator.
 */
module Legacy {
  import opened Wrappers
  import opened Seqs
  import opened Timestamp
  import opened Common
  import opened Grouping
  import opened Ledger

  /**
   * The last reply to the POST of a command, after `backoff`'s retries: a status with the body's
   * `stdout`, `stderr` and `exitCode`, or an `aiohttp.ClientError` on every try.
   */
  datatype HttpReply =
    | Responded(status: nat, stdout: string, stderr: string, exitCode: int)
    | ClientFailure

  /**
   * What the run sees of the outside world:
   *   - `post`: the reply each command gets;
   *   - `clock`: the `datetime.now()` reading the j-th VM of the run takes in its task,
   *     counting VMs in group order from 0 (a VM whose task never starts takes none);
   *   - `vmDoc` and `snapshotDoc`: what `json.loads` makes of a reply (`None` when it raises, or
   *     when the value is not an object).
   */
  datatype Env = Env(
    post: Command -> HttpReply,
    clock: nat -> Moment,
    vmDoc: string -> Option<VmDoc>,
    snapshotDoc: string -> Option<SnapshotDoc>)

  /**
   * What `run_az_command` gives its caller: the triple, or the message of the `AzureCommandError`
   * it raises, or the client error that nothing in the script catches.
   */
  datatype Reply =
    | Answer(stdout: string, stderr: string, code: int)
    | Refused(message: string)
    | Unanswered

  /** `run_az_command`: a 200 reply yields its triple; any other status raises `AzureCommandError`. */
  function PostCommand(cmd: Command, h: HttpReply): (r: Reply)
    ensures r.Answer? <==> h.Responded? && h.status == 200
    ensures r.Unanswered? <==> h.ClientFailure?
    ensures r.Answer? ==> r.stdout == h.stdout && r.stderr == h.stderr && r.code == h.exitCode
    ensures r.Refused? ==> r.message == CommandFailed(cmd, h.status)
  {
    match h
    case ClientFailure => Unanswered
    case Responded(status, out, err, code) =>
      if status == 200 then Answer(out, err, code)
      else Refused(CommandFailed(cmd, status))
  }

  const CreateErrorText := "Failed to create snapshot for VM: "
  const LookupErrorText := "Failed to get VM details for "
  const SwitchErrorText := "Failed to set subscription ID: "
  const ErrorText := ". Error: "
  const CommandFailedText := "Command failed: "
  const StatusText := ". Status: "
  const NoSnapshotId := "Failed to extract snapshot ID"

  function CreateError(vm: string, stderr: string): string {
    CreateErrorText + vm + ErrorText + stderr
  }

  function LookupError(vm: string, stderr: string): string {
    LookupErrorText + vm + ErrorText + stderr
  }

  function SwitchError(subscription: string, stderr: string): string {
    SwitchErrorText + subscription + ErrorText + stderr
  }

  function CommandFailed(cmd: Command, status: nat): string {
    CommandFailedText + CommandLine(cmd) + StatusText + NatToString(status)
  }

  /** A task's log, and the exception it ended with. */
  datatype Task = Task(events: seq<Event>, error: Option<Crash>)

  // ---------------------------------------------------------------- process_vm

  /** `process_vm` as dispatched with clock reading `k`: issue the create command, then act on its reply. */
  function ProcessVm(env: Env, chg: string, k: nat, vm: string, rg: string, disk: string): Task {
    var ts := Format(env.clock(k));
    var cmd := CreateSnapshot(SnapshotName(chg, vm, ts), rg, disk);
    var t := AfterCreate(env, chg, ts, vm, cmd, PostCommand(cmd, env.post(cmd)));
    Task([Issued(cmd)] + t.events, t.error)
  }

  /**
   * What `process_vm` does with the create command's reply. It catches `AzureCommandError` and
   * records its message. The client error and the decoding error escape it.
   */
  function AfterCreate(env: Env, chg: string, ts: string, vm: string, cmd: Command, reply: Reply): Task {
    match reply
    case Unanswered => Task([], Some(Unreachable(cmd)))
    case Refused(msg) => Task([Recorded(Failed(vm, msg))], None)
    case Answer(out, err, code) =>
      if code != 0 then Task([Recorded(Failed(vm, CreateError(vm, err)))], None)
      else
        match env.snapshotDoc(out)
        case None => Task([], Some(UnreadableSnapshotReply(vm)))
        case Some(doc) =>
          if HasId(doc) then Task([RidAppended(doc.id.value), Recorded(Succeeded(vm, SnapshotName(chg, vm, ts)))], None)
          else Task([Recorded(Failed(vm, NoSnapshotId))], None)
  }

  lemma AfterCreateViews(env: Env, chg: string, ts: string, vm: string, cmd: Command, reply: Reply)
    ensures var t := AfterCreate(env, chg, ts, vm, cmd, reply);
      && Commands(t.events) == []
      && RidsKept(t.events)
      && match reply
         case Unanswered => t.error == Some(Unreachable(cmd)) && Outcomes(t.events) == []
         case Refused(msg) => t.error.None? && Outcomes(t.events) == [Failed(vm, msg)] && Rids(t.events) == []
         case Answer(out, err, code) =>
           if code != 0 then t.error.None? && Outcomes(t.events) == [Failed(vm, CreateError(vm, err))] && Rids(t.events) == []
           else
             match env.snapshotDoc(out)
             case None => t.error == Some(UnreadableSnapshotReply(vm)) && Outcomes(t.events) == []
             case Some(doc) =>
               && t.error.None?
               && if HasId(doc) then
                    Outcomes(t.events) == [Succeeded(vm, SnapshotName(chg, vm, ts))] && Rids(t.events) == [doc.id.value]
                  else Outcomes(t.events) == [Failed(vm, NoSnapshotId)] && Rids(t.events) == []
  {
    var t := AfterCreate(env, chg, ts, vm, cmd, reply);
    if t.events == [] {
      assert Outcomes([]) == [] && Rids([]) == [] && Commands([]) == [];
      assert Successes([]) == [];
    } else if |t.events| == 1 {
      var e := t.events[0];
      assert t.events == [e];
      FailureDisciplined(e.outcome.vm, e.outcome.reason, chg, ts);
      ViewsOfOne(e);
    } else {
      var doc := env.snapshotDoc(reply.stdout).value;
      SuccessDisciplined(doc.id.value, vm, chg, ts);
      var o := Succeeded(vm, SnapshotName(chg, vm, ts));
      ViewsOfOne(RidAppended(doc.id.value));
      ViewsOfOne(Recorded(o));
      assert t.events == [RidAppended(doc.id.value)] + [Recorded(o)];
      ViewsAppend([RidAppended(doc.id.value)], [Recorded(o)]);
    }
  }

  /**
   * A task's outcome follows the create command's reply, and a success names the snapshot with
   * its own clock reading:
   *   - a reply with another status than 200 records the "Command failed" message;
   *   - a non-zero exit records "Failed to create snapshot for VM: …" with the error text;
   *   - a clean exit whose reply has an id appends that id and records the snapshot name;
   *   - a reply without an id records NoSnapshotId;
   *   - a client error or an undecodable reply escapes, recording nothing.
   */
  lemma ProcessVmOutcome(env: Env, chg: string, k: nat, vm: string, rg: string, disk: string)
    ensures var t, name := ProcessVm(env, chg, k, vm, rg, disk), SnapshotName(chg, vm, Format(env.clock(k)));
      var cmd := CreateSnapshot(name, rg, disk);
      && Commands(t.events) == [cmd]
      && RidsKept(t.events)
      && match env.post(cmd)
         case ClientFailure => t.error == Some(Unreachable(cmd)) && Outcomes(t.events) == []
         case Responded(status, out, err, code) =>
           if status != 200 then
             t.error.None? && Outcomes(t.events) == [Failed(vm, CommandFailed(cmd, status))]
           else if code != 0 then t.error.None? && Outcomes(t.events) == [Failed(vm, CreateError(vm, err))]
           else
             match env.snapshotDoc(out)
             case None => t.error == Some(UnreadableSnapshotReply(vm)) && Outcomes(t.events) == []
             case Some(doc) =>
               && t.error.None?
               && if HasId(doc) then Outcomes(t.events) == [Succeeded(vm, name)] && Rids(t.events) == [doc.id.value]
                  else Outcomes(t.events) == [Failed(vm, NoSnapshotId)] && Rids(t.events) == []
  {
    var ts := Format(env.clock(k));
    var cmd := CreateSnapshot(SnapshotName(chg, vm, ts), rg, disk);
    var t := AfterCreate(env, chg, ts, vm, cmd, PostCommand(cmd, env.post(cmd)));
    AfterCreateViews(env, chg, ts, vm, cmd, PostCommand(cmd, env.post(cmd)));
    IssuedDisciplined(cmd, chg, ts);
    ViewsAppend([Issued(cmd)], t.events);
    RidsKeptAppend([Issued(cmd)], t.events);
  }

  /** A task that raises records nothing; one that does not records one outcome, for its own VM. */
  lemma ProcessVmRecordsOnce(env: Env, chg: string, k: nat, vm: string, rg: string, disk: string)
    ensures var t := ProcessVm(env, chg, k, vm, rg, disk);
      && (t.error.Some? ==> Outcomes(t.events) == [])
      && (t.error.None? ==> Map(OutcomeVm, Outcomes(t.events)) == [vm])
  {
    ProcessVmOutcome(env, chg, k, vm, rg, disk);
  }

  // ---------------------------------------------------------------- the lookup loop

  /** How a turn of the lookup loop ends: on to the next VM, the group's `except`, or an exception nothing catches. */
  datatype Stop = Continue | Abort(message: string) | Raise(crash: Crash)

  /**
   * The lookup loop so far:
   *   - its log, and how it stopped;
   *   - the first task exception, held for `gather`;
   *   - on `Abort`, the VMs left without a turn, the failing one first.
   */
  datatype Loop = Loop(events: seq<Event>, stop: Stop, taskError: Option<Crash>, pending: seq<VmRecord>)

  /** One turn of the lookup loop: look the VM up, then act on the reply. */
  function Turn(env: Env, chg: string, k: nat, v: VmRecord): Loop {
    var cmd := ShowVm(v.resourceId);
    var l := AfterLookup(env, chg, k, v, cmd, PostCommand(cmd, env.post(cmd)));
    l.(events := [Issued(cmd)] + l.events)
  }

  /**
   * What the loop does with a lookup reply. An `AzureCommandError` (a status other than 200, or a
   * non-zero exit) goes to the group's `except`. A client error, an undecodable reply or a missing
   * key raises out of `main`. Otherwise the VM's task is dispatched and runs at once.
   */
  function AfterLookup(env: Env, chg: string, k: nat, v: VmRecord, cmd: Command, reply: Reply): Loop {
    match reply
    case Unanswered => Loop([], Raise(Unreachable(cmd)), None, [])
    case Refused(msg) => Loop([], Abort(msg), None, [v])
    case Answer(out, err, code) =>
      if code != 0 then Loop([], Abort(LookupError(v.vmName, err)), None, [v])
      else
        match env.vmDoc(out)
        case None => Loop([], Raise(UnreadableVmDetails(v.vmName)), None, [])
        case Some(d) =>
          if d.resourceGroup.None? || d.diskId.None? then Loop([], Raise(MissingVmField(v.vmName)), None, [])
          else
            var t := ProcessVm(env, chg, k, v.vmName, d.resourceGroup.value, d.diskId.value);
            Loop(t.events, Continue, t.error, [])
  }

  /** The loop's stop conditions, and a turn that goes on without a task exception records its VM once. */
  lemma AfterLookupOutcome(env: Env, chg: string, k: nat, v: VmRecord, cmd: Command, reply: Reply)
    ensures var l := AfterLookup(env, chg, k, v, cmd, reply);
      && RidsKept(l.events)
      && (l.stop.Abort? <==> reply.Refused? || (reply.Answer? && reply.code != 0))
      && (l.stop.Abort? ==> l.events == [] && l.pending == [v])
      && (l.stop.Raise? ==> l.events == [])
      && Switches(Commands(l.events)) == []
      && (l.stop.Continue? && l.taskError.None? ==> Map(OutcomeVm, Outcomes(l.events)) == [v.vmName])
      && (l.taskError.Some? ==> Outcomes(l.events) == [])
  {
    var l := AfterLookup(env, chg, k, v, cmd, reply);
    if l.events == [] {
      assert Outcomes([]) == [] && Rids([]) == [] && Commands([]) == [];
      assert Successes([]) == [];
    } else {
      var d := env.vmDoc(reply.stdout).value;
      var rg, disk := d.resourceGroup.value, d.diskId.value;
      ProcessVmRecordsOnce(env, chg, k, v.vmName, rg, disk);
      ProcessVmOutcome(env, chg, k, v.vmName, rg, disk);
      assert [CreateSnapshot(SnapshotName(chg, v.vmName, Format(env.clock(k))), rg, disk)][1..] == [];
    }
  }

  lemma TurnOutcome(env: Env, chg: string, k: nat, v: VmRecord)
    ensures var l, cmd := Turn(env, chg, k, v), ShowVm(v.resourceId);
      && RidsKept(l.events)
      && (l.stop.Abort? ==> l.events == [Issued(cmd)] && l.pending == [v])
      && Switches(Commands(l.events)) == []
      && (l.stop.Continue? && l.taskError.None? ==> RecordedVms(l.events) == [v.vmName])
      && (!l.stop.Continue? || l.taskError.Some? ==> Outcomes(l.events) == [])
  {
    var cmd := ShowVm(v.resourceId);
    var l := AfterLookup(env, chg, k, v, cmd, PostCommand(cmd, env.post(cmd)));
    AfterLookupOutcome(env, chg, k, v, cmd, PostCommand(cmd, env.post(cmd)));
    IssuedDisciplined(cmd, "", "");
    ViewsAppend([Issued(cmd)], l.events);
    RidsKeptAppend([Issued(cmd)], l.events);
    SwitchesAppend([cmd], Commands(l.events));
    assert [cmd][1..] == [];
    if l.events == [] {
      assert [Issued(cmd)] + l.events == [Issued(cmd)];
    }
  }

  /** A turn records at most its own VM, and exactly it when it goes on without a task exception. */
  lemma TurnRecords(env: Env, chg: string, k: nat, v: VmRecord)
    ensures var l := Turn(env, chg, k, v);
      && (l.stop.Continue? && l.taskError.None? ==> RecordedVms(l.events) == [v.vmName])
      && (!l.stop.Continue? || l.taskError.Some? ==> RecordedVms(l.events) == [])
  {
    TurnOutcome(env, chg, k, v);
  }

  /** The lookup loop over a group's VMs, leaving it at the first `AzureCommandError` or other exception. */
  function RunVms(env: Env, chg: string, k: nat, vms: seq<VmRecord>): Loop
    decreases |vms|
  {
    if |vms| == 0 then Loop([], Continue, None, [])
    else
      var first := Turn(env, chg, k, vms[0]);
      if first.stop.Abort? then first.(pending := vms)
      else if first.stop.Raise? then first
      else
        var rest := RunVms(env, chg, k + 1, vms[1..]);
        Loop(first.events + rest.events, rest.stop,
             if first.taskError.Some? then first.taskError else rest.taskError,
             rest.pending)
  }

  /** The lookup loop's log keeps the rid list discipline and issues no switch. */
  lemma {:induction false} RunVmsKept(env: Env, chg: string, k: nat, vms: seq<VmRecord>)
    ensures var l := RunVms(env, chg, k, vms);
      RidsKept(l.events) && Switches(Commands(l.events)) == []
    decreases |vms|
  {
    if |vms| == 0 {
      assert Outcomes([]) == [] && Rids([]) == [] && Commands([]) == [];
      assert Successes([]) == [];
    } else {
      var first := Turn(env, chg, k, vms[0]);
      TurnOutcome(env, chg, k, vms[0]);
      if first.stop.Continue? {
        var rest := RunVms(env, chg, k + 1, vms[1..]);
        RunVmsKept(env, chg, k + 1, vms[1..]);
        assert RunVms(env, chg, k, vms).events == first.events + rest.events;
        RidsKeptAppend(first.events, rest.events);
        CommandsAppend(first.events, rest.events);
        SwitchesAppend(Commands(first.events), Commands(rest.events));
      }
    }
  }

  /** A turn that goes on is followed by the loop over the remaining VMs, from the next clock reading on. */
  lemma RunVmsCons(env: Env, chg: string, k: nat, vms: seq<VmRecord>)
    requires |vms| > 0 && Turn(env, chg, k, vms[0]).stop.Continue?
    ensures var l, first := RunVms(env, chg, k, vms), Turn(env, chg, k, vms[0]);
      var rest := RunVms(env, chg, k + 1, vms[1..]);
      && l.events == first.events + rest.events
      && l.stop == rest.stop && l.pending == rest.pending
      && (l.taskError.None? <==> first.taskError.None? && rest.taskError.None?)
  {
  }

  /** A turn that does not go on ends the loop. */
  lemma RunVmsStops(env: Env, chg: string, k: nat, vms: seq<VmRecord>)
    requires |vms| > 0 && !Turn(env, chg, k, vms[0]).stop.Continue?
    ensures var l, first := RunVms(env, chg, k, vms), Turn(env, chg, k, vms[0]);
      && l.events == first.events && l.stop == first.stop && l.taskError == first.taskError
      && (l.stop.Abort? ==> l.pending == vms)
  {
  }

  /** How the names recorded by one turn and by the rest of the loop add up. */
  lemma RecordedStep(first: seq<Event>, rest: seq<Event>, vms: seq<VmRecord>)
    requires |vms| > 0
    requires RecordedVms(first) == [] || RecordedVms(first) == [vms[0].vmName]
    requires IsSubseq(RecordedVms(rest), Map(NameOf, vms[1..]))
    ensures IsSubseq(RecordedVms(first + rest), Map(NameOf, vms))
    ensures RecordedVms(first) == [vms[0].vmName] && RecordedVms(rest) == Map(NameOf, vms[1..]) ==>
      RecordedVms(first + rest) == Map(NameOf, vms)
  {
    RecordedVmsAppend(first, rest);
    assert Map(NameOf, vms) == [NameOf(vms[0])] + Map(NameOf, vms[1..]);
    if RecordedVms(first) == [] {
      SubseqEmpty([NameOf(vms[0])]);
    } else {
      SubseqRefl(RecordedVms(first));
    }
    SubseqAppend(RecordedVms(first), [NameOf(vms[0])], RecordedVms(rest), Map(NameOf, vms[1..]));
  }

  /**
   * The names the lookup loop records are a subsequence of its VMs' names, so none twice; without
   * a task exception, a loop that runs to the end records each VM once, in order.
   */
  lemma {:induction false} RunVmsRecorded(env: Env, chg: string, k: nat, vms: seq<VmRecord>)
    ensures var l := RunVms(env, chg, k, vms);
      && IsSubseq(RecordedVms(l.events), Map(NameOf, vms))
      && (l.stop.Continue? && l.taskError.None? ==> RecordedVms(l.events) == Map(NameOf, vms))
    decreases |vms|, 1
  {
    if |vms| == 0 {
      assert Outcomes([]) == [];
      SubseqEmpty(Map(NameOf, vms));
    } else if Turn(env, chg, k, vms[0]).stop.Continue? {
      RecordedCons(env, chg, k, vms);
    } else {
      RecordedStops(env, chg, k, vms);
    }
  }

  /** A turn that does not go on records nothing, and neither does the loop it ends. */
  lemma RecordedStops(env: Env, chg: string, k: nat, vms: seq<VmRecord>)
    requires |vms| > 0 && !Turn(env, chg, k, vms[0]).stop.Continue?
    ensures var l := RunVms(env, chg, k, vms);
      && RecordedVms(l.events) == []
      && IsSubseq(RecordedVms(l.events), Map(NameOf, vms))
  {
    TurnRecords(env, chg, k, vms[0]);
    RunVmsStops(env, chg, k, vms);
    SubseqEmpty(Map(NameOf, vms));
  }

  /** The step of `RunVmsRecorded` past a turn that goes on. */
  lemma {:induction false} RecordedCons(env: Env, chg: string, k: nat, vms: seq<VmRecord>)
    requires |vms| > 0 && Turn(env, chg, k, vms[0]).stop.Continue?
    ensures var l := RunVms(env, chg, k, vms);
      && IsSubseq(RecordedVms(l.events), Map(NameOf, vms))
      && (l.stop.Continue? && l.taskError.None? ==> RecordedVms(l.events) == Map(NameOf, vms))
    decreases |vms|, 0
  {
    RunVmsRecorded(env, chg, k + 1, vms[1..]);
    TurnRecords(env, chg, k, vms[0]);
    RunVmsCons(env, chg, k, vms);
    RecordedStep(Turn(env, chg, k, vms[0]).events,
                 RunVms(env, chg, k + 1, vms[1..]).events, vms);
  }

  /**
   * A lookup loop that aborts leaves the failing VM and the later ones without a turn; without a
   * task exception, it has recorded each earlier VM once, in order.
   */
  lemma {:induction false} RunVmsAborted(env: Env, chg: string, k: nat, vms: seq<VmRecord>)
    requires RunVms(env, chg, k, vms).stop.Abort?
    ensures var l := RunVms(env, chg, k, vms);
      && 0 < |l.pending| <= |vms|
      && l.pending == vms[|vms| - |l.pending|..]
      && (l.taskError.None? ==> RecordedVms(l.events) == Map(NameOf, vms[..|vms| - |l.pending|]))
    decreases |vms|, 1
  {
    if Turn(env, chg, k, vms[0]).stop.Continue? {
      AbortedCons(env, chg, k, vms);
    } else {
      RunVmsStops(env, chg, k, vms);
      assert Map(NameOf, vms[..0]) == [];
    }
  }

  /** The step of `RunVmsAborted` past a turn that goes on. */
  lemma {:induction false} AbortedCons(env: Env, chg: string, k: nat, vms: seq<VmRecord>)
    requires |vms| > 0 && Turn(env, chg, k, vms[0]).stop.Continue?
    requires RunVms(env, chg, k, vms).stop.Abort?
    ensures var l := RunVms(env, chg, k, vms);
      && 0 < |l.pending| <= |vms|
      && l.pending == vms[|vms| - |l.pending|..]
      && (l.taskError.None? ==> RecordedVms(l.events) == Map(NameOf, vms[..|vms| - |l.pending|]))
    decreases |vms|, 0
  {
    var l, first, rest := RunVms(env, chg, k, vms), Turn(env, chg, k, vms[0]), RunVms(env, chg, k + 1, vms[1..]);
    RunVmsCons(env, chg, k, vms);
    RunVmsAborted(env, chg, k + 1, vms[1..]);
    TurnRecords(env, chg, k, vms[0]);
    AbortedStep(l, first, rest, vms);
  }

  /** The abort facts carry over from the rest of the loop to the whole, past a turn that went on. */
  lemma AbortedStep(l: Loop, first: Loop, rest: Loop, vms: seq<VmRecord>)
    requires |vms| > 0
    requires l.events == first.events + rest.events && l.pending == rest.pending
    requires l.taskError.None? <==> first.taskError.None? && rest.taskError.None?
    requires first.stop.Continue? && first.taskError.None? ==> RecordedVms(first.events) == [vms[0].vmName]
    requires first.stop.Continue?
    requires 0 < |rest.pending| <= |vms| - 1 && rest.pending == vms[1..][|vms| - 1 - |rest.pending|..]
    requires rest.taskError.None? ==> RecordedVms(rest.events) == Map(NameOf, vms[1..][..|vms| - 1 - |rest.pending|])
    ensures 0 < |l.pending| <= |vms| && l.pending == vms[|vms| - |l.pending|..]
    ensures l.taskError.None? ==> RecordedVms(l.events) == Map(NameOf, vms[..|vms| - |l.pending|])
  {
    var n := |vms| - |rest.pending|;
    assert vms[1..][n - 1..] == vms[n..];
    if l.taskError.None? {
      RecordedVmsAppend(first.events, rest.events);
      assert vms[..n] == [vms[0]] + vms[1..][..n - 1];
      MapAppend(NameOf, [vms[0]], vms[1..][..n - 1]);
    }
  }

  // ---------------------------------------------------------------- one group

  /**
   * The group's `except` as written fails every VM of the group; the corrected one fails only the
   * VMs left without a turn, and still gathers those already dispatched.
   */
  datatype Variant = AsWritten | Corrected

  /** One iteration of the group loop, its first VM being the run's k-th: switch subscription, then act on the reply. */
  function RunGroup(env: Env, chg: string, k: nat, g: Group, variant: Variant): Trace {
    var cmd := SetSubscription(g.subscription);
    var t := AfterSwitch(env, chg, k, g, variant, cmd, PostCommand(cmd, env.post(cmd)));
    Trace([Issued(cmd)] + t.events, t.crash)
  }

  /**
   * What the group loop does with the switch reply. An `AzureCommandError` fails every VM of the
   * group with its message, and the run goes on. After a clean switch the lookup loop runs;
   * `gather` then re-raises the first task exception. An abort of the lookup loop goes to the
   * group's `except`.
   */
  function AfterSwitch(env: Env, chg: string, k: nat, g: Group, variant: Variant, cmd: Command, reply: Reply): Trace {
    match reply
    case Unanswered => Trace([], Some(Unreachable(cmd)))
    case Refused(msg) => Trace(FailAll(g.vms, msg), None)
    case Answer(_, err, code) =>
      if code != 0 then Trace(FailAll(g.vms, SwitchError(g.subscription, err)), None)
      else
        var l := RunVms(env, chg, k, g.vms);
        match l.stop
        case Continue => Trace(l.events, l.taskError)
        case Raise(c) => Trace(l.events, Some(c))
        case Abort(msg) =>
          if variant == AsWritten then Trace(l.events + FailAll(g.vms, msg), None)
          else Trace(l.events + FailAll(l.pending, msg), l.taskError)
  }

  /**
   * A failed switch records every VM of the group as failed with the error's message, issues no
   * lookup or create for them, and does not stop the run.
   */
  lemma RunGroupSwitchFails(env: Env, chg: string, k: nat, g: Group, variant: Variant)
    requires var h := env.post(SetSubscription(g.subscription)); h.Responded? && (h.status != 200 || h.exitCode != 0)
    ensures var t, cmd := RunGroup(env, chg, k, g, variant), SetSubscription(g.subscription);
      var h := env.post(cmd);
      var msg := if h.status != 200 then CommandFailed(cmd, h.status)
                 else SwitchError(g.subscription, h.stderr);
      && t.crash.None?
      && Commands(t.events) == [cmd]
      && Map(OutcomeVm, Outcomes(t.events)) == Map(NameOf, g.vms)
      && forall o :: o in Outcomes(t.events) ==> o == Failed(o.vm, msg)
  {
    var cmd := SetSubscription(g.subscription);
    var reply := PostCommand(cmd, env.post(cmd));
    var msg := if reply.Refused? then reply.message else SwitchError(g.subscription, reply.stderr);
    var rest := FailAll(g.vms, msg);
    assert RunGroup(env, chg, k, g, variant) == Trace([Issued(cmd)] + rest, None);
    IssuedDisciplined(cmd, chg, "");
    FailAllViews(g.vms, msg, chg, "");
    ViewsAppend([Issued(cmd)], rest);
    assert Outcomes([Issued(cmd)] + rest) == Outcomes(rest);
  }

  /** Whatever happens in a group, the rid list discipline holds and the only switch is to the group's subscription. */
  lemma RunGroupKept(env: Env, chg: string, k: nat, g: Group, variant: Variant)
    ensures var t := RunGroup(env, chg, k, g, variant);
      RidsKept(t.events) && Switches(Commands(t.events)) == [g.subscription]
  {
    var cmd := SetSubscription(g.subscription);
    var reply := PostCommand(cmd, env.post(cmd));
    var s := AfterSwitch(env, chg, k, g, variant, cmd, reply);
    AfterSwitchKept(env, chg, k, g, variant, cmd, reply);
    IssuedDisciplined(cmd, chg, "");
    RidsKeptAppend([Issued(cmd)], s.events);
    CommandsAppend([Issued(cmd)], s.events);
    SwitchesAppend([cmd], Commands(s.events));
    assert [cmd][1..] == [];
  }

  lemma AfterSwitchKept(env: Env, chg: string, k: nat, g: Group, variant: Variant, cmd: Command, reply: Reply)
    ensures var t := AfterSwitch(env, chg, k, g, variant, cmd, reply);
      RidsKept(t.events) && Switches(Commands(t.events)) == []
  {
    var t := AfterSwitch(env, chg, k, g, variant, cmd, reply);
    if reply.Unanswered? {
      assert t.events == [];
      assert Outcomes([]) == [] && Rids([]) == [] && Commands([]) == [];
      assert Successes([]) == [];
    } else if reply.Refused? || reply.code != 0 {
      var msg := if reply.Refused? then reply.message else SwitchError(g.subscription, reply.stderr);
      assert t.events == FailAll(g.vms, msg);
      FailAllViews(g.vms, msg, chg, "");
    } else {
      var l := RunVms(env, chg, k, g.vms);
      RunVmsKept(env, chg, k, g.vms);
      if l.stop.Abort? {
        var failed := if variant == AsWritten then g.vms else l.pending;
        assert t.events == l.events + FailAll(failed, l.stop.message);
        KeptThenFailAll(l.events, failed, l.stop.message);
      } else {
        assert t.events == l.events;
      }
    }
  }

  lemma KeptThenFailAll(events: seq<Event>, vms: seq<VmRecord>, reason: string)
    requires RidsKept(events) && Switches(Commands(events)) == []
    ensures var e := events + FailAll(vms, reason);
      RidsKept(e) && Switches(Commands(e)) == []
  {
    FailAllViews(vms, reason, "", "");
    RidsKeptAppend(events, FailAll(vms, reason));
    CommandsAppend(events, FailAll(vms, reason));
    SwitchesAppend(Commands(events), Commands(FailAll(vms, reason)));
  }

  /** A sequence `r` drawn from `n`, followed by all of `n`: it holds `n` in order and fits in `n` twice. */
  lemma Straddle(r: seq<string>, n: seq<string>)
    requires IsSubseq(r, n)
    ensures IsSubseq(n, r + n) && IsSubseq(r + n, n + n)
  {
    SubseqEmpty(r);
    SubseqRefl(n);
    SubseqAppend([], r, n, n);
    assert [] + n == n;
    SubseqAppend(r, n, n, n);
  }

  /** A group whose trace is exactly its VMs' names also straddles them. */
  lemma StraddleExact(n: seq<string>)
    ensures IsSubseq(n, n) && IsSubseq(n, n + n)
  {
    SubseqEmpty(n);
    Straddle([], n);
    assert [] + n == n;
  }

  lemma AfterSwitchAtLeastOnce(env: Env, chg: string, k: nat, g: Group, cmd: Command, reply: Reply)
    ensures var t, n := AfterSwitch(env, chg, k, g, AsWritten, cmd, reply), Map(NameOf, g.vms);
      t.crash.None? ==> IsSubseq(n, RecordedVms(t.events)) && IsSubseq(RecordedVms(t.events), n + n)
  {
    var t, n := AfterSwitch(env, chg, k, g, AsWritten, cmd, reply), Map(NameOf, g.vms);
    if reply.Refused? || (reply.Answer? && reply.code != 0) {
      var msg := if reply.Refused? then reply.message else SwitchError(g.subscription, reply.stderr);
      assert t.events == FailAll(g.vms, msg);
      FailAllViews(g.vms, msg, chg, "");
      StraddleExact(n);
    } else if reply.Answer? {
      var l := RunVms(env, chg, k, g.vms);
      RunVmsRecorded(env, chg, k, g.vms);
      if l.stop.Abort? {
        assert t.events == l.events + FailAll(g.vms, l.stop.message);
        RecordedVmsAppend(l.events, FailAll(g.vms, l.stop.message));
        FailAllViews(g.vms, l.stop.message, chg, "");
        Straddle(RecordedVms(l.events), n);
      } else if l.stop.Continue? {
        StraddleExact(n);
      }
    }
  }

  lemma AfterSwitchRecordsEach(env: Env, chg: string, k: nat, g: Group, cmd: Command, reply: Reply)
    ensures var t := AfterSwitch(env, chg, k, g, Corrected, cmd, reply);
      t.crash.None? ==> RecordedVms(t.events) == Map(NameOf, g.vms)
  {
    var t := AfterSwitch(env, chg, k, g, Corrected, cmd, reply);
    if reply.Refused? || (reply.Answer? && reply.code != 0) {
      var msg := if reply.Refused? then reply.message else SwitchError(g.subscription, reply.stderr);
      assert t.events == FailAll(g.vms, msg);
      FailAllViews(g.vms, msg, chg, "");
    } else if reply.Answer? {
      var l := RunVms(env, chg, k, g.vms);
      RunVmsRecorded(env, chg, k, g.vms);
      if l.stop.Abort? && l.taskError.None? {
        assert t.events == l.events + FailAll(l.pending, l.stop.message);
        AbortedLoopRecordsEach(env, chg, k, g.vms);
      }
    }
  }

  /** The corrected `except` after an aborted loop: the loop's records and the failures of the VMs left make up every VM once. */
  lemma AbortedLoopRecordsEach(env: Env, chg: string, k: nat, vms: seq<VmRecord>)
    requires RunVms(env, chg, k, vms).stop.Abort? && RunVms(env, chg, k, vms).taskError.None?
    ensures var l := RunVms(env, chg, k, vms);
      RecordedVms(l.events + FailAll(l.pending, l.stop.message)) == Map(NameOf, vms)
  {
    var l := RunVms(env, chg, k, vms);
    RunVmsAborted(env, chg, k, vms);
    var m := |vms| - |l.pending|;
    RecordedVmsAppend(l.events, FailAll(l.pending, l.stop.message));
    FailAllViews(l.pending, l.stop.message, chg, "");
    MapAppend(NameOf, vms[..m], vms[m..]);
    assert vms[..m] + vms[m..] == vms;
  }

  /** The switch command records nothing. */
  lemma SwitchRecordsNothing(cmd: Command, rest: seq<Event>)
    ensures RecordedVms([Issued(cmd)] + rest) == RecordedVms(rest)
  {
    ViewsOfOne(Issued(cmd));
    RecordedVmsAppend([Issued(cmd)], rest);
  }

  /**
   * The group's `except` as written: a group that does not end the run records each of its VMs at
   * least once, in order, and at most twice — twice for the VMs whose tasks ran before the abort.
   */
  lemma RunGroupAtLeastOnce(env: Env, chg: string, k: nat, g: Group)
    ensures var t, n := RunGroup(env, chg, k, g, AsWritten), Map(NameOf, g.vms);
      t.crash.None? ==> IsSubseq(n, RecordedVms(t.events)) && IsSubseq(RecordedVms(t.events), n + n)
  {
    var cmd := SetSubscription(g.subscription);
    var reply := PostCommand(cmd, env.post(cmd));
    AfterSwitchAtLeastOnce(env, chg, k, g, cmd, reply);
    SwitchRecordsNothing(cmd, AfterSwitch(env, chg, k, g, AsWritten, cmd, reply).events);
  }

  /** The corrected `except`: a group that does not end the run records each of its VMs exactly once, in order. */
  lemma RunGroupRecordsEach(env: Env, chg: string, k: nat, g: Group)
    ensures var t := RunGroup(env, chg, k, g, Corrected);
      t.crash.None? ==> RecordedVms(t.events) == Map(NameOf, g.vms)
  {
    var cmd := SetSubscription(g.subscription);
    var reply := PostCommand(cmd, env.post(cmd));
    AfterSwitchRecordsEach(env, chg, k, g, cmd, reply);
    SwitchRecordsNothing(cmd, AfterSwitch(env, chg, k, g, Corrected, cmd, reply).events);
  }

  // ---------------------------------------------------------------- per-task timestamps

  /** A turn that goes on asks for one snapshot, named with the clock reading its task takes. */
  lemma TurnCreates(env: Env, chg: string, k: nat, v: VmRecord)
    ensures var l := Turn(env, chg, k, v);
      l.stop.Continue? ==> Created(Commands(l.events)) == [SnapshotName(chg, v.vmName, Format(env.clock(k)))]
  {
    var cmd := ShowVm(v.resourceId);
    var reply := PostCommand(cmd, env.post(cmd));
    var l := AfterLookup(env, chg, k, v, cmd, reply);
    if l.stop.Continue? {
      var d := env.vmDoc(reply.stdout).value;
      var rg, disk := d.resourceGroup.value, d.diskId.value;
      ProcessVmIssues(env, chg, k, v.vmName, rg, disk);
      CreatedAfterLookup(cmd, l.events, CreateSnapshot(SnapshotName(chg, v.vmName, Format(env.clock(k))), rg, disk));
    }
  }

  /** A task issues exactly its create command. */
  lemma ProcessVmIssues(env: Env, chg: string, k: nat, vm: string, rg: string, disk: string)
    ensures Commands(ProcessVm(env, chg, k, vm, rg, disk).events)
            == [CreateSnapshot(SnapshotName(chg, vm, Format(env.clock(k))), rg, disk)]
  {
    ProcessVmOutcome(env, chg, k, vm, rg, disk);
  }

  /** A lookup followed by a log that issues one create command asks for that one snapshot. */
  lemma CreatedAfterLookup(cmd: Command, events: seq<Event>, create: Command)
    requires !cmd.CreateSnapshot? && create.CreateSnapshot? && Commands(events) == [create]
    ensures Created(Commands([Issued(cmd)] + events)) == [create.name]
  {
    ViewsOfOne(Issued(cmd));
    ViewsAppend([Issued(cmd)], events);
    CreatedAppend([cmd], [create]);
    assert [cmd] + [create] == [cmd, create];
    assert [cmd][1..] == [] && [create][1..] == [];
  }

  /**
   * The snapshot names the loop would ask for if every turn went on: the i-th VM's snapshot is
   * stamped with the (k + i)-th clock reading, one reading per task.
   */
  function Stamped(env: Env, chg: string, k: nat, vms: seq<VmRecord>): (names: seq<string>)
    ensures |names| == |vms|
    ensures forall i :: 0 <= i < |vms| ==> names[i] == SnapshotName(chg, vms[i].vmName, Format(env.clock(k + i)))
    decreases |vms|
  {
    if |vms| == 0 then []
    else [SnapshotName(chg, vms[0].vmName, Format(env.clock(k)))] + Stamped(env, chg, k + 1, vms[1..])
  }

  /** A lookup loop that runs to the end asks for one snapshot per VM, each stamped with its own reading. */
  lemma {:induction false} RunVmsStamps(env: Env, chg: string, k: nat, vms: seq<VmRecord>)
    ensures var l := RunVms(env, chg, k, vms);
      l.stop.Continue? ==> Created(Commands(l.events)) == Stamped(env, chg, k, vms)
    decreases |vms|, 1
  {
    if |vms| == 0 {
      assert Commands([]) == [];
    } else if Turn(env, chg, k, vms[0]).stop.Continue? {
      StampsCons(env, chg, k, vms);
    } else {
      RunVmsStops(env, chg, k, vms);
    }
  }

  lemma {:induction false} StampsCons(env: Env, chg: string, k: nat, vms: seq<VmRecord>)
    requires |vms| > 0 && Turn(env, chg, k, vms[0]).stop.Continue?
    ensures var l := RunVms(env, chg, k, vms);
      l.stop.Continue? ==> Created(Commands(l.events)) == Stamped(env, chg, k, vms)
    decreases |vms|, 0
  {
    RunVmsCons(env, chg, k, vms);
    RunVmsStamps(env, chg, k + 1, vms[1..]);
    TurnCreates(env, chg, k, vms[0]);
    var first, rest := Turn(env, chg, k, vms[0]).events, RunVms(env, chg, k + 1, vms[1..]).events;
    CommandsAppend(first, rest);
    CreatedAppend(Commands(first), Commands(rest));
  }

  // ---------------------------------------------------------------- the group loop and the run

  /** The group loop, in first-seen subscription order, stopping at the first exception; `k` counts the VMs of earlier groups. */
  function RunGroups(env: Env, chg: string, k: nat, gs: seq<Group>, variant: Variant): Trace
    decreases |gs|
  {
    if |gs| == 0 then Trace([], None)
    else
      var first := RunGroup(env, chg, k, gs[0], variant);
      if first.crash.Some? then first
      else
        var rest := RunGroups(env, chg, k + |gs[0].vms|, gs[1..], variant);
        Trace(first.events + rest.events, rest.crash)
  }

  /** Each group's names twice over, group after group: the most the `except` as written can record. */
  function Twice(gs: seq<Group>): (names: seq<string>)
    ensures multiset(names) == multiset(Map(NameOf, Flatten(gs))) + multiset(Map(NameOf, Flatten(gs)))
    decreases |gs|
  {
    if |gs| == 0 then []
    else
      var n := Map(NameOf, gs[0].vms);
      MapAppend(NameOf, gs[0].vms, Flatten(gs[1..]));
      n + n + Twice(gs[1..])
  }

  /** A group that does not end the run is followed by the loop over the remaining groups. */
  lemma GroupsCons(env: Env, chg: string, k: nat, gs: seq<Group>, variant: Variant)
    requires |gs| > 0 && RunGroup(env, chg, k, gs[0], variant).crash.None?
    ensures var first, rest := RunGroup(env, chg, k, gs[0], variant), RunGroups(env, chg, k + |gs[0].vms|, gs[1..], variant);
      RunGroups(env, chg, k, gs, variant) == Trace(first.events + rest.events, rest.crash)
  {
  }

  /** The run's log keeps the rid list discipline. */
  lemma {:induction false} RunGroupsKept(env: Env, chg: string, k: nat, gs: seq<Group>, variant: Variant)
    ensures RidsKept(RunGroups(env, chg, k, gs, variant).events)
    decreases |gs|
  {
    if |gs| == 0 {
      assert Outcomes([]) == [] && Rids([]) == [];
      assert Successes([]) == [];
    } else if RunGroup(env, chg, k, gs[0], variant).crash.None? {
      RunGroupsKept(env, chg, k + |gs[0].vms|, gs[1..], variant);
      KeptCons(env, chg, k, gs, variant);
    } else {
      RunGroupKept(env, chg, k, gs[0], variant);
    }
  }

  lemma KeptCons(env: Env, chg: string, k: nat, gs: seq<Group>, variant: Variant)
    requires |gs| > 0 && RunGroup(env, chg, k, gs[0], variant).crash.None?
    requires RidsKept(RunGroups(env, chg, k + |gs[0].vms|, gs[1..], variant).events)
    ensures RidsKept(RunGroups(env, chg, k, gs, variant).events)
  {
    GroupsCons(env, chg, k, gs, variant);
    RunGroupKept(env, chg, k, gs[0], variant);
    RidsKeptAppend(RunGroup(env, chg, k, gs[0], variant).events, RunGroups(env, chg, k + |gs[0].vms|, gs[1..], variant).events);
  }

  /** A run that ends normally switches once per group, in order. */
  lemma {:induction false} RunGroupsSwitches(env: Env, chg: string, k: nat, gs: seq<Group>, variant: Variant)
    ensures var t := RunGroups(env, chg, k, gs, variant);
      t.crash.None? ==> Switches(Commands(t.events)) == Map(KeyOf, gs)
    decreases |gs|
  {
    if |gs| == 0 {
      assert Commands([]) == [];
    } else if RunGroup(env, chg, k, gs[0], variant).crash.None? {
      RunGroupsSwitches(env, chg, k + |gs[0].vms|, gs[1..], variant);
      SwitchesCons(env, chg, k, gs, variant);
    }
  }

  lemma SwitchesCons(env: Env, chg: string, k: nat, gs: seq<Group>, variant: Variant)
    requires |gs| > 0 && RunGroup(env, chg, k, gs[0], variant).crash.None?
    requires var rest := RunGroups(env, chg, k + |gs[0].vms|, gs[1..], variant);
      rest.crash.None? ==> Switches(Commands(rest.events)) == Map(KeyOf, gs[1..])
    ensures var t := RunGroups(env, chg, k, gs, variant);
      t.crash.None? ==> Switches(Commands(t.events)) == Map(KeyOf, gs)
  {
    GroupsCons(env, chg, k, gs, variant);
    RunGroupKept(env, chg, k, gs[0], variant);
    SwitchesJoin(RunGroup(env, chg, k, gs[0], variant).events, RunGroups(env, chg, k + |gs[0].vms|, gs[1..], variant).events, gs);
  }

  /** One group's switches come before those of the rest of the run. */
  lemma SwitchesJoin(first: seq<Event>, rest: seq<Event>, gs: seq<Group>)
    requires |gs| > 0 && Switches(Commands(first)) == [gs[0].subscription]
    ensures Switches(Commands(rest)) == Map(KeyOf, gs[1..]) ==> Switches(Commands(first + rest)) == Map(KeyOf, gs)
  {
    CommandsAppend(first, rest);
    SwitchesAppend(Commands(first), Commands(rest));
    assert Map(KeyOf, gs) == [KeyOf(gs[0])] + Map(KeyOf, gs[1..]);
  }

  /** As written: a run that ends normally records every VM at least once, in group order, and at most twice. */
  lemma {:induction false} RunGroupsAtLeastOnce(env: Env, chg: string, k: nat, gs: seq<Group>)
    ensures var t, n := RunGroups(env, chg, k, gs, AsWritten), Map(NameOf, Flatten(gs));
      t.crash.None? ==> IsSubseq(n, RecordedVms(t.events)) && IsSubseq(RecordedVms(t.events), Twice(gs))
    decreases |gs|
  {
    if |gs| == 0 {
      assert Outcomes([]) == [];
      SubseqEmpty(Twice(gs));
    } else if RunGroup(env, chg, k, gs[0], AsWritten).crash.None? {
      RunGroupsAtLeastOnce(env, chg, k + |gs[0].vms|, gs[1..]);
      AtLeastOnceCons(env, chg, k, gs);
    }
  }

  lemma AtLeastOnceCons(env: Env, chg: string, k: nat, gs: seq<Group>)
    requires |gs| > 0 && RunGroup(env, chg, k, gs[0], AsWritten).crash.None?
    requires var t, n := RunGroups(env, chg, k + |gs[0].vms|, gs[1..], AsWritten), Map(NameOf, Flatten(gs[1..]));
      t.crash.None? ==> IsSubseq(n, RecordedVms(t.events)) && IsSubseq(RecordedVms(t.events), Twice(gs[1..]))
    ensures var t, n := RunGroups(env, chg, k, gs, AsWritten), Map(NameOf, Flatten(gs));
      t.crash.None? ==> IsSubseq(n, RecordedVms(t.events)) && IsSubseq(RecordedVms(t.events), Twice(gs))
  {
    GroupsCons(env, chg, k, gs, AsWritten);
    RunGroupAtLeastOnce(env, chg, k, gs[0]);
    var first, rest := RunGroup(env, chg, k, gs[0], AsWritten), RunGroups(env, chg, k + |gs[0].vms|, gs[1..], AsWritten);
    if rest.crash.None? {
      var n1, n2 := Map(NameOf, gs[0].vms), Map(NameOf, Flatten(gs[1..]));
      var r1, r2 := RecordedVms(first.events), RecordedVms(rest.events);
      RecordedVmsAppend(first.events, rest.events);
      MapAppend(NameOf, gs[0].vms, Flatten(gs[1..]));
      SubseqAppend(n1, r1, n2, r2);
      SubseqAppend(r1, n1 + n1, r2, Twice(gs[1..]));
    }
  }

  /** Corrected: a run that ends normally records every VM exactly once, in group order. */
  lemma {:induction false} RunGroupsRecordsEach(env: Env, chg: string, k: nat, gs: seq<Group>)
    ensures var t := RunGroups(env, chg, k, gs, Corrected);
      t.crash.None? ==> RecordedVms(t.events) == Map(NameOf, Flatten(gs))
    decreases |gs|
  {
    if |gs| == 0 {
      assert Outcomes([]) == [];
    } else if RunGroup(env, chg, k, gs[0], Corrected).crash.None? {
      RunGroupsRecordsEach(env, chg, k + |gs[0].vms|, gs[1..]);
      RecordsEachCons(env, chg, k, gs);
    }
  }

  lemma RecordsEachCons(env: Env, chg: string, k: nat, gs: seq<Group>)
    requires |gs| > 0 && RunGroup(env, chg, k, gs[0], Corrected).crash.None?
    requires var t := RunGroups(env, chg, k + |gs[0].vms|, gs[1..], Corrected);
      t.crash.None? ==> RecordedVms(t.events) == Map(NameOf, Flatten(gs[1..]))
    ensures var t := RunGroups(env, chg, k, gs, Corrected);
      t.crash.None? ==> RecordedVms(t.events) == Map(NameOf, Flatten(gs))
  {
    GroupsCons(env, chg, k, gs, Corrected);
    RunGroupRecordsEach(env, chg, k, gs[0]);
    var first, rest := RunGroup(env, chg, k, gs[0], Corrected).events, RunGroups(env, chg, k + |gs[0].vms|, gs[1..], Corrected).events;
    RecordedVmsAppend(first, rest);
    MapAppend(NameOf, gs[0].vms, Flatten(gs[1..]));
  }

  /**
   * `async_main`: nothing happens for an empty list; a line that does not parse raises before any
   * command is issued; otherwise the groups are processed, the first task reading the clock first.
   */
  function Run(env: Env, chg: string, lines: seq<string>, variant: Variant): RunResult {
    if |lines| == 0 then NoVms
    else
      match GroupVms(lines)
      case Err(e) => Ran(Trace([], Some(MalformedLine(e))))
      case Ok(groups) => Ran(RunGroups(env, chg, 0, groups, variant))
  }

  /** Whatever happens, the rid list holds one rid per success entry; a normal end switches once per subscription. */
  lemma RunKept(env: Env, chg: string, lines: seq<string>, variant: Variant)
    requires Run(env, chg, lines, variant).Ran?
    ensures var t := Run(env, chg, lines, variant).trace;
      && RidsKept(t.events)
      && (t.crash.None? ==> Switches(Commands(t.events)) == Subscriptions(ParseLines(lines).value))
  {
    match GroupVms(lines)
    case Err(_) =>
      assert Outcomes([]) == [] && Rids([]) == [] && Commands([]) == [];
      assert Successes([]) == [];
    case Ok(g) =>
      RunGroupsKept(env, chg, 0, g, variant);
      RunGroupsSwitches(env, chg, 0, g, variant);
      GroupVmsSpec(lines);
  }

  /**
   * As written, a run that ends normally records every input VM at least once and at most twice, so
   * the two lists together hold between one and two entries per input line.
   */
  lemma RunAtLeastOnce(env: Env, chg: string, lines: seq<string>)
    requires Run(env, chg, lines, AsWritten).Ran? && Run(env, chg, lines, AsWritten).trace.crash.None?
    ensures var t, ps := Run(env, chg, lines, AsWritten).trace, ParseLines(lines).value;
      var names := multiset(Map(NameOf, Map(VmOf, ps)));
      && names <= multiset(RecordedVms(t.events)) <= names + names
      && |lines| <= |Successes(t.events)| + |Failures(t.events)| <= 2 * |lines|
  {
    var t, g, ps := Run(env, chg, lines, AsWritten).trace, GroupVms(lines).value, ParseLines(lines).value;
    var n := Map(NameOf, Flatten(g));
    RunGroupsAtLeastOnce(env, chg, 0, g);
    SubseqMultiset(n, RecordedVms(t.events));
    SubseqMultiset(RecordedVms(t.events), Twice(g));
    GroupVmsSpec(lines);
    MapPreservesMultiset(NameOf, Flatten(g), Map(VmOf, ps));
    SuccessesAndFailures(t.events);
    assert |Twice(g)| == |multiset(Twice(g))| == 2 * |n|;
  }

  /** Corrected, a run that ends normally records each input VM exactly once. */
  lemma RunRecordsEachVmOnce(env: Env, chg: string, lines: seq<string>)
    requires Run(env, chg, lines, Corrected).Ran? && Run(env, chg, lines, Corrected).trace.crash.None?
    ensures var t, ps := Run(env, chg, lines, Corrected).trace, ParseLines(lines).value;
      && RecordedVms(t.events) == Map(NameOf, Flatten(GroupVms(lines).value))
      && multiset(RecordedVms(t.events)) == multiset(Map(NameOf, Map(VmOf, ps)))
      && |Successes(t.events)| + |Failures(t.events)| == |lines|
  {
    var t, g, ps := Run(env, chg, lines, Corrected).trace, GroupVms(lines).value, ParseLines(lines).value;
    RunGroupsRecordsEach(env, chg, 0, g);
    GroupVmsSpec(lines);
    MapPreservesMultiset(NameOf, Flatten(g), Map(VmOf, ps));
    SuccessesAndFailures(t.events);
  }

  // ---------------------------------------------------------------- the group abort, on an example

  const ExampleSubscription := "s"
  const ExampleVms := [VmRecord("/a", "a"), VmRecord("/b", "b"), VmRecord("/c", "c")]

  /** Every command succeeds and every reply decodes, except that looking up the second VM fails. */
  function ExampleEnv(): Env {
    Env(c => if c == ShowVm(ExampleVms[1].resourceId) then Responded(200, "", "e", 1)
             else Responded(200, "{}", "", 0),
        j => DateTime(2024, 8, 11, 0, 0, 0),
        text => Some(VmDoc(Some("rg"), Some("disk"))),
        text => Some(SnapshotDoc(Some("snapshot-id"))))
  }

  /** What the example's outside world answers: the second VM's lookup exits non-zero, nothing else fails. */
  lemma ExampleReplies()
    ensures var env, vms := ExampleEnv(), ExampleVms;
      && env.post(ShowVm(vms[1].resourceId)) == Responded(200, "", "e", 1)
      && env.post(ShowVm(vms[0].resourceId)) == Responded(200, "{}", "", 0)
      && env.post(SetSubscription(ExampleSubscription)) == Responded(200, "{}", "", 0)
      && (forall name, rg, disk :: env.post(CreateSnapshot(name, rg, disk)) == Responded(200, "{}", "", 0))
      && env.vmDoc("{}") == Some(VmDoc(Some("rg"), Some("disk")))
      && env.snapshotDoc("{}") == Some(SnapshotDoc(Some("snapshot-id")))
  {
    var a, b := ExampleVms[0].resourceId, ExampleVms[1].resourceId;
    assert a != b by {
      assert a[|a| - 1] != b[|b| - 1];
    }
  }

  /** The example's first turn: the first VM's task runs and records a success. */
  lemma ExampleFirstTurn()
    ensures var t, a := Turn(ExampleEnv(), "CHG1", 0, ExampleVms[0]), ExampleVms[0];
      && t.stop.Continue? && t.taskError.None?
      && RecordedVms(t.events) == [a.vmName]
      && Commands(t.events) == [ShowVm(a.resourceId), CreateSnapshot(SnapshotName("CHG1", a.vmName, Format(ExampleEnv().clock(0))), "rg", "disk")]
  {
    ExampleReplies();
    ExampleFirstTask();
    TurnRunsTask(ExampleEnv(), "CHG1", 0, ExampleVms[0], "{}", "rg", "disk");
  }

  /** The example's first task completes without an exception. */
  lemma ExampleFirstTask()
    ensures var t := ProcessVm(ExampleEnv(), "CHG1", 0, "a", "rg", "disk");
      && t.error.None?
      && Commands(t.events) == [CreateSnapshot(SnapshotName("CHG1", "a", Format(ExampleEnv().clock(0))), "rg", "disk")]
  {
    ExampleReplies();
    ProcessVmIssues(ExampleEnv(), "CHG1", 0, "a", "rg", "disk");
  }

  /**
   * A lookup that answers cleanly with the VM's resource group and disk runs the VM's task; when
   * that task raises nothing, the turn goes on, records its VM once, and issues the lookup and the create.
   */
  lemma TurnRunsTask(env: Env, chg: string, k: nat, v: VmRecord, out: string, rg: string, disk: string)
    requires env.post(ShowVm(v.resourceId)) == Responded(200, out, "", 0)
    requires env.vmDoc(out) == Some(VmDoc(Some(rg), Some(disk)))
    requires ProcessVm(env, chg, k, v.vmName, rg, disk).error.None?
    ensures var t := Turn(env, chg, k, v);
      && t.stop.Continue? && t.taskError.None?
      && RecordedVms(t.events) == [v.vmName]
      && Commands(t.events) == [ShowVm(v.resourceId)] + Commands(ProcessVm(env, chg, k, v.vmName, rg, disk).events)
  {
    var show := ShowVm(v.resourceId);
    TurnRecords(env, chg, k, v);
    ViewsOfOne(Issued(show));
    ViewsAppend([Issued(show)], ProcessVm(env, chg, k, v.vmName, rg, disk).events);
  }

  /** The example's second turn: the lookup exits non-zero and the loop aborts before the third VM. */
  lemma ExampleSecondTurn()
    ensures var b := ExampleVms[1];
      Turn(ExampleEnv(), "CHG1", 1, b) == Loop([Issued(ShowVm(b.resourceId))], Abort(LookupError("b", "e")), None, [b])
  {
    ExampleReplies();
  }

  /** A failed group after a loop log: the log's names, then every VM of the group; no further command. */
  lemma FailedGroupJoin(cmd: Command, events: seq<Event>, vms: seq<VmRecord>, msg: string)
    ensures var all := [Issued(cmd)] + (events + FailAll(vms, msg));
      && RecordedVms(all) == RecordedVms(events) + Map(NameOf, vms)
      && Commands(all) == [cmd] + Commands(events)
  {
    FailAllViews(vms, msg, "", "");
    RecordedVmsAppend(events, FailAll(vms, msg));
    SwitchRecordsNothing(cmd, events + FailAll(vms, msg));
    ViewsOfOne(Issued(cmd));
    CommandsAppend([Issued(cmd)], events + FailAll(vms, msg));
    CommandsAppend(events, FailAll(vms, msg));
  }

  /**
   * The group's `except` as written, on the input that shows its flaw: the switch succeeds, the
   * first VM's task completes, and the second VM's lookup fails. The first VM is then recorded
   * twice (its task's outcome, then a failure), every VM is recorded as failed, and nothing after
   * the failing lookup is issued, so the VMs behind it are never looked up.
   */
  lemma GroupAbortAfterFirstTask(env: Env, chg: string, k: nat, g: Group)
    requires |g.vms| >= 2
    requires var h := env.post(SetSubscription(g.subscription)); h.Responded? && h.status == 200 && h.exitCode == 0
    requires var first := Turn(env, chg, k, g.vms[0]); first.stop.Continue? && first.taskError.None?
    requires Turn(env, chg, k + 1, g.vms[1]).stop.Abort?
    ensures var t := RunGroup(env, chg, k, g, AsWritten);
      && t.crash.None?
      && RecordedVms(t.events) == [g.vms[0].vmName] + Map(NameOf, g.vms)
      && Commands(t.events)
         == [SetSubscription(g.subscription)] + Commands(Turn(env, chg, k, g.vms[0]).events) + [ShowVm(g.vms[1].resourceId)]
  {
    var vms, cmd := g.vms, SetSubscription(g.subscription);
    var l := RunVms(env, chg, k, vms);
    LoopAbortsAtSecond(env, chg, k, vms);
    assert RunGroup(env, chg, k, g, AsWritten) == Trace([Issued(cmd)] + (l.events + FailAll(vms, l.stop.message)), None);
    FailedGroupJoin(cmd, l.events, vms, l.stop.message);
  }

  /** A loop whose first turn completes and whose second lookup fails aborts after the first VM's record and the second lookup. */
  lemma LoopAbortsAtSecond(env: Env, chg: string, k: nat, vms: seq<VmRecord>)
    requires |vms| >= 2
    requires var first := Turn(env, chg, k, vms[0]); first.stop.Continue? && first.taskError.None?
    requires Turn(env, chg, k + 1, vms[1]).stop.Abort?
    ensures var l, first := RunVms(env, chg, k, vms), Turn(env, chg, k, vms[0]);
      && l.stop.Abort?
      && RecordedVms(l.events) == [vms[0].vmName]
      && Commands(l.events) == Commands(first.events) + [ShowVm(vms[1].resourceId)]
  {
    var first := Turn(env, chg, k, vms[0]);
    var lookup := Issued(ShowVm(vms[1].resourceId));
    RunVmsCons(env, chg, k, vms);
    RunVmsStops(env, chg, k + 1, vms[1..]);
    TurnRecords(env, chg, k, vms[0]);
    TurnOutcome(env, chg, k + 1, vms[1]);
    assert RunVms(env, chg, k, vms).events == first.events + [lookup];
    ViewsOfOne(lookup);
    RecordedVmsAppend(first.events, [lookup]);
    CommandsAppend(first.events, [lookup]);
  }

  /** The example meets the conditions above: its first VM's task completes and its second lookup fails. */
  lemma ExampleShowsDoubleRecording()
    ensures var env, g := ExampleEnv(), Group(ExampleSubscription, ExampleVms);
      && |g.vms| >= 2
      && (var h := env.post(SetSubscription(g.subscription)); h.Responded? && h.status == 200 && h.exitCode == 0)
      && (var first := Turn(env, "CHG1", 0, g.vms[0]); first.stop.Continue? && first.taskError.None?)
      && Turn(env, "CHG1", 1, g.vms[1]).stop.Abort?
  {
    ExampleReplies();
    ExampleFirstTurn();
    ExampleSecondTurn();
  }
}
