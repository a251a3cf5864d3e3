/**
 * The snapshot creator of create_snapy.py: group the VM list by subscription; for each group switch
 * subscription, look every VM up and dispatch a task that creates its snapshot, then wait for the
 * group's tasks. Each task runs to completion as soon as it is dispatched, one of the schedules the
 * event loop allows; a task's exception is held until the group's `gather`, which re-raises it.
 */
module Orchestrator {
  import opened Wrappers
  import opened Seqs
  import opened Text
  import opened Timestamp
  import opened Common
  import opened Grouping
  import opened Ledger

  /**
   * What the run sees of the outside world: the process each `az` command becomes, and what
   * `json.loads` makes of a lookup reply and of a create reply (`None` when it raises, or when the
   * value is not an object).
   */
  datatype Env = Env(
    run: Command -> ProcessResult,
    vmDoc: string -> Option<VmDoc>,
    snapshotDoc: string -> Option<SnapshotDoc>)

  const CreateFailed := "Failed to create snapshot"
  const NoSnapshotId := "Failed to extract snapshot ID"
  const SwitchFailed := "Failed to set subscription"
  const LookupFailed := "Failed to get VM details"

  /** A task's log, and the exception it ended with. */
  datatype Task = Task(events: seq<Event>, error: Option<Crash>)

  /** The inner loop so far: its log, the exception that stopped it, and the first task exception held for `gather`. */
  datatype Loop = Loop(events: seq<Event>, crash: Option<Crash>, taskError: Option<Crash>)

  // ---------------------------------------------------------------- process_vm

  /** `process_vm`: issue the create command, then act on its result. */
  function ProcessVm(env: Env, chg: string, ts: string, vm: string, rg: string, disk: string): Task {
    var cmd := CreateSnapshot(SnapshotName(chg, vm, ts), rg, disk);
    var t := AfterCreate(env, chg, ts, vm, RunAzCommand(env.run(cmd)));
    Task([Issued(cmd)] + t.events, t.error)
  }

  /** What `process_vm` does with the create command's result: append the rid and record success, or record why not. */
  function AfterCreate(env: Env, chg: string, ts: string, vm: string, r: AzResult): Task
    requires WellFormed(r)
  {
    if r.code != 0 then Task([Recorded(Failed(vm, CreateFailed))], None)
    else
      match env.snapshotDoc(r.stdout.value)
      case None => Task([], Some(UnreadableSnapshotReply(vm)))
      case Some(doc) =>
        if HasId(doc) then Task([RidAppended(doc.id.value), Recorded(Succeeded(vm, SnapshotName(chg, vm, ts)))], None)
        else Task([Recorded(Failed(vm, NoSnapshotId))], None)
  }

  /**
   * A task's outcome follows the create command's result: a failing (or unrunnable) command is
   * "Failed to create snapshot"; a clean exit whose reply has an id appends that id to the rid list
   * and records the snapshot name; a reply without an id is "Failed to extract snapshot ID"; a reply
   * that does not decode raises and records nothing.
   */
  lemma ProcessVmOutcome(env: Env, chg: string, ts: string, vm: string, rg: string, disk: string)
    ensures var t, name := ProcessVm(env, chg, ts, vm, rg, disk), SnapshotName(chg, vm, ts);
      var p := env.run(CreateSnapshot(name, rg, disk));
      && Commands(t.events) == [CreateSnapshot(name, rg, disk)]
      && if !(p.Exited? && p.code == 0) then
        t.error.None? && Outcomes(t.events) == [Failed(vm, CreateFailed)] && Rids(t.events) == []
      else
        match env.snapshotDoc(Strip(p.stdout))
        case None => t.error == Some(UnreadableSnapshotReply(vm)) && Outcomes(t.events) == [] && Rids(t.events) == []
        case Some(doc) =>
          && t.error.None?
          && if HasId(doc) then Outcomes(t.events) == [Succeeded(vm, name)] && Rids(t.events) == [doc.id.value]
             else Outcomes(t.events) == [Failed(vm, NoSnapshotId)] && Rids(t.events) == []
  {
    var cmd := CreateSnapshot(SnapshotName(chg, vm, ts), rg, disk);
    var r := RunAzCommand(env.run(cmd));
    var t := AfterCreate(env, chg, ts, vm, r);
    AfterCreateViews(env, chg, ts, vm, r);
    ViewsOfOne(Issued(cmd));
    ViewsAppend([Issued(cmd)], t.events);
  }

  lemma AfterCreateViews(env: Env, chg: string, ts: string, vm: string, r: AzResult)
    requires WellFormed(r)
    ensures var t := AfterCreate(env, chg, ts, vm, r);
      && Commands(t.events) == []
      && if r.code != 0 then t.error.None? && Outcomes(t.events) == [Failed(vm, CreateFailed)] && Rids(t.events) == []
      else
        match env.snapshotDoc(r.stdout.value)
        case None => t.error == Some(UnreadableSnapshotReply(vm)) && Outcomes(t.events) == [] && Rids(t.events) == []
        case Some(doc) =>
          && t.error.None?
          && if HasId(doc) then Outcomes(t.events) == [Succeeded(vm, SnapshotName(chg, vm, ts))] && Rids(t.events) == [doc.id.value]
             else Outcomes(t.events) == [Failed(vm, NoSnapshotId)] && Rids(t.events) == []
  {
    if r.code != 0 {
      ViewsOfOne(Recorded(Failed(vm, CreateFailed)));
    } else {
      match env.snapshotDoc(r.stdout.value)
      case None =>
        assert Outcomes([]) == [] && Rids([]) == [] && Commands([]) == [];
      case Some(doc) =>
        if HasId(doc) {
          var o := Succeeded(vm, SnapshotName(chg, vm, ts));
          ViewsOfOne(RidAppended(doc.id.value));
          ViewsOfOne(Recorded(o));
          assert [RidAppended(doc.id.value), Recorded(o)] == [RidAppended(doc.id.value)] + [Recorded(o)];
          ViewsAppend([RidAppended(doc.id.value)], [Recorded(o)]);
        } else {
          ViewsOfOne(Recorded(Failed(vm, NoSnapshotId)));
        }
    }
  }

  /** A task that raises records nothing; one that does not records one outcome, for its own VM. */
  lemma ProcessVmRecordsOnce(env: Env, chg: string, ts: string, vm: string, rg: string, disk: string)
    ensures var t := ProcessVm(env, chg, ts, vm, rg, disk);
      && (t.error.Some? ==> Outcomes(t.events) == [])
      && (t.error.None? ==> Map(OutcomeVm, Outcomes(t.events)) == [vm])
  {
    ProcessVmOutcome(env, chg, ts, vm, rg, disk);
  }

  lemma AfterCreateDisciplined(env: Env, chg: string, ts: string, vm: string, r: AzResult)
    requires WellFormed(r)
    ensures var t := AfterCreate(env, chg, ts, vm, r);
      Disciplined(t.events, chg, ts) && Commands(t.events) == []
  {
    if r.code != 0 {
      FailureDisciplined(vm, CreateFailed, chg, ts);
    } else if env.snapshotDoc(r.stdout.value).None? {
      assert Outcomes([]) == [] && Rids([]) == [] && Commands([]) == [];
    } else if HasId(env.snapshotDoc(r.stdout.value).value) {
      SuccessDisciplined(env.snapshotDoc(r.stdout.value).value.id.value, vm, chg, ts);
    } else {
      FailureDisciplined(vm, NoSnapshotId, chg, ts);
    }
  }

  /** The prefix every step lays down: one issued command, then what its result leads to. */
  lemma IssuedThenDisciplined(cmd: Command, rest: seq<Event>, chg: string, ts: string)
    requires Disciplined(rest, chg, ts) && Commands(rest) == []
    ensures Disciplined([Issued(cmd)] + rest, chg, ts) && Commands([Issued(cmd)] + rest) == [cmd]
  {
    IssuedDisciplined(cmd, chg, ts);
    DisciplinedAppend([Issued(cmd)], rest, chg, ts);
    CommandsAppend([Issued(cmd)], rest);
  }

  lemma ProcessVmDisciplined(env: Env, chg: string, ts: string, vm: string, rg: string, disk: string)
    ensures var t := ProcessVm(env, chg, ts, vm, rg, disk);
      Disciplined(t.events, chg, ts) && Commands(t.events) == [CreateSnapshot(SnapshotName(chg, vm, ts), rg, disk)]
  {
    var cmd := CreateSnapshot(SnapshotName(chg, vm, ts), rg, disk);
    var r := RunAzCommand(env.run(cmd));
    AfterCreateDisciplined(env, chg, ts, vm, r);
    IssuedThenDisciplined(cmd, AfterCreate(env, chg, ts, vm, r).events, chg, ts);
  }

  // ---------------------------------------------------------------- the inner loop

  /** One turn of the inner loop: look the VM up, then act on the reply. */
  function LookupAndDispatch(env: Env, chg: string, ts: string, v: VmRecord): Loop {
    var cmd := ShowVm(v.resourceId);
    var l := AfterLookup(env, chg, ts, v, RunAzCommand(env.run(cmd)));
    Loop([Issued(cmd)] + l.events, l.crash, l.taskError)
  }

  /** What the loop does with the lookup's result: record the failure, raise, or dispatch the VM's task (which runs at once). */
  function AfterLookup(env: Env, chg: string, ts: string, v: VmRecord, r: AzResult): Loop
    requires WellFormed(r)
  {
    if r.code != 0 then Loop([Recorded(Failed(v.vmName, LookupFailed))], None, None)
    else
      match env.vmDoc(r.stdout.value)
      case None => Loop([], Some(UnreadableVmDetails(v.vmName)), None)
      case Some(d) =>
        if d.resourceGroup.None? || d.diskId.None? then Loop([], Some(MissingVmField(v.vmName)), None)
        else
          var t := ProcessVm(env, chg, ts, v.vmName, d.resourceGroup.value, d.diskId.value);
          Loop(t.events, None, t.error)
  }

  lemma AfterLookupOutcome(env: Env, chg: string, ts: string, v: VmRecord, r: AzResult)
    requires WellFormed(r)
    ensures var l := AfterLookup(env, chg, ts, v, r);
      && (r.code != 0 ==>
            && l.crash.None? && l.taskError.None? && Commands(l.events) == []
            && Outcomes(l.events) == [Failed(v.vmName, LookupFailed)])
      && (l.crash.Some? ==> Outcomes(l.events) == [])
      && (l.crash.None? && l.taskError.None? ==> Map(OutcomeVm, Outcomes(l.events)) == [v.vmName])
  {
    if r.code != 0 {
      ViewsOfOne(Recorded(Failed(v.vmName, LookupFailed)));
    } else if env.vmDoc(r.stdout.value).Some? {
      var d := env.vmDoc(r.stdout.value).value;
      if d.resourceGroup.Some? && d.diskId.Some? {
        ProcessVmRecordsOnce(env, chg, ts, v.vmName, d.resourceGroup.value, d.diskId.value);
      }
    }
  }

  /**
   * A failed lookup records "Failed to get VM details" for that VM and issues nothing more for it;
   * a turn that neither raises nor leaves a task exception records exactly one outcome, for its VM.
   */
  lemma LookupOutcome(env: Env, chg: string, ts: string, v: VmRecord)
    ensures var l, p := LookupAndDispatch(env, chg, ts, v), env.run(ShowVm(v.resourceId));
      && (!(p.Exited? && p.code == 0) ==>
            && l.crash.None? && l.taskError.None?
            && Commands(l.events) == [ShowVm(v.resourceId)]
            && Outcomes(l.events) == [Failed(v.vmName, LookupFailed)])
      && (l.crash.Some? ==> Outcomes(l.events) == [])
      && (l.crash.None? && l.taskError.None? ==> Map(OutcomeVm, Outcomes(l.events)) == [v.vmName])
  {
    var cmd := ShowVm(v.resourceId);
    var r := RunAzCommand(env.run(cmd));
    var l := AfterLookup(env, chg, ts, v, r);
    AfterLookupOutcome(env, chg, ts, v, r);
    ViewsOfOne(Issued(cmd));
    ViewsAppend([Issued(cmd)], l.events);
  }

  lemma AfterLookupDisciplined(env: Env, chg: string, ts: string, v: VmRecord, r: AzResult)
    requires WellFormed(r)
    ensures var l := AfterLookup(env, chg, ts, v, r);
      Disciplined(l.events, chg, ts) && Switches(Commands(l.events)) == []
  {
    var l := AfterLookup(env, chg, ts, v, r);
    if r.code != 0 {
      FailureDisciplined(v.vmName, LookupFailed, chg, ts);
    } else if l.crash.Some? {
      assert Outcomes([]) == [] && Rids([]) == [] && Commands([]) == [];
    } else {
      var d := env.vmDoc(r.stdout.value).value;
      var cmd := CreateSnapshot(SnapshotName(chg, v.vmName, ts), d.resourceGroup.value, d.diskId.value);
      ProcessVmDisciplined(env, chg, ts, v.vmName, d.resourceGroup.value, d.diskId.value);
      assert [cmd][1..] == [];
    }
  }

  lemma LookupDisciplined(env: Env, chg: string, ts: string, v: VmRecord)
    ensures var l := LookupAndDispatch(env, chg, ts, v);
      Disciplined(l.events, chg, ts) && Switches(Commands(l.events)) == []
  {
    var cmd := ShowVm(v.resourceId);
    var l := AfterLookup(env, chg, ts, v, RunAzCommand(env.run(cmd)));
    AfterLookupDisciplined(env, chg, ts, v, RunAzCommand(env.run(cmd)));
    IssuedDisciplined(cmd, chg, ts);
    DisciplinedAppend([Issued(cmd)], l.events, chg, ts);
    CommandsAppend([Issued(cmd)], l.events);
    SwitchesAppend([cmd], Commands(l.events));
    assert [cmd][1..] == [];
  }

  /** The inner loop over a group's VMs, stopping at the first exception the loop itself raises. */
  function RunVms(env: Env, chg: string, ts: string, vms: seq<VmRecord>): Loop
    decreases |vms|
  {
    if |vms| == 0 then Loop([], None, None)
    else
      var first := LookupAndDispatch(env, chg, ts, vms[0]);
      if first.crash.Some? then first
      else
        var rest := RunVms(env, chg, ts, vms[1..]);
        Loop(first.events + rest.events, rest.crash, if first.taskError.Some? then first.taskError else rest.taskError)
  }

  /** Without exceptions the inner loop records one outcome per VM, in the group's order. */
  lemma {:induction false} RunVmsRecordsEach(env: Env, chg: string, ts: string, vms: seq<VmRecord>)
    requires RunVms(env, chg, ts, vms).crash.None? && RunVms(env, chg, ts, vms).taskError.None?
    ensures Map(OutcomeVm, Outcomes(RunVms(env, chg, ts, vms).events)) == Map(NameOf, vms)
    decreases |vms|
  {
    if |vms| > 0 {
      var first := LookupAndDispatch(env, chg, ts, vms[0]);
      var rest := RunVms(env, chg, ts, vms[1..]);
      LookupOutcome(env, chg, ts, vms[0]);
      RunVmsRecordsEach(env, chg, ts, vms[1..]);
      RecordsOneThenRest(first.events, rest.events, vms[0], vms[1..]);
      assert vms == [vms[0]] + vms[1..];
    }
  }

  lemma {:induction false} RunVmsDisciplined(env: Env, chg: string, ts: string, vms: seq<VmRecord>)
    ensures var l := RunVms(env, chg, ts, vms);
      Disciplined(l.events, chg, ts) && Switches(Commands(l.events)) == []
    decreases |vms|
  {
    if |vms| > 0 {
      var first := LookupAndDispatch(env, chg, ts, vms[0]);
      LookupDisciplined(env, chg, ts, vms[0]);
      if first.crash.None? {
        var rest := RunVms(env, chg, ts, vms[1..]);
        RunVmsDisciplined(env, chg, ts, vms[1..]);
        DisciplinedAppend(first.events, rest.events, chg, ts);
        CommandsAppend(first.events, rest.events);
        SwitchesAppend(Commands(first.events), Commands(rest.events));
      }
    }
  }

  // ---------------------------------------------------------------- one group

  /**
   * One iteration of the group loop: switch subscription; if that fails, fail every VM of the group
   * and go on; otherwise run the inner loop and `gather`, which re-raises the first task exception.
   */
  function RunGroup(env: Env, chg: string, ts: string, g: Group): Trace {
    var cmd := SetSubscription(g.subscription);
    var r := RunAzCommand(env.run(cmd));
    if r.code != 0 then Trace([Issued(cmd)] + FailAll(g.vms, SwitchFailed), None)
    else
      var l := RunVms(env, chg, ts, g.vms);
      Trace([Issued(cmd)] + l.events, if l.crash.Some? then l.crash else l.taskError)
  }

  /**
   * A failed switch records every VM of the group as "Failed to set subscription", issues no lookup
   * or create for them, and does not stop the run.
   */
  lemma RunGroupSwitchFails(env: Env, chg: string, ts: string, g: Group)
    requires var p := env.run(SetSubscription(g.subscription)); !(p.Exited? && p.code == 0)
    ensures var t := RunGroup(env, chg, ts, g);
      && t.crash.None?
      && Commands(t.events) == [SetSubscription(g.subscription)]
      && Map(OutcomeVm, Outcomes(t.events)) == Map(NameOf, g.vms)
      && forall o :: o in Outcomes(t.events) ==> o == Failed(o.vm, SwitchFailed)
  {
    var cmd := SetSubscription(g.subscription);
    var head, rest := [Issued(cmd)], FailAll(g.vms, SwitchFailed);
    assert RunGroup(env, chg, ts, g) == Trace(head + rest, None);
    IssuedDisciplined(cmd, chg, ts);
    FailAllViews(g.vms, SwitchFailed, chg, ts);
    ViewsAppend(head, rest);
    assert Outcomes(head + rest) == Outcomes(rest);
  }

  /** A group that does not raise records one outcome per VM, in the group's order. */
  lemma RunGroupRecordsEach(env: Env, chg: string, ts: string, g: Group)
    requires RunGroup(env, chg, ts, g).crash.None?
    ensures Map(OutcomeVm, Outcomes(RunGroup(env, chg, ts, g).events)) == Map(NameOf, g.vms)
  {
    var cmd := SetSubscription(g.subscription);
    var r := RunAzCommand(env.run(cmd));
    if r.code != 0 {
      RunGroupSwitchFails(env, chg, ts, g);
    } else {
      var head, l := [Issued(cmd)], RunVms(env, chg, ts, g.vms);
      assert RunGroup(env, chg, ts, g).events == head + l.events;
      assert l.crash.None? && l.taskError.None?;
      IssuedDisciplined(cmd, chg, ts);
      RunVmsRecordsEach(env, chg, ts, g.vms);
      OutcomesAppend(head, l.events);
    }
  }

  /** A group issues exactly one switch, to its own subscription, and keeps the bookkeeping. */
  lemma RunGroupDisciplined(env: Env, chg: string, ts: string, g: Group)
    ensures var t := RunGroup(env, chg, ts, g);
      Disciplined(t.events, chg, ts) && Switches(Commands(t.events)) == [g.subscription]
  {
    var cmd := SetSubscription(g.subscription);
    var r := RunAzCommand(env.run(cmd));
    var head := [Issued(cmd)];
    IssuedDisciplined(cmd, chg, ts);
    assert [cmd][1..] == [];
    var rest := if r.code != 0 then FailAll(g.vms, SwitchFailed) else RunVms(env, chg, ts, g.vms).events;
    if r.code != 0 {
      FailAllViews(g.vms, SwitchFailed, chg, ts);
      assert Disciplined(rest, chg, ts);
    } else {
      RunVmsDisciplined(env, chg, ts, g.vms);
    }
    DisciplinedAppend(head, rest, chg, ts);
    CommandsAppend(head, rest);
    SwitchesAppend(Commands(head), Commands(rest));
  }

  // ---------------------------------------------------------------- the group loop and the run

  /** The group loop, in first-seen subscription order, stopping at the first exception. */
  function RunGroups(env: Env, chg: string, ts: string, gs: seq<Group>): Trace
    decreases |gs|
  {
    if |gs| == 0 then Trace([], None)
    else
      var first := RunGroup(env, chg, ts, gs[0]);
      if first.crash.Some? then first
      else
        var rest := RunGroups(env, chg, ts, gs[1..]);
        Trace(first.events + rest.events, rest.crash)
  }

  lemma {:induction false} RunGroupsRecordsEach(env: Env, chg: string, ts: string, gs: seq<Group>)
    requires RunGroups(env, chg, ts, gs).crash.None?
    ensures Map(OutcomeVm, Outcomes(RunGroups(env, chg, ts, gs).events)) == Map(NameOf, Flatten(gs))
    decreases |gs|
  {
    if |gs| > 0 {
      var first, rest := RunGroup(env, chg, ts, gs[0]), RunGroups(env, chg, ts, gs[1..]);
      assert RunGroups(env, chg, ts, gs).events == first.events + rest.events;
      RunGroupRecordsEach(env, chg, ts, gs[0]);
      RunGroupsRecordsEach(env, chg, ts, gs[1..]);
      OutcomesAppend(first.events, rest.events);
      MapAppend(OutcomeVm, Outcomes(first.events), Outcomes(rest.events));
      MapAppend(NameOf, gs[0].vms, Flatten(gs[1..]));
    }
  }

  lemma {:induction false} RunGroupsDisciplined(env: Env, chg: string, ts: string, gs: seq<Group>)
    ensures Disciplined(RunGroups(env, chg, ts, gs).events, chg, ts)
    ensures RunGroups(env, chg, ts, gs).crash.None? ==>
      Switches(Commands(RunGroups(env, chg, ts, gs).events)) == Map(KeyOf, gs)
    decreases |gs|
  {
    if |gs| == 0 {
      assert Outcomes([]) == [] && Rids([]) == [] && Commands([]) == [];
    } else {
      var first := RunGroup(env, chg, ts, gs[0]);
      RunGroupDisciplined(env, chg, ts, gs[0]);
      if first.crash.None? {
        var rest := RunGroups(env, chg, ts, gs[1..]);
        RunGroupsDisciplined(env, chg, ts, gs[1..]);
        DisciplinedAppend(first.events, rest.events, chg, ts);
        CommandsAppend(first.events, rest.events);
        SwitchesAppend(Commands(first.events), Commands(rest.events));
        MapAppend(KeyOf, [gs[0]], gs[1..]);
        assert gs == [gs[0]] + gs[1..];
      }
    }
  }

  /**
   * `main` after the prompts: nothing happens for an empty list; a line that does not parse raises
   * before any command is issued; otherwise the groups are processed with the run's one timestamp.
   */
  function Run(env: Env, chg: string, start: Moment, lines: seq<string>): RunResult {
    if |lines| == 0 then NoVms
    else
      match GroupVms(lines)
      case Err(e) => Ran(Trace([], Some(MalformedLine(e))))
      case Ok(groups) => Ran(RunGroups(env, chg, Format(start), groups))
  }

  /**
   * A run that ends normally records exactly one outcome per input line, for that line's VM, in
   * subscription-group order: the recorded names are a rearrangement of the input names, and the
   * successful and failed lists together are as long as the input.
   */
  lemma RunRecordsEachVmOnce(env: Env, chg: string, start: Moment, lines: seq<string>)
    requires Run(env, chg, start, lines).Ran? && Run(env, chg, start, lines).trace.crash.None?
    ensures var t, ps := Run(env, chg, start, lines).trace, ParseLines(lines).value;
      && Map(OutcomeVm, Outcomes(t.events)) == Map(NameOf, Flatten(GroupVms(lines).value))
      && multiset(Map(OutcomeVm, Outcomes(t.events))) == multiset(Map(NameOf, Map(VmOf, ps)))
      && |Successes(t.events)| + |Failures(t.events)| == |lines|
  {
    var t, g, ps := Run(env, chg, start, lines).trace, GroupVms(lines).value, ParseLines(lines).value;
    RunGroupsRecordsEach(env, chg, Format(start), g);
    GroupVmsSpec(lines);
    MapPreservesMultiset(NameOf, Flatten(g), Map(VmOf, ps));
    SuccessesAndFailures(t.events);
  }

  /**
   * Whatever happens, the rid list holds one rid per success entry, each appended just before it,
   * and every snapshot of the run carries the same timestamp, the one taken at start.
   */
  lemma RunDisciplined(env: Env, chg: string, start: Moment, lines: seq<string>)
    requires Run(env, chg, start, lines).Ran?
    ensures var t := Run(env, chg, start, lines).trace;
      && RidBeforeEachSuccess(t.events)
      && |Rids(t.events)| == |Successes(t.events)|
      && StampedWith(t.events, chg, Format(start))
  {
    match GroupVms(lines)
    case Err(_) =>
      assert Outcomes([]) == [] && Rids([]) == [];
    case Ok(g) =>
      RunGroupsDisciplined(env, chg, Format(start), g);
  }

  /** A run that ends normally switches subscription once per distinct subscription, in first-seen order. */
  lemma RunSwitchesOncePerSubscription(env: Env, chg: string, start: Moment, lines: seq<string>)
    requires Run(env, chg, start, lines).Ran? && Run(env, chg, start, lines).trace.crash.None?
    ensures Switches(Commands(Run(env, chg, start, lines).trace.events)) == Subscriptions(ParseLines(lines).value)
  {
    var g := GroupVms(lines).value;
    RunGroupsDisciplined(env, chg, Format(start), g);
    GroupVmsSpec(lines);
  }

  /** A malformed line anywhere stops the run before any command, naming the first malformed line. */
  lemma RunRejectsMalformedLine(env: Env, chg: string, start: Moment, lines: seq<string>, i: nat)
    requires i < |lines| && ParseLine(lines[i]).Err?
    ensures var r := Run(env, chg, start, lines);
      && r.Ran? && r.trace.events == [] && r.trace.crash.Some? && r.trace.crash.value.MalformedLine?
      && var e := r.trace.crash.value.line;
         e.index <= i && ParseLine(lines[e.index]) == Err(e.error)
  {
  }

  // ---------------------------------------------------------------- replies that always decode

  /** Every reply decodes, and every lookup reply carries both fields. */
  ghost predicate Decodable(env: Env) {
    && (forall text :: env.vmDoc(text).Some? && env.vmDoc(text).value.resourceGroup.Some?
                       && env.vmDoc(text).value.diskId.Some?)
    && (forall text :: env.snapshotDoc(text).Some?)
  }

  lemma {:induction false} RunVmsDecodable(env: Env, chg: string, ts: string, vms: seq<VmRecord>)
    requires Decodable(env)
    ensures RunVms(env, chg, ts, vms).crash.None? && RunVms(env, chg, ts, vms).taskError.None?
    decreases |vms|
  {
    if |vms| > 0 {
      LookupDecodable(env, chg, ts, vms[0]);
      RunVmsDecodable(env, chg, ts, vms[1..]);
    }
  }

  /** With replies that always decode, a lookup and its task raise nothing. */
  lemma LookupDecodable(env: Env, chg: string, ts: string, v: VmRecord)
    requires Decodable(env)
    ensures LookupAndDispatch(env, chg, ts, v).crash.None? && LookupAndDispatch(env, chg, ts, v).taskError.None?
  {
    var r := RunAzCommand(env.run(ShowVm(v.resourceId)));
    if r.code == 0 {
      var d := env.vmDoc(r.stdout.value).value;
      ProcessVmDecodable(env, chg, ts, v.vmName, d.resourceGroup.value, d.diskId.value);
    }
  }

  /** With create replies that always decode, a task raises nothing. */
  lemma ProcessVmDecodable(env: Env, chg: string, ts: string, vm: string, rg: string, disk: string)
    requires forall text :: env.snapshotDoc(text).Some?
    ensures ProcessVm(env, chg, ts, vm, rg, disk).error.None?
  {
    var r := RunAzCommand(env.run(CreateSnapshot(SnapshotName(chg, vm, ts), rg, disk)));
    if r.code == 0 {
      assert env.snapshotDoc(r.stdout.value).Some?;
    }
  }

  lemma {:induction false} RunGroupsDecodable(env: Env, chg: string, ts: string, gs: seq<Group>)
    requires Decodable(env)
    ensures RunGroups(env, chg, ts, gs).crash.None?
    decreases |gs|
  {
    if |gs| > 0 {
      RunVmsDecodable(env, chg, ts, gs[0].vms);
      RunGroupsDecodable(env, chg, ts, gs[1..]);
    }
  }

  /**
   * With replies that always decode, a non-empty, well-formed VM list runs to the end, so every
   * input VM ends in exactly one of the two lists.
   */
  lemma DecodableRunsToEnd(env: Env, chg: string, start: Moment, lines: seq<string>)
    requires Decodable(env) && |lines| > 0 && GroupVms(lines).Ok?
    ensures Run(env, chg, start, lines).Ran? && Run(env, chg, start, lines).trace.crash.None?
    ensures |Successes(Run(env, chg, start, lines).trace.events)|
          + |Failures(Run(env, chg, start, lines).trace.events)| == |lines|
  {
    RunGroupsDecodable(env, chg, Format(start), GroupVms(lines).value);
    RunRecordsEachVmOnce(env, chg, start, lines);
  }
}
