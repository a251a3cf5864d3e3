/**
 * What a snapshot-creation run leaves behind, shared by both creators: the `az` commands it issues,
 * the lines appended to the rid list (`write_snapshot_rid`), and the `(vm_name, …)` pairs appended to
 * `successful_snapshots` / `failed_snapshots`, all in one log in the order they happen.
 */
module Ledger {
  import opened Wrappers
  import opened Seqs
  import opened Common
  import opened Grouping

  /** The decoded `az vm show … -o json` reply; a field is `None` when the key is absent. */
  datatype VmDoc = VmDoc(resourceGroup: Option<string>, diskId: Option<string>)

  /** The decoded `az snapshot create` reply; only its `id` is read. */
  datatype SnapshotDoc = SnapshotDoc(id: Option<string>)

  /** An entry of `successful_snapshots` (name and snapshot name) or of `failed_snapshots` (name and reason). */
  datatype Outcome =
    | Succeeded(vm: string, snapshotName: string)
    | Failed(vm: string, reason: string)

  datatype Event =
    | Issued(cmd: Command)
    | RidAppended(rid: string)
    | Recorded(outcome: Outcome)

  /** An exception nothing catches, which ends the run before the summary is written. */
  datatype Crash =
    | MalformedLine(line: BadLine)
    | UnreadableVmDetails(vm: string)
    | MissingVmField(vm: string)
    | UnreadableSnapshotReply(vm: string)
    | Unreachable(cmd: Command)

  /** The log of a run (or part of one), and the exception that ended it, if any. */
  datatype Trace = Trace(events: seq<Event>, crash: Option<Crash>)

  /** A run returns early, before any command, when the VM list is empty; otherwise it leaves a trace. */
  datatype RunResult = NoVms | Ran(trace: Trace)

  /** `f"RH_{chg_number}_{vm_name}_{timestamp}"`. */
  function SnapshotName(chg: string, vm: string, ts: string): string {
    "RH_" + chg + "_" + vm + "_" + ts
  }

  /** Python's truthiness of the `id` value read with `.get("id")`: present and non-empty. */
  predicate HasId(doc: SnapshotDoc) {
    doc.id.Some? && doc.id.value != ""
  }

  // ---------------------------------------------------------------- views of the log

  /** The entries of the two outcome lists, interleaved in the order they were appended. */
  function Outcomes(events: seq<Event>): (os: seq<Outcome>)
    ensures |os| <= |events|
  {
    if |events| == 0 then []
    else (if events[0].Recorded? then [events[0].outcome] else []) + Outcomes(events[1..])
  }

  /** The lines appended to the rid list. */
  function Rids(events: seq<Event>): seq<string> {
    if |events| == 0 then []
    else (if events[0].RidAppended? then [events[0].rid] else []) + Rids(events[1..])
  }

  /** The commands issued. */
  function Commands(events: seq<Event>): seq<Command> {
    if |events| == 0 then []
    else (if events[0].Issued? then [events[0].cmd] else []) + Commands(events[1..])
  }

  lemma {:induction false} OutcomesAppend(a: seq<Event>, b: seq<Event>)
    ensures Outcomes(a + b) == Outcomes(a) + Outcomes(b)
    decreases |a|
  {
    if |a| == 0 {
      assert a + b == b;
    } else {
      assert (a + b)[0] == a[0] && (a + b)[1..] == a[1..] + b;
      OutcomesAppend(a[1..], b);
    }
  }

  lemma {:induction false} RidsAppend(a: seq<Event>, b: seq<Event>)
    ensures Rids(a + b) == Rids(a) + Rids(b)
    decreases |a|
  {
    if |a| == 0 {
      assert a + b == b;
    } else {
      assert (a + b)[0] == a[0] && (a + b)[1..] == a[1..] + b;
      RidsAppend(a[1..], b);
    }
  }

  lemma {:induction false} CommandsAppend(a: seq<Event>, b: seq<Event>)
    ensures Commands(a + b) == Commands(a) + Commands(b)
    decreases |a|
  {
    if |a| == 0 {
      assert a + b == b;
    } else {
      assert (a + b)[0] == a[0] && (a + b)[1..] == a[1..] + b;
      CommandsAppend(a[1..], b);
    }
  }

  /** The subscriptions switched to, in order. */
  function Switches(cmds: seq<Command>): seq<string> {
    if |cmds| == 0 then []
    else (if cmds[0].SetSubscription? then [cmds[0].subscription] else []) + Switches(cmds[1..])
  }

  lemma {:induction false} SwitchesAppend(a: seq<Command>, b: seq<Command>)
    ensures Switches(a + b) == Switches(a) + Switches(b)
    decreases |a|
  {
    if |a| == 0 {
      assert a + b == b;
    } else {
      assert (a + b)[0] == a[0] && (a + b)[1..] == a[1..] + b;
      SwitchesAppend(a[1..], b);
    }
  }

  /** The names of the snapshots asked for, in order. */
  function Created(cmds: seq<Command>): seq<string> {
    if |cmds| == 0 then []
    else (if cmds[0].CreateSnapshot? then [cmds[0].name] else []) + Created(cmds[1..])
  }

  lemma {:induction false} CreatedAppend(a: seq<Command>, b: seq<Command>)
    ensures Created(a + b) == Created(a) + Created(b)
    decreases |a|
  {
    if |a| == 0 {
      assert a + b == b;
    } else {
      assert (a + b)[0] == a[0] && (a + b)[1..] == a[1..] + b;
      CreatedAppend(a[1..], b);
    }
  }

  /** Each view of a log written in two parts is the view of the first part followed by that of the second. */
  lemma ViewsAppend(a: seq<Event>, b: seq<Event>)
    ensures Outcomes(a + b) == Outcomes(a) + Outcomes(b)
    ensures Rids(a + b) == Rids(a) + Rids(b)
    ensures Commands(a + b) == Commands(a) + Commands(b)
  {
    OutcomesAppend(a, b);
    RidsAppend(a, b);
    CommandsAppend(a, b);
  }

  function OutcomeVm(o: Outcome): string { o.vm }

  predicate IsSuccess(o: Outcome) { o.Succeeded? }

  predicate IsFailure(o: Outcome) { o.Failed? }

  /** The VM named by each recorded outcome, in order. */
  function RecordedVms(events: seq<Event>): seq<string> {
    Map(OutcomeVm, Outcomes(events))
  }

  lemma RecordedVmsAppend(a: seq<Event>, b: seq<Event>)
    ensures RecordedVms(a + b) == RecordedVms(a) + RecordedVms(b)
  {
    OutcomesAppend(a, b);
    MapAppend(OutcomeVm, Outcomes(a), Outcomes(b));
  }

  /** A log that records one VM, followed by a log that records the rest in order, records them all in order. */
  lemma RecordsOneThenRest(first: seq<Event>, rest: seq<Event>, v: VmRecord, vms: seq<VmRecord>)
    requires RecordedVms(first) == [v.vmName] && RecordedVms(rest) == Map(NameOf, vms)
    ensures RecordedVms(first + rest) == Map(NameOf, [v] + vms)
  {
    RecordedVmsAppend(first, rest);
    MapAppend(NameOf, [v], vms);
  }

  /** `successful_snapshots`. */
  function Successes(events: seq<Event>): seq<Outcome> {
    Filter(IsSuccess, Outcomes(events))
  }

  /** `failed_snapshots`. */
  function Failures(events: seq<Event>): seq<Outcome> {
    Filter(IsFailure, Outcomes(events))
  }

  /** The two lists split the recorded outcomes: every outcome lands in exactly one of them. */
  lemma SuccessesAndFailures(events: seq<Event>)
    ensures |Successes(events)| + |Failures(events)| == |Outcomes(events)|
    ensures multiset(Successes(events)) + multiset(Failures(events)) == multiset(Outcomes(events))
  {
    var os := Outcomes(events);
    FilterPartition(IsSuccess, IsFailure, os);
  }

  lemma ListsAppend(a: seq<Event>, b: seq<Event>)
    ensures Successes(a + b) == Successes(a) + Successes(b)
    ensures Failures(a + b) == Failures(a) + Failures(b)
  {
    ViewsAppend(a, b);
    FilterAppend(IsSuccess, Outcomes(a), Outcomes(b));
    FilterAppend(IsFailure, Outcomes(a), Outcomes(b));
  }

  // ---------------------------------------------------------------- rid list discipline

  /**
   * The rid list only grows on success, and just before it: every appended rid is immediately
   * followed by a success entry, and every success entry immediately follows an appended rid.
   */
  predicate RidBeforeEachSuccess(events: seq<Event>) {
    && (forall i :: 0 <= i < |events| && events[i].RidAppended? ==>
          i + 1 < |events| && events[i + 1].Recorded? && events[i + 1].outcome.Succeeded?)
    && (forall i :: 0 <= i < |events| && events[i].Recorded? && events[i].outcome.Succeeded? ==>
          0 < i && events[i - 1].RidAppended?)
  }

  lemma RidBeforeEachSuccessAppend(a: seq<Event>, b: seq<Event>)
    requires RidBeforeEachSuccess(a) && RidBeforeEachSuccess(b)
    ensures RidBeforeEachSuccess(a + b)
  {
    var e := a + b;
    forall i | 0 <= i < |e| && e[i].RidAppended?
      ensures i + 1 < |e| && e[i + 1].Recorded? && e[i + 1].outcome.Succeeded?
    {
      if i < |a| {
        assert a[i].RidAppended?;
      } else {
        assert b[i - |a|].RidAppended?;
      }
    }
    forall i | 0 <= i < |e| && e[i].Recorded? && e[i].outcome.Succeeded?
      ensures 0 < i && e[i - 1].RidAppended?
    {
      if i < |a| {
        assert a[i] == e[i];
      } else {
        assert b[i - |a|] == e[i];
      }
    }
  }

  /** As many rids as success entries. */
  predicate RidPerSuccess(events: seq<Event>) {
    |Rids(events)| == |Successes(events)|
  }

  lemma RidPerSuccessAppend(a: seq<Event>, b: seq<Event>)
    requires RidPerSuccess(a) && RidPerSuccess(b)
    ensures RidPerSuccess(a + b)
  {
    ViewsAppend(a, b);
    ListsAppend(a, b);
  }

  /** Every success entry names its snapshot `RH_<chg>_<vm>_<ts>` with the one timestamp `ts`. */
  predicate StampedWith(events: seq<Event>, chg: string, ts: string) {
    forall i :: 0 <= i < |events| && events[i].Recorded? && events[i].outcome.Succeeded? ==>
      events[i].outcome.snapshotName == SnapshotName(chg, events[i].outcome.vm, ts)
  }

  lemma StampedWithAppend(a: seq<Event>, b: seq<Event>, chg: string, ts: string)
    requires StampedWith(a, chg, ts) && StampedWith(b, chg, ts)
    ensures StampedWith(a + b, chg, ts)
  {
    var e := a + b;
    forall i | 0 <= i < |e| && e[i].Recorded? && e[i].outcome.Succeeded?
      ensures e[i].outcome.snapshotName == SnapshotName(chg, e[i].outcome.vm, ts)
    {
      if i < |a| {
        assert a[i] == e[i];
      } else {
        assert b[i - |a|] == e[i];
      }
    }
  }

  /** The rid list discipline: each rid appended just before a success entry, as many rids as successes. */
  predicate RidsKept(events: seq<Event>) {
    RidBeforeEachSuccess(events) && RidPerSuccess(events)
  }

  lemma RidsKeptAppend(a: seq<Event>, b: seq<Event>)
    requires RidsKept(a) && RidsKept(b)
    ensures RidsKept(a + b)
  {
    RidBeforeEachSuccessAppend(a, b);
    RidPerSuccessAppend(a, b);
  }

  /**
   * The bookkeeping every part of a run keeps: each rid is appended just before a success entry and
   * each success entry just after a rid, as many rids as successes, and every snapshot named with
   * the run's one timestamp.
   */
  predicate Disciplined(events: seq<Event>, chg: string, ts: string) {
    RidsKept(events) && StampedWith(events, chg, ts)
  }

  lemma DisciplinedAppend(a: seq<Event>, b: seq<Event>, chg: string, ts: string)
    requires Disciplined(a, chg, ts) && Disciplined(b, chg, ts)
    ensures Disciplined(a + b, chg, ts)
  {
    RidsKeptAppend(a, b);
    StampedWithAppend(a, b, chg, ts);
  }

  /** The views of a one-entry log. */
  lemma ViewsOfOne(e: Event)
    ensures Outcomes([e]) == (if e.Recorded? then [e.outcome] else [])
    ensures Rids([e]) == (if e.RidAppended? then [e.rid] else [])
    ensures Commands([e]) == (if e.Issued? then [e.cmd] else [])
  {
    assert [e][1..] == [];
  }

  lemma IssuedDisciplined(cmd: Command, chg: string, ts: string)
    ensures Disciplined([Issued(cmd)], chg, ts)
    ensures Outcomes([Issued(cmd)]) == [] && Commands([Issued(cmd)]) == [cmd]
  {
    var es := [Issued(cmd)];
    ViewsOfOne(Issued(cmd));
    assert Successes(es) == [];
    assert RidPerSuccess(es);
    assert RidBeforeEachSuccess(es);
    assert StampedWith(es, chg, ts);
  }

  lemma FailureDisciplined(vm: string, reason: string, chg: string, ts: string)
    ensures Disciplined([Recorded(Failed(vm, reason))], chg, ts)
    ensures Commands([Recorded(Failed(vm, reason))]) == []
  {
    var es := [Recorded(Failed(vm, reason))];
    ViewsOfOne(Recorded(Failed(vm, reason)));
    assert Successes(es) == [];
    assert RidPerSuccess(es);
    assert RidBeforeEachSuccess(es);
    assert StampedWith(es, chg, ts);
  }

  lemma SuccessDisciplined(rid: string, vm: string, chg: string, ts: string)
    ensures var es := [RidAppended(rid), Recorded(Succeeded(vm, SnapshotName(chg, vm, ts)))];
      Disciplined(es, chg, ts) && Commands(es) == []
  {
    var o := Succeeded(vm, SnapshotName(chg, vm, ts));
    SuccessPairKept(rid, o);
    var es := [RidAppended(rid), Recorded(o)];
    assert StampedWith(es, chg, ts);
  }

  /** A rid appended just before a success entry keeps the rid list discipline and issues nothing. */
  lemma SuccessPairKept(rid: string, o: Outcome)
    requires o.Succeeded?
    ensures RidsKept([RidAppended(rid), Recorded(o)]) && Commands([RidAppended(rid), Recorded(o)]) == []
  {
    var es := [RidAppended(rid), Recorded(o)];
    PairViews(RidAppended(rid), Recorded(o));
    assert Successes(es) == Filter(IsSuccess, [o]);
    assert RidBeforeEachSuccess(es);
  }

  /** The views of a two-entry log. */
  lemma PairViews(a: Event, b: Event)
    ensures Outcomes([a, b]) == Outcomes([a]) + Outcomes([b])
    ensures Rids([a, b]) == Rids([a]) + Rids([b])
    ensures Commands([a, b]) == Commands([a]) + Commands([b])
    ensures Outcomes([a]) == (if a.Recorded? then [a.outcome] else [])
    ensures Outcomes([b]) == (if b.Recorded? then [b.outcome] else [])
    ensures Rids([a]) == (if a.RidAppended? then [a.rid] else [])
    ensures Rids([b]) == (if b.RidAppended? then [b.rid] else [])
    ensures Commands([a]) == (if a.Issued? then [a.cmd] else [])
    ensures Commands([b]) == (if b.Issued? then [b.cmd] else [])
  {
    ViewsOfOne(a);
    ViewsOfOne(b);
    assert [a, b] == [a] + [b];
    ViewsAppend([a], [b]);
  }

  /** The failure entries for every VM of a group, all with one reason. */
  function FailAll(vms: seq<VmRecord>, reason: string): seq<Event> {
    if |vms| == 0 then [] else [Recorded(Failed(vms[0].vmName, reason))] + FailAll(vms[1..], reason)
  }

  /** Failing a group records one failure per VM, in order, with the given reason, and nothing else. */
  lemma {:induction false} FailAllViews(vms: seq<VmRecord>, reason: string, chg: string, ts: string)
    ensures var es := FailAll(vms, reason);
      && Map(OutcomeVm, Outcomes(es)) == Map(NameOf, vms)
      && Rids(es) == [] && Commands(es) == []
      && (forall o :: o in Outcomes(es) ==> o == Failed(o.vm, reason))
      && Disciplined(es, chg, ts)
    decreases |vms|
  {
    if |vms| == 0 {
      assert Outcomes([]) == [] && Rids([]) == [] && Commands([]) == [];
    } else {
      var head, rest := [Recorded(Failed(vms[0].vmName, reason))], FailAll(vms[1..], reason);
      FailureDisciplined(vms[0].vmName, reason, chg, ts);
      FailAllViews(vms[1..], reason, chg, ts);
      ViewsAppend(head, rest);
      DisciplinedAppend(head, rest, chg, ts);
      MapAppend(OutcomeVm, Outcomes(head), Outcomes(rest));
      assert vms == [vms[0]] + vms[1..];
      MapAppend(NameOf, [vms[0]], vms[1..]);
    }
  }
}
