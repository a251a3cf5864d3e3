/**
 * validate_snap_v2.2.0.py: check every snapshot id of the list with `az snapshot show`, split the
 * results into valid and invalid, and move the ids of the invalid ones to a separate file.
 */
module ValidateV2 {
  import opened Wrappers
  import opened Seqs
  import opened Common
  import opened SnapshotNames
  import opened SnapshotShow
  import opened Timestamp
  import Ledger

  /** A dictionary `validate_snapshot` returns, `found` being its `"exists"` flag; the details are there exactly when it is set. */
  datatype Record = Record(name: string, found: bool, details: Option<Details>)

  /** The reply shows an existing snapshot: non-empty output decoding to an object with all five keys. */
  predicate Shows(out: Option<string>, decode: string -> ShowJson) {
    && out.Some? && out.value != "" && decode(out.value).Object?
    && "name" in decode(out.value).fields && DetailsOf(decode(out.value).fields).Some?
  }

  /**
   * `validate_snapshot`: an existing snapshot is recorded under the name Azure reports; anything
   * else (a failing command, empty output, undecodable JSON, a missing key, a non-object) is caught
   * and recorded as missing under the name extracted from the id.
   */
  function CheckSnapshot(id: string, p: ProcessResult, decode: string -> ShowJson): (r: Record)
    ensures r.found <==> Shows(ShowOutput(p), decode)
    ensures r.found <==> r.details.Some?
    ensures !r.found ==> r.name == ExtractName(id)
    ensures r.found ==> r.name == decode(ShowOutput(p).value).fields["name"]
                         && r.details == DetailsOf(decode(ShowOutput(p).value).fields)
  {
    var out := ShowOutput(p);
    if out.Some? && out.value != "" then
      match decode(out.value)
      case Object(fields) =>
        if "name" in fields && DetailsOf(fields).Some? then Record(fields["name"], true, DetailsOf(fields))
        else Record(ExtractName(id), false, None)
      case _ => Record(ExtractName(id), false, None)
    else Record(ExtractName(id), false, None)
  }

  /** The record of one id, checked against the outside world. */
  function Check(env: Env, id: string): Record {
    CheckSnapshot(id, env.show(id), env.decode)
  }

  /** The gathered results: one record per id, in the order of the list. */
  function Validate(env: Env, ids: seq<string>): (rs: seq<Record>)
    ensures |rs| == |ids|
    ensures forall i :: 0 <= i < |ids| ==> rs[i] == Check(env, ids[i])
  {
    Map(id => Check(env, id), ids)
  }

  predicate IsValid(r: Record) { r.found }

  predicate IsInvalid(r: Record) { !r.found }

  /** The summary's valid and invalid lists split the results: every id is counted once. */
  lemma SummaryPartition(env: Env, ids: seq<string>)
    ensures var rs := Validate(env, ids);
      && multiset(Filter(IsValid, rs)) + multiset(Filter(IsInvalid, rs)) == multiset(rs)
      && |Filter(IsValid, rs)| + |Filter(IsInvalid, rs)| == |ids|
  {
    FilterPartition(IsValid, IsInvalid, Validate(env, ids));
  }

  function NameOfRecord(r: Record): string { r.name }

  /** The two files `move_invalid_snapshots` writes: the ids moved out, and the ids left in the list. */
  datatype Moved = Moved(invalidIds: seq<string>, validIds: seq<string>)

  /**
   * `move_invalid_snapshots` as written: an id is moved when its extracted name is the name of
   * some invalid record; the rest stay.
   */
  function MoveInvalid(invalid: seq<Record>, ids: seq<string>): Moved {
    var names := Map(NameOfRecord, invalid);
    var invalidIds := Filter(id => ExtractName(id) in names, ids);
    Moved(invalidIds, Filter(id => id !in invalidIds, ids))
  }

  /**
   * The two files split the list: both keep the list's order, together they hold every id as often
   * as the list does, and an id is moved exactly when its extracted name is among the invalid names.
   */
  lemma MoveInvalidPartition(invalid: seq<Record>, ids: seq<string>)
    ensures var m, names := MoveInvalid(invalid, ids), Map(NameOfRecord, invalid);
      && IsSubseq(m.invalidIds, ids) && IsSubseq(m.validIds, ids)
      && multiset(m.invalidIds) + multiset(m.validIds) == multiset(ids)
      && (forall i :: 0 <= i < |ids| ==> (ids[i] in m.invalidIds <==> ExtractName(ids[i]) in names))
      && (forall i :: 0 <= i < |ids| ==> (ids[i] in m.validIds <==> ids[i] !in m.invalidIds))
  {
    var names := Map(NameOfRecord, invalid);
    var p := id => ExtractName(id) in names;
    var m := MoveInvalid(invalid, ids);
    var q := id => id !in m.invalidIds;
    FilterSubseq(p, ids);
    FilterSubseq(q, ids);
    forall i | 0 <= i < |ids|
      ensures q(ids[i]) == !p(ids[i])
      ensures ids[i] in m.invalidIds <==> p(ids[i])
      ensures ids[i] in m.validIds <==> q(ids[i])
    {
      if p(ids[i]) {
        FilterKeeps(p, ids, i);
      }
      if q(ids[i]) {
        FilterKeeps(q, ids, i);
      }
    }
    FilterPartition(p, q, ids);
  }

  /**
   * As written, a snapshot that exists is moved out with the invalid ones when another id of the
   * list, one that does not exist, extracts to the same name: two snapshots of one VM under one
   * change number differ only in the timestamp the extraction cuts off.
   */
  lemma ValidSnapshotMoved(env: Env, ids: seq<string>, i: nat, j: nat)
    requires i < |ids| && j < |ids|
    requires Shows(ShowOutput(env.show(ids[i])), env.decode) && !Shows(ShowOutput(env.show(ids[j])), env.decode)
    requires ExtractName(ids[i]) == ExtractName(ids[j])
    ensures var rs := Validate(env, ids);
      rs[i].found && ids[i] in MoveInvalid(Filter(IsInvalid, rs), ids).invalidIds
  {
    var rs := Validate(env, ids);
    FilterKeeps(IsInvalid, rs, j);
    var invalid := Filter(IsInvalid, rs);
    MapMember(NameOfRecord, invalid, rs[j]);
    MoveInvalidPartition(invalid, ids);
  }

  /**
   * The input that shows it: the list holds two snapshots of one VM from two runs of the same
   * change, the older one deleted. The live snapshot's id is moved to the invalid file.
   */
  lemma LiveSnapshotMovedWithStaleOne(env: Env, prefix: string, chg: string, vm: string, live: Moment, stale: Moment)
    requires '/' !in chg && '/' !in vm
    requires Shows(ShowOutput(env.show(prefix + "/" + Ledger.SnapshotName(chg, vm, Format(live)))), env.decode)
    requires !Shows(ShowOutput(env.show(prefix + "/" + Ledger.SnapshotName(chg, vm, Format(stale)))), env.decode)
    ensures var ids := [prefix + "/" + Ledger.SnapshotName(chg, vm, Format(live)),
                        prefix + "/" + Ledger.SnapshotName(chg, vm, Format(stale))];
      var rs := Validate(env, ids);
      rs[0].found && ids[0] in MoveInvalid(Filter(IsInvalid, rs), ids).invalidIds
  {
    var ids := [prefix + "/" + Ledger.SnapshotName(chg, vm, Format(live)),
                prefix + "/" + Ledger.SnapshotName(chg, vm, Format(stale))];
    ExtractStampedName(prefix, chg, vm, live);
    ExtractStampedName(prefix, chg, vm, stale);
    ValidSnapshotMoved(env, ids, 0, 1);
  }

  /** The ids whose own record's `"exists"` flag is `flag`, in list order. */
  function Pick(ids: seq<string>, rs: seq<Record>, flag: bool): (picked: seq<string>)
    requires |rs| == |ids|
    ensures |picked| <= |ids|
  {
    if |ids| == 0 then [] else (if rs[0].found == flag then [ids[0]] else []) + Pick(ids[1..], rs[1..], flag)
  }

  /** Every picked id sits at a position whose record has the flag. */
  lemma {:induction false} PickOnlyFlagged(ids: seq<string>, rs: seq<Record>, flag: bool, x: string)
    requires |rs| == |ids| && x in Pick(ids, rs, flag)
    ensures exists k :: 0 <= k < |ids| && ids[k] == x && rs[k].found == flag
    decreases |ids|
  {
    if ids[0] == x && rs[0].found == flag {
      assert ids[0] == x;
    } else {
      assert x in Pick(ids[1..], rs[1..], flag);
      PickOnlyFlagged(ids[1..], rs[1..], flag, x);
      var k :| 0 <= k < |ids| - 1 && ids[1..][k] == x && rs[1..][k].found == flag;
      assert ids[k + 1] == x && rs[k + 1].found == flag;
    }
  }

  lemma {:induction false} PickKeeps(ids: seq<string>, rs: seq<Record>, flag: bool, k: nat)
    requires |rs| == |ids| && k < |ids| && rs[k].found == flag
    ensures ids[k] in Pick(ids, rs, flag)
    decreases |ids|
  {
    if k > 0 {
      PickKeeps(ids[1..], rs[1..], flag, k - 1);
    }
  }

  /** Picking splits the ids: each id goes to exactly one side, and each side keeps the list order. */
  lemma PickPartition(ids: seq<string>, rs: seq<Record>)
    requires |rs| == |ids|
    ensures multiset(Pick(ids, rs, false)) + multiset(Pick(ids, rs, true)) == multiset(ids)
    ensures IsSubseq(Pick(ids, rs, false), ids) && IsSubseq(Pick(ids, rs, true), ids)
  {
    PickMultiset(ids, rs);
    PickSubseq(ids, rs, false);
    PickSubseq(ids, rs, true);
  }

  /** One step of `Pick`: the first id, if its flag matches, followed by the picks of the rest. */
  lemma PickStep(ids: seq<string>, rs: seq<Record>, flag: bool)
    requires |rs| == |ids| && |ids| > 0
    ensures Pick(ids, rs, flag) == (if rs[0].found == flag then [ids[0]] else []) + Pick(ids[1..], rs[1..], flag)
  {
  }

  lemma {:induction false} PickMultiset(ids: seq<string>, rs: seq<Record>)
    requires |rs| == |ids|
    ensures multiset(Pick(ids, rs, false)) + multiset(Pick(ids, rs, true)) == multiset(ids)
    decreases |ids|
  {
    if |ids| > 0 {
      PickMultiset(ids[1..], rs[1..]);
      PickStep(ids, rs, false);
      PickStep(ids, rs, true);
      SplitOne(ids[0], rs[0].found, Pick(ids[1..], rs[1..], false), Pick(ids[1..], rs[1..], true), ids[1..]);
      assert ids == [ids[0]] + ids[1..];
    }
  }

  /** Adding one id to the side its flag chooses keeps the two sides a split of the list. */
  lemma SplitOne(x: string, found: bool, f: seq<string>, t: seq<string>, rest: seq<string>)
    requires multiset(f) + multiset(t) == multiset(rest)
    ensures multiset((if found == false then [x] else []) + f) + multiset((if found == true then [x] else []) + t)
            == multiset([x] + rest)
  {
  }

  lemma {:induction false} PickSubseq(ids: seq<string>, rs: seq<Record>, flag: bool)
    requires |rs| == |ids|
    ensures IsSubseq(Pick(ids, rs, flag), ids)
    decreases |ids|
  {
    if |ids| > 0 {
      var p := Pick(ids[1..], rs[1..], flag);
      PickSubseq(ids[1..], rs[1..], flag);
      PickStep(ids, rs, flag);
      assert ids == [ids[0]] + ids[1..];
      if rs[0].found == flag {
        SubseqRefl([ids[0]]);
        SubseqAppend([ids[0]], [ids[0]], p, ids[1..]);
      } else {
        SubseqEmpty([ids[0]]);
        SubseqAppend([], [ids[0]], p, ids[1..]);
        assert [] + p == p;
      }
    } else {
      SubseqEmpty(ids);
    }
  }

  /** The evidently intended move: each id goes by its own result, paired with it by position. */
  function MoveInvalidPaired(ids: seq<string>, rs: seq<Record>): Moved
    requires |rs| == |ids|
  {
    Moved(Pick(ids, rs, false), Pick(ids, rs, true))
  }

  /**
   * The corrected move splits the list in order, and moves an id exactly when its own snapshot
   * does not exist (the same id always gets the same result).
   */
  lemma MoveByOwnRecord(env: Env, ids: seq<string>)
    ensures var rs := Validate(env, ids); var m := MoveInvalidPaired(ids, rs);
      && IsSubseq(m.invalidIds, ids) && IsSubseq(m.validIds, ids)
      && multiset(m.invalidIds) + multiset(m.validIds) == multiset(ids)
      && (forall i :: 0 <= i < |ids| ==> (ids[i] in m.invalidIds <==> !rs[i].found))
      && (forall i :: 0 <= i < |ids| ==> (ids[i] in m.validIds <==> rs[i].found))
  {
    var rs := Validate(env, ids);
    PickPartition(ids, rs);
    forall i | 0 <= i < |ids|
      ensures ids[i] in Pick(ids, rs, false) <==> !rs[i].found
      ensures ids[i] in Pick(ids, rs, true) <==> rs[i].found
    {
      PickKeeps(ids, rs, rs[i].found, i);
      if ids[i] in Pick(ids, rs, false) {
        PickOnlyFlagged(ids, rs, false, ids[i]);
        var k :| 0 <= k < |ids| && ids[k] == ids[i] && rs[k].found == false;
        assert rs[k] == rs[i];
      }
      if ids[i] in Pick(ids, rs, true) {
        PickOnlyFlagged(ids, rs, true, ids[i]);
        var k :| 0 <= k < |ids| && ids[k] == ids[i] && rs[k].found == true;
        assert rs[k] == rs[i];
      }
    }
  }
}
