/**
 * `extract_snapshot_name` as the four validators define it, word for word the same in each: the
 * last `/`-segment of a snapshot id without its final `_`-suffix. For the ids the creators
 * produce, that suffix is the run's timestamp, so the result is `RH_<chg>_<vm>`.
 */
module SnapshotNames {
  import opened Text
  import opened Timestamp
  import Common
  import Ledger

  /**
   * `snapshot_id.split("/")[-1].rsplit("_", 1)[0]`: the name common.py's `extract_snapshot_name`
   * gives, cut before its last `_`, or whole when it has none.
   */
  function ExtractName(snapshotId: string): (name: string)
    ensures '/' !in name
    ensures var full := Common.ExtractSnapshotName(snapshotId);
      && |name| <= |full| && full[..|name|] == name
      && ('_' !in full ==> name == full)
      && ('_' in full ==> |name| < |full| && full[|name|] == '_' && '_' !in full[|name| + 1..])
  {
    var full := LastSegment(snapshotId, '/');
    var parts := RSplitOnce(full, '_');
    assert |parts| == 2 ==> full[|parts[0]| + 1..] == parts[1];
    parts[0]
  }

  /** The name of a snapshot the creators made, at the end of its id, extracts to `RH_<chg>_<vm>`. */
  lemma ExtractCreatedName(prefix: string, chg: string, vm: string, ts: string)
    requires '/' !in chg && '/' !in vm && '/' !in ts && '_' !in ts
    ensures ExtractName(prefix + "/" + Ledger.SnapshotName(chg, vm, ts)) == "RH_" + chg + "_" + vm
  {
    var head := "RH_" + chg + "_" + vm;
    var name := Ledger.SnapshotName(chg, vm, ts);
    assert name == head + ['_'] + ts;
    LastSegmentAfter(prefix, name, '/');
    RSplitOnceAt(head, ts, '_');
  }

  /** The same for a name stamped with a formatted clock reading, whose digits hold no `_` or `/`. */
  lemma ExtractStampedName(prefix: string, chg: string, vm: string, d: Moment)
    requires '/' !in chg && '/' !in vm
    ensures ExtractName(prefix + "/" + Ledger.SnapshotName(chg, vm, Format(d))) == "RH_" + chg + "_" + vm
  {
    var ts := Format(d);
    assert !IsDigit('_') && !IsDigit('/');
    ExtractCreatedName(prefix, chg, vm, ts);
  }

  /** A created snapshot's own name is never its extracted name: the timestamp is cut off. */
  lemma CreatedNameNotExtracted(prefix: string, chg: string, vm: string, d: Moment)
    requires '/' !in chg && '/' !in vm
    ensures ExtractName(prefix + "/" + Ledger.SnapshotName(chg, vm, Format(d))) != Ledger.SnapshotName(chg, vm, Format(d))
  {
    ExtractStampedName(prefix, chg, vm, d);
  }
}
