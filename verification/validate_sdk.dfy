/**
 * validate_snapy.py: the SDK-based validator. Every name of the list is looked up in the
 * subscription's snapshot listing (`compute_client.snapshots.list()`), all names at once; a
 * lookup that raises is caught, logged and recorded as a missing snapshot.
 */
module ValidateSdk {
  import opened Wrappers
  import opened Seqs
  import opened Text
  import opened Timestamp
  import Common
  import Ledger
  import Header
  import opened SnapshotNames

  /** A snapshot as the SDK lists it: its resource id, name and the details the record copies. */
  datatype SdkSnapshot = SdkSnapshot(id: string, name: string, timeCreated: string, sizeGb: int, state: string)

  /**
   * What the asynchronous pager delivers: the snapshots it yields, in order, and the exception it
   * raises once they are exhausted, if any (a failure part-way is a shorter listing that raises).
   */
  datatype Listing = Listing(items: seq<SdkSnapshot>, failure: Option<string>)

  /** Why a lookup raised: the pager's own exception, or `IndexError` from a resource id of fewer than five segments. */
  datatype Failure = PagerFailed(reason: string) | ShortId

  const IndexErrorText := "list index out of range"

  /** `f"Error validating snapshot {snapshot_name}: {str(e)}"`. */
  function ErrorMessage(name: string, f: Failure): (m: string)
    ensures |m| > |name|
  {
    "Error validating snapshot " + name + ": " + (match f case PagerFailed(reason) => reason case ShortId => IndexErrorText)
  }

  /**
   * The dictionary a lookup returns: the queried name, its `"exists"` flag, the listed snapshot and
   * resource group of an existing one, and the error of a lookup that raised.
   */
  datatype Record = Record(name: string, found: bool, snapshot: Option<SdkSnapshot>, resourceGroup: Option<string>,
                           error: Option<Failure>)

  /** The names the script looks up: each line of the list, stripped, through `extract_snapshot_name`. */
  function NameList(lines: seq<string>): (names: seq<string>)
    ensures |names| == |lines|
    ensures forall i :: 0 <= i < |lines| ==> names[i] == ExtractName(Strip(lines[i]))
  {
    Map((l: string) => ExtractName(Strip(l)), lines)
  }

  /** `snapshot.id.split('/')[4]`, the resource group of a resource id; `None` where indexing raises `IndexError`. */
  function GroupOfId(id: string): Option<string> {
    var parts := Split(id, '/');
    if |parts| >= 5 then Some(parts[4]) else None
  }

  /** The index of the first listed snapshot with the queried name. */
  function FirstNamed(query: string, items: seq<SdkSnapshot>): Option<nat> {
    FirstWhere((s: SdkSnapshot) => s.name == query, items)
  }

  /** `validate_snapshot`: the record of one lookup in the listing. */
  function CheckName(query: string, listing: Listing): (r: Record)
    ensures r.name == query
    ensures r.found ==> r.error.None?
  {
    match FirstNamed(query, listing.items)
    case Some(i) =>
      var s := listing.items[i];
      var group := GroupOfId(s.id);
      if group.Some? then Record(query, true, Some(s), group, None)
      else Record(query, false, None, None, Some(ShortId))
    case None =>
      match listing.failure
      case Some(reason) => Record(query, false, None, None, Some(PagerFailed(reason)))
      case None => Record(query, false, None, None, None)
  }

  /**
   * What a lookup finds: a listed snapshot of the queried name, with the fifth segment of its id
   * as resource group; an id shorter than that makes the lookup raise. With no snapshot of that
   * name, the lookup raises when the pager does and otherwise reports the snapshot missing.
   */
  lemma CheckNameOutcome(query: string, listing: Listing)
    ensures var r := CheckName(query, listing);
      && (r.found ==> r.snapshot.Some? && r.snapshot.value in listing.items && r.snapshot.value.name == query
                      && GroupOfId(r.snapshot.value.id).Some? && r.resourceGroup == GroupOfId(r.snapshot.value.id))
      && (!r.found ==> r.snapshot.None? && r.resourceGroup.None?)
      && (r.error == Some(ShortId) ==> exists i :: 0 <= i < |listing.items| && listing.items[i].name == query)
      && ((forall i :: 0 <= i < |listing.items| ==> listing.items[i].name != query) ==>
            !r.found && r.error == (if listing.failure.Some? then Some(PagerFailed(listing.failure.value)) else None))
  {
  }

  /** Only the first snapshot of the queried name counts: what the pager yields or raises after it is never read. */
  lemma FirstMatchDecides(query: string, skipped: seq<SdkSnapshot>, s: SdkSnapshot, rest: seq<SdkSnapshot>,
                          failure: Option<string>)
    requires forall j :: 0 <= j < |skipped| ==> skipped[j].name != query
    requires s.name == query
    ensures var r := CheckName(query, Listing(skipped + [s] + rest, failure));
      && (r.found <==> GroupOfId(s.id).Some?)
      && (r.found ==> r.snapshot == Some(s) && r.resourceGroup == GroupOfId(s.id))
      && (!r.found ==> r.error == Some(ShortId))
  {
    FirstWhereAt((x: SdkSnapshot) => x.name == query, skipped, s, rest);
  }

  /** The lookups of `asyncio.gather`: one per name, all against the same listing, in list order. */
  function LookupAll(names: seq<string>, listing: Listing): (rs: seq<Record>)
    ensures |rs| == |names|
    ensures forall i :: 0 <= i < |names| ==> rs[i] == CheckName(names[i], listing)
  {
    if names == [] then [] else [CheckName(names[0], listing)] + LookupAll(names[1..], listing)
  }

  /** `validate_snapshots`: one lookup per line of the list. */
  function Validate(lines: seq<string>, listing: Listing): seq<Record> {
    LookupAll(NameList(lines), listing)
  }

  predicate IsFound(r: Record) { r.found }

  predicate IsMissing(r: Record) { !r.found }

  /** The summary's valid and invalid counts add up to the number of lines, and a lookup that raised counts as invalid. */
  lemma SummaryCounts(lines: seq<string>, listing: Listing)
    ensures var rs := Validate(lines, listing);
      && |Filter(IsFound, rs)| + |Filter(IsMissing, rs)| == |lines|
      && forall i :: 0 <= i < |rs| && rs[i].error.Some? ==> rs[i] in Filter(IsMissing, rs)
  {
    RecordsCounted(Validate(lines, listing));
  }

  /** Each record is counted once, as valid or invalid; a record with an error is among the invalid ones. */
  lemma RecordsCounted(rs: seq<Record>)
    requires forall i :: 0 <= i < |rs| && rs[i].found ==> rs[i].error.None?
    ensures |Filter(IsFound, rs)| + |Filter(IsMissing, rs)| == |rs|
    ensures forall i :: 0 <= i < |rs| && rs[i].error.Some? ==> rs[i] in Filter(IsMissing, rs)
  {
    FilterPartition(IsFound, IsMissing, rs);
    forall i | 0 <= i < |rs| && rs[i].error.Some?
      ensures rs[i] in Filter(IsMissing, rs)
    {
      FilterKeeps(IsMissing, rs, i);
    }
  }

  /**
   * The listing reports a snapshot under its full name, timestamp included, but the query is the
   * extracted name without it: a created snapshot's own id in the list is never found, even when
   * every snapshot listed is that very snapshot.
   */
  lemma CreatedSnapshotNotFound(prefix: string, chg: string, vm: string, d: Moment, listing: Listing)
    requires '/' !in chg && '/' !in vm
    requires forall j :: 0 <= j < |listing.items| ==> listing.items[j].name == Ledger.SnapshotName(chg, vm, Format(d))
    ensures var r := CheckName(ExtractName(prefix + "/" + Ledger.SnapshotName(chg, vm, Format(d))), listing);
      !r.found && (listing.failure.None? ==> r.error.None?)
  {
    CreatedNameNotExtracted(prefix, chg, vm, d);
    CheckNameOutcome(ExtractName(prefix + "/" + Ledger.SnapshotName(chg, vm, Format(d))), listing);
  }

  /** The lookup of a list line with the query evidently intended: the whole last segment of the id, the snapshot's full name. */
  function CheckLine(line: string, listing: Listing): Record {
    CheckName(Common.ExtractSnapshotName(Strip(line)), listing)
  }

  /** The full-name queries of the lines. */
  function FullNameList(lines: seq<string>): (names: seq<string>)
    ensures |names| == |lines|
    ensures forall i :: 0 <= i < |lines| ==> names[i] == Common.ExtractSnapshotName(Strip(lines[i]))
  {
    Map((l: string) => Common.ExtractSnapshotName(Strip(l)), lines)
  }

  /** The validation with full-name queries, one lookup per line of the list. */
  function ValidateFullNames(lines: seq<string>, listing: Listing): seq<Record> {
    LookupAll(FullNameList(lines), listing)
  }

  /** Each record of the corrected validation is the corrected lookup of its own line. */
  lemma ValidateFullNamesAt(lines: seq<string>, listing: Listing, i: nat)
    requires i < |lines|
    ensures |ValidateFullNames(lines, listing)| == |lines|
    ensures ValidateFullNames(lines, listing)[i] == CheckLine(lines[i], listing)
  {
  }

  /** The resource id of snapshot `name` in resource group `rg`; `kind` is the provider path between them. */
  function SnapshotId(sub: string, rg: string, kind: string, name: string): string {
    "/subscriptions/" + sub + "/resourceGroups/" + rg + "/" + kind + "/" + name
  }

  /** A snapshot's resource id is already stripped, and its last segment is the snapshot's name. */
  lemma SnapshotIdName(sub: string, rg: string, kind: string, name: string)
    requires '/' !in name && name != [] && !IsSpace(name[|name| - 1])
    ensures Strip(SnapshotId(sub, rg, kind, name)) == SnapshotId(sub, rg, kind, name)
    ensures Common.ExtractSnapshotName(SnapshotId(sub, rg, kind, name)) == name
  {
    var head := "/subscriptions/" + sub + "/resourceGroups/" + rg + "/" + kind;
    var id := SnapshotId(sub, rg, kind, name);
    assert id == head + ['/'] + name;
    LastSegmentAfter(head, name, '/');
    assert id[0] == '/' && id[|id| - 1] == name[|name| - 1];
    StripClean(id);
  }

  /** The fifth segment of a snapshot's resource id is its resource group. */
  lemma SnapshotIdGroup(sub: string, rg: string, kind: string, name: string)
    requires '/' !in sub && '/' !in rg
    ensures GroupOfId(SnapshotId(sub, rg, kind, name)) == Some(rg)
  {
    assert SnapshotId(sub, rg, kind, name) == "/subscriptions/" + sub + "/resourceGroups/" + rg + "/" + (kind + "/" + name);
    Header.ResourceIdParts(sub, rg, kind + "/" + name);
  }

  /**
   * With full-name queries, a list line whose last segment is a snapshot's name finds the first
   * listed snapshot of that name, in the resource group its id names. A snapshot's own resource id
   * is such a line (`SnapshotIdName`), and its group is the one in the id (`SnapshotIdGroup`).
   */
  lemma FullNameFindsSnapshot(line: string, skipped: seq<SdkSnapshot>, s: SdkSnapshot, rest: seq<SdkSnapshot>,
                              failure: Option<string>)
    requires Common.ExtractSnapshotName(Strip(line)) == s.name
    requires GroupOfId(s.id).Some?
    requires forall j :: 0 <= j < |skipped| ==> skipped[j].name != s.name
    ensures var r := CheckLine(line, Listing(skipped + [s] + rest, failure));
      r.found && r.snapshot == Some(s) && r.resourceGroup == GroupOfId(s.id)
  {
    FirstMatchDecides(s.name, skipped, s, rest, failure);
  }
}
