/**
 * The validation loop of validate_snapshot.py, which validate_snapshot_promax.py repeats line for
 * line: one `az snapshot show` per id of the list, in order, each building one record; the summary
 * then counts existing and missing snapshots. Unlike validate_snap_v2.2.0.py, only a JSON decoding
 * error is caught inside the loop.
 */
module ValidateCli {
  import opened Wrappers
  import opened Seqs
  import opened Common
  import opened SnapshotNames
  import opened SnapshotShow

  /** `snapshot_info`: the id, its `"exists"` flag, the displayed name, and the details of an existing snapshot. */
  datatype Record = Record(id: string, found: bool, name: Shown, details: Option<Details>)

  /** A displayed name: the extracted snapshot name, with or without the "Not found: " label. */
  datatype Shown = Shown(notFound: bool, snapshot: string)

  /** An exception the loop does not catch, which ends the script. */
  datatype Crash =
    | Unstartable(id: string, message: string)  // running the command raised: no process, or output that is not text
    | NotAnObject(id: string)
    | MissingKey(id: string)

  const NotFoundPrefix := "Not found: "

  /** The text of a displayed name: a labelled name ends in the snapshot name and differs from it. */
  function ShownText(n: Shown): (t: string)
    ensures |n.snapshot| <= |t| && t[|t| - |n.snapshot|..] == n.snapshot
    ensures n.notFound <==> t != n.snapshot
    ensures n.notFound ==> |NotFoundPrefix| <= |t| && t[..|NotFoundPrefix|] == NotFoundPrefix
  {
    if n.notFound then NotFoundPrefix + n.snapshot else n.snapshot
  }

  /** One turn of the loop: the record of an id, or the exception it raises. */
  function CheckId(id: string, p: ProcessResult, decode: string -> ShowJson): (r: Result<Record, Crash>)
    ensures r.Ok? ==> r.value.id == id && (r.value.found <==> r.value.details.Some?)
  {
    var name := ExtractName(id);
    match p
    case Raised(msg) => Err(Unstartable(id, msg))
    case Exited(_, _, _) =>
      var details := ShowOutput(p);
      if details.None? || details.value == "" then Ok(Record(id, false, Shown(true, name), None))
      else
        match decode(details.value)
        case Malformed => Ok(Record(id, false, Shown(false, name), None))
        case NotObject => Err(NotAnObject(id))
        case Object(fields) =>
          match DetailsOf(fields)
          case None => Err(MissingKey(id))
          case Some(d) => Ok(Record(id, true, Shown(false, name), Some(d)))
  }

  /**
   * How a turn ends. A failing command (`CalledProcessError`) or empty output marks the snapshot
   * missing with a "Not found: " name; undecodable output marks it missing under the plain
   * extracted name; a decoded object with the four detail keys marks it existing under the
   * extracted name. A process that cannot be started or whose output is not text, a non-object or a
   * missing key raises out of the loop.
   */
  lemma CheckIdOutcome(id: string, p: ProcessResult, decode: string -> ShowJson)
    ensures var r, out, name := CheckId(id, p, decode), ShowOutput(p), ExtractName(id);
      && (p.Raised? ==> r == Err(Unstartable(id, p.message)))
      && (p.Exited? && (out.None? || out.value == "") ==> r == Ok(Record(id, false, Shown(true, name), None)))
      && (out.Some? && out.value != "" ==>
            match decode(out.value)
            case Malformed => r == Ok(Record(id, false, Shown(false, name), None))
            case NotObject => r == Err(NotAnObject(id))
            case Object(fields) =>
              if DetailsOf(fields).Some? then r == Ok(Record(id, true, Shown(false, name), DetailsOf(fields)))
              else r == Err(MissingKey(id)))
  {
  }

  predicate IsFound(r: Record) { r.found }

  predicate IsMissing(r: Record) { !r.found }

  /** What a run leaves: the records built, and the exception that ended it early, if any. */
  datatype Run = Run(records: seq<Record>, crash: Option<Crash>)

  /** One turn of the loop against the outside world. */
  function Turn(env: Env, id: string): Result<Record, Crash> {
    CheckId(id, env.show(id), env.decode)
  }

  /**
   * `validate_snapshots`: the records of the ids, one each, in list order, until an id raises;
   * a run that ends early stops at the first id that raises.
   */
  function ValidateSnapshots(env: Env, ids: seq<string>): (run: Run)
    ensures |run.records| <= |ids|
    ensures forall i :: 0 <= i < |run.records| ==> Turn(env, ids[i]) == Ok(run.records[i])
    ensures run.crash.None? ==> |run.records| == |ids|
    ensures run.crash.Some? ==> |run.records| < |ids| && Turn(env, ids[|run.records|]) == Err(run.crash.value)
  {
    var r := MapUntilErr((id: string) => Turn(env, id), ids);
    Run(r.0, r.1)
  }

  /** The name shown for a missing snapshot is the extracted name, labelled exactly when the command failed or printed nothing. */
  lemma MissingNameShape(id: string, p: ProcessResult, decode: string -> ShowJson)
    requires CheckId(id, p, decode).Ok? && !CheckId(id, p, decode).value.found
    ensures var r, out := CheckId(id, p, decode).value, ShowOutput(p);
      && r.name.snapshot == ExtractName(id)
      && (r.name.notFound <==> out.None? || out.value == "")
  {
    CheckIdOutcome(id, p, decode);
  }

  /** Every id of a finished run is counted once, as existing or as missing, according to its own turn. */
  lemma SummaryCounts(env: Env, ids: seq<string>)
    requires ValidateSnapshots(env, ids).crash.None?
    ensures var rs := ValidateSnapshots(env, ids).records;
      && |Filter(IsFound, rs)| + |Filter(IsMissing, rs)| == |ids|
      && forall i :: 0 <= i < |ids| ==> (rs[i] in Filter(IsFound, rs) <==> Turn(env, ids[i]).value.found)
  {
    RecordsCounted(ValidateSnapshots(env, ids).records);
  }

  /** Each record is counted once, and among the existing ones exactly when it exists. */
  lemma RecordsCounted(rs: seq<Record>)
    ensures |Filter(IsFound, rs)| + |Filter(IsMissing, rs)| == |rs|
    ensures forall i :: 0 <= i < |rs| ==> (rs[i] in Filter(IsFound, rs) <==> rs[i].found)
  {
    FilterPartition(IsFound, IsMissing, rs);
    forall i | 0 <= i < |rs| && rs[i].found
      ensures rs[i] in Filter(IsFound, rs)
    {
      FilterKeeps(IsFound, rs, i);
    }
  }
}
