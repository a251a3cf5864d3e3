/**
 * The reply to `az snapshot show --ids <id> --query '{name:…, resourceGroup:…, timeCreated:…,
 * diskSizeGb:…, provisioningState:…}' -o json`, as the shell-based validators read it.
 */
module SnapshotShow {
  import opened Wrappers
  import opened Text
  import opened Common

  /**
   * What `json.loads` makes of the reply: not JSON at all (`JSONDecodeError`), JSON that is not an
   * object (indexing it by a key raises `TypeError`), or an object, each value kept as its JSON text.
   */
  datatype ShowJson = Malformed | NotObject | Object(fields: map<string, string>)

  /** The details a record keeps of an existing snapshot. */
  datatype Details = Details(resourceGroup: string, timeCreated: string, sizeGb: string, state: string)

  /** The four detail keys read with `details[key]`; `None` when one is missing (`KeyError`). */
  function DetailsOf(fields: map<string, string>): (d: Option<Details>)
    ensures d.Some? <==> "resourceGroup" in fields && "timeCreated" in fields && "diskSizeGb" in fields
                         && "provisioningState" in fields
    ensures d.Some? ==> && d.value.resourceGroup == fields["resourceGroup"] && d.value.timeCreated == fields["timeCreated"]
                        && d.value.sizeGb == fields["diskSizeGb"] && d.value.state == fields["provisioningState"]
  {
    if "resourceGroup" in fields && "timeCreated" in fields && "diskSizeGb" in fields && "provisioningState" in fields
    then Some(Details(fields["resourceGroup"], fields["timeCreated"], fields["diskSizeGb"], fields["provisioningState"]))
    else None
  }

  /**
   * The validators' own `run_az_command`: the stripped output of a clean exit, `None` for a failing
   * one; what it yields is exactly the output common.py's `run_az_command` yields. (What happens when
   * running the process raises, because it cannot be started or its output is not text, differs
   * between the scripts.)
   */
  function ShowOutput(p: ProcessResult): (out: Option<string>)
    ensures out == RunAzCommand(p).stdout
  {
    if p.Exited? && p.code == 0 then Some(Strip(p.stdout)) else None
  }

  /** The outside world of a validation run: how `az snapshot show` ends for each id, and the JSON decoder. */
  datatype Env = Env(show: string -> ProcessResult, decode: string -> ShowJson)
}
