/**
 * The shared helpers of common.py: the normalisation `run_az_command` applies to a finished
 * process, the login check built on it, the last-segment `extract_snapshot_name`, and the
 * vocabulary of `az` commands the snapshot creators issue.
 */
module Common {
  import opened Wrappers
  import opened Text

  /**
   * What running the external process came to: it exited with a code and its output read as text, or
   * an exception was raised instead, whether because the process could not be started or because
   * its output was not valid UTF-8 (`stdout.decode()` sits inside the same `try`).
   */
  datatype ProcessResult =
    | Exited(code: int, stdout: string, stderr: string)
    | Raised(message: string)

  /** The `(stdout, stderr, returncode)` triple `run_az_command` returns; `stdout` is Python's `None` when absent. */
  datatype AzResult = AzResult(stdout: Option<string>, stderr: string, code: int)

  /** The shape `run_az_command` always returns: an output exactly when the exit code is 0. */
  predicate WellFormed(r: AzResult) {
    r.stdout.Some? <==> r.code == 0
  }

  /**
   * `run_az_command` in common.py: a clean exit yields the stripped outputs; a failing exit keeps only
   * the stripped error text and the code; any exception becomes exit code 1 carrying its message.
   */
  function RunAzCommand(p: ProcessResult): (r: AzResult)
    ensures r.stdout.None? <==> r.code != 0
    ensures r.stdout.Some? <==> p.Exited? && p.code == 0
    ensures r.stdout.Some? ==> r.stdout.value == Strip(p.stdout)
    ensures p.Exited? ==> r.code == p.code && r.stderr == Strip(p.stderr)
    ensures p.Raised? ==> r.code == 1 && r.stderr == p.message
  {
    match p
    case Exited(code, out, err) =>
      if code == 0 then AzResult(Some(Strip(out)), Strip(err), 0)
      else AzResult(None, Strip(err), code)
    case Raised(msg) => AzResult(None, msg, 1)
  }

  /**
   * `check_az_login` compares the triple from `run_az_command("az account show")` with `None`;
   * the triple never is `None`, so the check passes whatever the process did.
   */
  function CheckAzLogin(accountShow: ProcessResult): (loggedIn: bool)
    ensures loggedIn
  {
    var result: Option<AzResult> := Some(RunAzCommand(accountShow));
    result.Some?
  }

  /** A failing `az account show` (not logged in) still passes the check. */
  lemma CheckAzLoginIgnoresFailure()
    ensures var p := Exited(1, "", "Please run 'az login' to setup account.");
      RunAzCommand(p).code != 0 && CheckAzLogin(p)
  {
  }

  /** The evidently intended check: logged in exactly when `az account show` exits cleanly. */
  function LoggedIn(accountShow: ProcessResult): (loggedIn: bool)
    ensures loggedIn <==> accountShow.Exited? && accountShow.code == 0
  {
    RunAzCommand(accountShow).stdout.Some?
  }

  /** `extract_snapshot_name` in common.py: the text after the last `/`, with nothing stripped. */
  function ExtractSnapshotName(snapshotId: string): (name: string)
    ensures '/' !in name
    ensures |name| <= |snapshotId| && snapshotId[|snapshotId| - |name|..] == name
    ensures |name| < |snapshotId| ==> snapshotId[|snapshotId| - |name| - 1] == '/'
    ensures |name| == |snapshotId| ==> '/' !in snapshotId
  {
    LastSegment(snapshotId, '/')
  }

  /** The `az` operations the snapshot creators issue. */
  datatype Command =
    | SetSubscription(subscription: string)
    | ShowVm(resourceId: string)
    | CreateSnapshot(name: string, resourceGroup: string, diskId: string)

  /** The shell text of each command, as the creators format it. */
  function CommandLine(cmd: Command): string {
    match cmd
    case SetSubscription(sub) => SetSubscriptionText + sub
    case ShowVm(rid) => ShowVmText + rid + ShowVmQueryText
    case CreateSnapshot(name, rg, disk) => CreateSnapshotText + name + ResourceGroupText + rg + SourceText + disk
  }

  const SetSubscriptionText := "az account set --subscription "
  const ShowVmText := "az vm show --ids "
  const ShowVmQueryText := " --query '{resourceGroup:resourceGroup, diskId:storageProfile.osDisk.managedDisk.id}' -o json"
  const CreateSnapshotText := "az snapshot create --name "
  const ResourceGroupText := " --resource-group "
  const SourceText := " --source "

  /** Python's `str()` of a non-negative integer. */
  function NatToString(n: nat): (s: string)
    ensures |s| > 0
  {
    var d := [('0' as int + n % 10) as char];
    if n < 10 then d else NatToString(n / 10) + d
  }
}
