/**
 * The module-level header parse of validate_snap_v2.2.0.py and validate_snapy.py (the same code in
 * both): the subscription and resource group are read from the first snapshot id in the list,
 * and the script exits when there is none to read.
 */
module Header {
  import opened Wrappers
  import opened Text
  import opened Seqs

  datatype Header = Header(subscription: string, resourceGroup: string)

  /** What the scripts print before `sys.exit(1)`. */
  const NoHeaderMessage := "Error: Could not extract Subscription ID and Resource Group from snap_rid_list.txt"

  /** The `/`-segments of a stripped line. */
  function Parts(line: string): seq<string> {
    Split(Strip(line), '/')
  }

  /** A line the parse stops at: non-empty once stripped, with at least five segments. */
  predicate IsIdLine(line: string) {
    Strip(line) != "" && |Parts(line)| >= 5
  }

  /** The index of the first line the parse stops at, if any. */
  function FirstIdLine(lines: seq<string>): (i: Option<nat>)
    ensures i.Some? ==> i.value < |lines| && IsIdLine(lines[i.value])
    ensures i.Some? ==> forall j :: 0 <= j < i.value ==> !IsIdLine(lines[j])
    ensures i.None? ==> forall j :: 0 <= j < |lines| ==> !IsIdLine(lines[j])
  {
    FirstWhere(IsIdLine, lines)
  }

  /** What the parse makes of the line it stops at: segments 2 and 4 when both are non-empty, else the exit. */
  function HeaderOf(line: string): (r: Result<Header, string>)
    requires IsIdLine(line)
    ensures r.Err? ==> r.error == NoHeaderMessage
    ensures r.Ok? <==> Parts(line)[2] != "" && Parts(line)[4] != ""
    ensures r.Ok? ==> r.value == Header(Parts(line)[2], Parts(line)[4])
  {
    var parts := Parts(line);
    if parts[2] != "" && parts[4] != "" then Ok(Header(parts[2], parts[4])) else Err(NoHeaderMessage)
  }

  /**
   * The header, or the exit message: read from the first id line. Shorter lines before it are
   * skipped; nothing after it is read.
   */
  function ReadHeader(lines: seq<string>): (r: Result<Header, string>)
    ensures r.Err? ==> r.error == NoHeaderMessage
    ensures r.Ok? ==> r.value.subscription != "" && r.value.resourceGroup != ""
    ensures r.Ok? ==> exists i :: 0 <= i < |lines| && IsIdLine(lines[i])
                                  && Parts(lines[i])[2] == r.value.subscription
                                  && Parts(lines[i])[4] == r.value.resourceGroup
  {
    match FirstIdLine(lines)
    case None => Err(NoHeaderMessage)
    case Some(i) => HeaderOf(lines[i])
  }

  /** A list without any line of five segments makes the script exit. */
  lemma NoIdLineExits(lines: seq<string>)
    requires forall j :: 0 <= j < |lines| ==> !IsIdLine(lines[j])
    ensures ReadHeader(lines) == Err(NoHeaderMessage)
  {
  }

  /** Only the first id line counts: the lines skipped before it and everything after it do not matter. */
  lemma FirstIdLineDecides(skipped: seq<string>, line: string, rest: seq<string>)
    requires forall j :: 0 <= j < |skipped| ==> !IsIdLine(skipped[j])
    requires IsIdLine(line)
    ensures ReadHeader(skipped + [line] + rest) == HeaderOf(line)
  {
    FirstWhereAt(IsIdLine, skipped, line, rest);
    assert (skipped + [line] + rest)[|skipped|] == line;
  }

  /** An empty subscription or resource group in the first id line exits, whatever lines follow. */
  lemma EmptyFieldExits(skipped: seq<string>, line: string, rest: seq<string>)
    requires forall j :: 0 <= j < |skipped| ==> !IsIdLine(skipped[j])
    requires IsIdLine(line) && (Parts(line)[2] == "" || Parts(line)[4] == "")
    ensures ReadHeader(skipped + [line] + rest) == Err(NoHeaderMessage)
  {
    FirstIdLineDecides(skipped, line, rest);
  }

  /** The head of an Azure resource id, as its five segments joined. */
  lemma ResourceIdJoin(sub: string, rg: string)
    ensures Join(["", "subscriptions", sub, "resourceGroups", rg], '/') == "/subscriptions/" + sub + "/resourceGroups/" + rg
  {
    var w, r := "subscriptions", "resourceGroups";
    var pieces := ["", w, sub, r, rg];
    assert pieces[4..] == [rg];
    JoinCons(pieces[3..], '/');
    JoinCons(pieces[2..], '/');
    JoinCons(pieces[1..], '/');
    JoinCons(pieces, '/');
    assert pieces[3..][1..] == pieces[4..] && pieces[2..][1..] == pieces[3..] && pieces[1..][1..] == pieces[2..];
    var j := "" + ['/'] + (w + ['/'] + (sub + ['/'] + (r + ['/'] + rg)));
    assert Join(pieces, '/') == j;
    SlashWords();
    assert j == (['/'] + w + ['/']) + sub + (['/'] + r + ['/']) + rg;
  }

  /** The two fixed words of a resource id's head, between their slashes. */
  lemma SlashWords()
    ensures "/subscriptions/" == ['/'] + "subscriptions" + ['/']
    ensures "/resourceGroups/" == ['/'] + "resourceGroups" + ['/']
  {
  }

  /** The segments of an Azure resource id: empty, `subscriptions`, the subscription, `resourceGroups`, the group, … */
  lemma ResourceIdParts(sub: string, rg: string, tail: string)
    requires '/' !in sub && '/' !in rg
    ensures var parts := Split("/subscriptions/" + sub + "/resourceGroups/" + rg + "/" + tail, '/');
      |parts| >= 6 && parts[2] == sub && parts[4] == rg
  {
    var pieces := ["", "subscriptions", sub, "resourceGroups", rg];
    var head := "/subscriptions/" + sub + "/resourceGroups/" + rg;
    ResourceIdJoin(sub, rg);
    SplitJoin(pieces, '/');
    assert head + "/" + tail == head + ['/'] + tail;
    SplitAround(head, tail, '/');
  }

  /** A list that starts with a snapshot's resource id yields that id's subscription and resource group. */
  lemma ReadHeaderOfId(skipped: seq<string>, sub: string, rg: string, tail: string, rest: seq<string>)
    requires forall j :: 0 <= j < |skipped| ==> !IsIdLine(skipped[j])
    requires sub != "" && rg != "" && '/' !in sub && '/' !in rg
    requires tail == [] || !IsSpace(tail[|tail| - 1])
    ensures ReadHeader(skipped + ["/subscriptions/" + sub + "/resourceGroups/" + rg + "/" + tail] + rest) == Ok(Header(sub, rg))
  {
    var line := "/subscriptions/" + sub + "/resourceGroups/" + rg + "/" + tail;
    assert line[0] == '/';
    assert line[|line| - 1] == if tail == [] then '/' else tail[|tail| - 1];
    StripClean(line);
    ResourceIdParts(sub, rg, tail);
    FirstIdLineDecides(skipped, line, rest);
  }
}
