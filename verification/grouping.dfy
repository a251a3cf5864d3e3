/**
 * `group_vms_by_subscription`, identical in create_snapy.py and create_snap-v20240811.py: each input
 * line `"<resource_id> <vm_name>"` is cut at its last whitespace run, the subscription is the third
 * `/`-segment of the resource id, and records are gathered per subscription in first-seen order.
 */
module Grouping {
  import opened Wrappers
  import opened Text
  import opened Seqs

  /** One line of the VM list: the resource id and the VM name after it. */
  datatype VmRecord = VmRecord(resourceId: string, vmName: string)

  /** A record together with the subscription its resource id names. */
  datatype ParsedLine = ParsedLine(subscription: string, vm: VmRecord)

  /** The two ways a line makes the grouping raise: unpacking fewer than two tokens, or indexing a missing segment. */
  datatype LineError = TooFewTokens | TooFewSegments

  /** The first line that failed, by position, and why. */
  datatype BadLine = BadLine(index: nat, error: LineError)

  /** Subscriptions (in first-seen order) with their records (in input order). */
  datatype Group = Group(subscription: string, vms: seq<VmRecord>)

  function VmOf(p: ParsedLine): VmRecord { p.vm }

  function NameOf(v: VmRecord): string { v.vmName }

  function KeyOf(g: Group): string { g.subscription }

  // ---------------------------------------------------------------- one line

  /** `resource_id, vm_name = line.rsplit(None, 1)` followed by `resource_id.split("/")[2]`. */
  function ParseLine(line: string): Result<ParsedLine, LineError> {
    var parts := RSplitWhitespaceOnce(line);
    if |parts| != 2 then Err(TooFewTokens)
    else
      var segments := Split(parts[0], '/');
      if |segments| < 3 then Err(TooFewSegments)
      else Ok(ParsedLine(segments[2], VmRecord(parts[0], parts[1])))
  }

  /** A parsed line's name is a single non-empty token and its key is the third `/`-segment of its id. */
  lemma ParseLineKeyed(line: string)
    requires ParseLine(line).Ok?
    ensures var p := ParseLine(line).value;
      && p.vm.vmName != [] && NoSpace(p.vm.vmName)
      && |Split(p.vm.resourceId, '/')| >= 3 && p.subscription == Split(p.vm.resourceId, '/')[2]
  {
  }

  /** Indexing segment 2 raises exactly when the line has two tokens but its id has fewer than three segments. */
  lemma ParseLineTooFewSegments(line: string)
    ensures ParseLine(line) == Err(TooFewSegments)
        <==> |RSplitWhitespaceOnce(line)| == 2 && |Split(RSplitWhitespaceOnce(line)[0], '/')| < 3
  {
  }

  /**
   * A parsed line is its resource id, a run of whitespace, the name and trailing whitespace: the id
   * is a prefix of the line ending in a non-space character, the name ends where trailing whitespace begins.
   */
  lemma ParseLineShape(line: string)
    requires ParseLine(line).Ok?
    ensures var v, n := ParseLine(line).value.vm, |TrimRight(line)|;
      && v.resourceId != [] && !IsSpace(v.resourceId[|v.resourceId| - 1])
      && |v.resourceId| < n - |v.vmName| && n <= |line|
      && line[..|v.resourceId|] == v.resourceId
      && line[n - |v.vmName|..n] == v.vmName
      && (forall i :: |v.resourceId| <= i < n - |v.vmName| ==> IsSpace(line[i]))
      && (forall i :: n <= i < |line| ==> IsSpace(line[i]))
  {
    ParseLinePieces(line);
    RSplitWhitespaceOnceShape(line);
  }

  lemma ParseLinePieces(line: string)
    requires ParseLine(line).Ok?
    ensures var parts := RSplitWhitespaceOnce(line);
      |parts| == 2 && ParseLine(line).value.vm == VmRecord(parts[0], parts[1])
  {
  }

  lemma {:induction false} TokenStartAfter(prefix: string, token: string)
    requires prefix == [] || IsSpace(prefix[|prefix| - 1])
    requires NoSpace(token)
    ensures TokenStart(prefix + token) == |prefix|
    decreases |token|
  {
    if |token| == 0 {
      assert prefix + token == prefix;
    } else {
      var s := prefix + token;
      assert s[..|s| - 1] == prefix + token[..|token| - 1];
      TokenStartAfter(prefix, token[..|token| - 1]);
    }
  }

  lemma TrimRightClean(s: string)
    requires s == [] || !IsSpace(s[|s| - 1])
    ensures TrimRight(s) == s
  {
  }

  /**
   * Parsing inverts writing a line: a resource id and a name separated by whitespace (with any
   * trailing whitespace) come back unchanged, keyed by the id's third segment.
   */
  lemma ParseFormattedLine(rid: string, gap: string, name: string, trail: string)
    requires rid != [] && !IsSpace(rid[|rid| - 1])
    requires gap != [] && AllSpace(gap)
    requires name != [] && NoSpace(name)
    requires AllSpace(trail)
    requires |Split(rid, '/')| >= 3
    ensures ParseLine(rid + gap + name + trail) == Ok(ParsedLine(Split(rid, '/')[2], VmRecord(rid, name)))
  {
    var line := rid + gap + name + trail;
    TrimRightPadded(rid + gap + name, trail);
    TrimRightClean(rid + gap + name);
    var t := rid + gap + name;
    TokenStartAfter(rid + gap, name);
    assert t[..|rid + gap|] == rid + gap;
    assert t[|rid + gap|..] == name;
    TrimRightPadded(rid, gap);
    TrimRightClean(rid);
  }

  /** A line raises at the unpacking step exactly when, once stripped, it holds no whitespace: at most one token. */
  lemma ParseLineTooFewTokens(line: string)
    ensures ParseLine(line) == Err(TooFewTokens) <==> NoSpace(Strip(line))
  {
    if |RSplitWhitespaceOnce(line)| == 2 {
      TwoPiecesHaveInnerSpace(line);
    } else {
      FewerPiecesNoInnerSpace(line);
    }
  }

  // ---------------------------------------------------------------- all lines

  /**
   * Parses every line, stopping at the first one that raises: success parses every line, in
   * order; failure names the first line that raises, every line before it parsing.
   */
  function ParseLines(lines: seq<string>): (r: Result<seq<ParsedLine>, BadLine>)
    ensures r.Ok? ==> |r.value| == |lines| && forall i :: 0 <= i < |lines| ==> ParseLine(lines[i]) == Ok(r.value[i])
    ensures r.Err? ==> && r.error.index < |lines| && ParseLine(lines[r.error.index]) == Err(r.error.error)
                       && forall j :: 0 <= j < r.error.index ==> ParseLine(lines[j]).Ok?
  {
    var parsed := MapUntilErr(ParseLine, lines);
    match parsed.1
    case None => Ok(parsed.0)
    case Some(e) => Err(BadLine(|parsed.0|, e))
  }

  // ---------------------------------------------------------------- grouping

  function KeyIndex(groups: seq<Group>, key: string): (i: Option<nat>)
    ensures i.Some? ==> i.value < |groups| && groups[i.value].subscription == key
    ensures i.None? ==> forall j :: 0 <= j < |groups| ==> groups[j].subscription != key
  {
    if |groups| == 0 then None
    else if groups[|groups| - 1].subscription == key then Some(|groups| - 1)
    else KeyIndex(groups[..|groups| - 1], key)
  }

  /** `grouped_vms[subscription_id].append((resource_id, vm_name))` on an insertion-ordered dict. */
  function Insert(groups: seq<Group>, p: ParsedLine): seq<Group> {
    match KeyIndex(groups, p.subscription)
    case Some(i) => groups[i := Group(p.subscription, groups[i].vms + [p.vm])]
    case None => groups + [Group(p.subscription, [p.vm])]
  }

  /** The grouping loop, one line at a time. */
  function GroupParsed(ps: seq<ParsedLine>): seq<Group> {
    if |ps| == 0 then [] else Insert(GroupParsed(ps[..|ps| - 1]), ps[|ps| - 1])
  }

  predicate Distinct<T(==)>(s: seq<T>) {
    forall i, j :: 0 <= i < j < |s| ==> s[i] != s[j]
  }

  /** Reference: the subscriptions of the lines, each once, in the order they first appear. */
  function Subscriptions(ps: seq<ParsedLine>): (keys: seq<string>)
    ensures Distinct(keys)
    ensures forall j :: 0 <= j < |ps| ==> ps[j].subscription in keys
    ensures forall k :: k in keys ==> exists j :: 0 <= j < |ps| && ps[j].subscription == k
  {
    if |ps| == 0 then []
    else
      var keys := Subscriptions(ps[..|ps| - 1]);
      var k := ps[|ps| - 1].subscription;
      assert forall j :: 0 <= j < |ps| - 1 ==> ps[j] == ps[..|ps| - 1][j];
      if k in keys then keys else keys + [k]
  }

  /** Reference: the records of the lines naming `key`, in input order. */
  function Members(ps: seq<ParsedLine>, key: string): seq<VmRecord> {
    if |ps| == 0 then []
    else Members(ps[..|ps| - 1], key) + (if ps[|ps| - 1].subscription == key then [ps[|ps| - 1].vm] else [])
  }

  /** All groups' records, group after group. */
  function Flatten(groups: seq<Group>): seq<VmRecord> {
    if |groups| == 0 then [] else groups[0].vms + Flatten(groups[1..])
  }

  /**
   * The grouping loop computes the reference: one group per distinct subscription in first-seen
   * order, holding exactly the records naming it, in input order.
   */
  lemma {:induction false} GroupParsedIsReference(ps: seq<ParsedLine>)
    ensures var g, keys := GroupParsed(ps), Subscriptions(ps);
      && |g| == |keys|
      && forall i :: 0 <= i < |g| ==> g[i].subscription == keys[i] && g[i].vms == Members(ps, keys[i])
    decreases |ps|
  {
    if |ps| > 0 {
      var init := ps[..|ps| - 1];
      var p := ps[|ps| - 1];
      GroupParsedIsReference(init);
      var g0, keys0 := GroupParsed(init), Subscriptions(init);
      var g, keys := GroupParsed(ps), Subscriptions(ps);
      assert g == Insert(g0, p);
      match KeyIndex(g0, p.subscription)
      case Some(i) =>
        assert p.subscription in keys0;
        assert keys == keys0;
        forall j | 0 <= j < |g|
          ensures g[j].subscription == keys[j] && g[j].vms == Members(ps, keys[j])
        {
          if j != i {
            assert keys0[j] != keys0[i];
          }
        }
      case None =>
        assert p.subscription !in keys0;
        assert keys == keys0 + [p.subscription];
        forall j | 0 <= j < |g|
          ensures g[j].subscription == keys[j] && g[j].vms == Members(ps, keys[j])
        {
          if j == |g0| {
            MembersAbsent(init, p.subscription);
          }
        }
    }
  }

  lemma {:induction false} MembersAbsent(ps: seq<ParsedLine>, key: string)
    requires key !in Subscriptions(ps)
    ensures Members(ps, key) == []
    decreases |ps|
  {
    if |ps| > 0 {
      assert ps[|ps| - 1].subscription in Subscriptions(ps);
      MembersAbsent(ps[..|ps| - 1], key);
    }
  }

  lemma {:induction false} FlattenAppend(groups: seq<Group>, g: Group)
    ensures Flatten(groups + [g]) == Flatten(groups) + g.vms
    decreases |groups|
  {
    if |groups| == 0 {
      assert [] + [g] == [g];
      assert [g][1..] == [];
    } else {
      assert (groups + [g])[1..] == groups[1..] + [g];
      FlattenAppend(groups[1..], g);
    }
  }

  lemma {:induction false} FlattenExtend(groups: seq<Group>, i: nat, v: VmRecord)
    requires i < |groups|
    ensures multiset(Flatten(groups[i := Group(groups[i].subscription, groups[i].vms + [v])]))
         == multiset(Flatten(groups)) + multiset{v}
    decreases i
  {
    var u := groups[i := Group(groups[i].subscription, groups[i].vms + [v])];
    if i == 0 {
      assert u[1..] == groups[1..];
      ExtendFirst(groups[0].vms, v, Flatten(groups[1..]));
    } else {
      assert u[1..] == groups[1..][i - 1 := Group(groups[i].subscription, groups[i].vms + [v])];
      FlattenExtend(groups[1..], i - 1, v);
      assert u[0] == groups[0];
    }
  }

  lemma ExtendFirst(vms: seq<VmRecord>, v: VmRecord, rest: seq<VmRecord>)
    ensures multiset((vms + [v]) + rest) == multiset(vms + rest) + multiset{v}
  {
  }

  /** One insertion adds exactly its record to the groups' contents. */
  lemma InsertAddsOne(groups: seq<Group>, p: ParsedLine)
    ensures multiset(Flatten(Insert(groups, p))) == multiset(Flatten(groups)) + multiset{p.vm}
  {
    match KeyIndex(groups, p.subscription)
    case Some(i) =>
      FlattenExtend(groups, i, p.vm);
    case None =>
      FlattenAppend(groups, Group(p.subscription, [p.vm]));
  }

  /** Grouping neither drops nor duplicates records: the groups hold a rearrangement of the input. */
  lemma {:induction false} GroupParsedPermutes(ps: seq<ParsedLine>)
    ensures multiset(Flatten(GroupParsed(ps))) == multiset(Map(VmOf, ps))
    ensures |Flatten(GroupParsed(ps))| == |ps|
    decreases |ps|
  {
    if |ps| > 0 {
      var init := ps[..|ps| - 1];
      var p := ps[|ps| - 1];
      GroupParsedPermutes(init);
      MapAppend(VmOf, init, [p]);
      assert init + [p] == ps;
      InsertAddsOne(GroupParsed(init), p);
      assert |multiset(Flatten(GroupParsed(ps)))| == |multiset(Map(VmOf, ps))|;
    }
  }

  /** `group_vms_by_subscription(vm_list)`: raises on the first malformed line, otherwise the grouped records. */
  function GroupVms(lines: seq<string>): Result<seq<Group>, BadLine> {
    match ParseLines(lines)
    case Err(e) => Err(e)
    case Ok(ps) => Ok(GroupParsed(ps))
  }

  /**
   * The grouping of a whole VM list: one group per distinct subscription in first-seen order, each
   * holding exactly that subscription's records in input order; together a rearrangement of the input.
   */
  lemma GroupVmsSpec(lines: seq<string>)
    requires GroupVms(lines).Ok?
    ensures var g, ps := GroupVms(lines).value, ParseLines(lines).value;
      && Map(KeyOf, g) == Subscriptions(ps)
      && (forall i :: 0 <= i < |g| ==> g[i].vms == Members(ps, g[i].subscription))
      && multiset(Flatten(g)) == multiset(Map(VmOf, ps))
      && |Flatten(g)| == |lines|
  {
    var ps := ParseLines(lines).value;
    GroupParsedIsReference(ps);
    GroupParsedPermutes(ps);
  }

  /** Every record sits in the group of the subscription its own resource id names. */
  lemma GroupKeysMatchIds(lines: seq<string>)
    requires GroupVms(lines).Ok?
    ensures var g := GroupVms(lines).value;
      forall i, j :: 0 <= i < |g| && 0 <= j < |g[i].vms| ==>
        var segments := Split(g[i].vms[j].resourceId, '/');
        |segments| >= 3 && segments[2] == g[i].subscription
  {
    var g, ps := GroupVms(lines).value, ParseLines(lines).value;
    GroupParsedIsReference(ps);
    forall i | 0 <= i < |ps|
      ensures |Split(ps[i].vm.resourceId, '/')| >= 3 && Split(ps[i].vm.resourceId, '/')[2] == ps[i].subscription
    {
      ParseLineKeyed(lines[i]);
    }
    forall i, j | 0 <= i < |g| && 0 <= j < |g[i].vms|
      ensures var segments := Split(g[i].vms[j].resourceId, '/');
        |segments| >= 3 && segments[2] == g[i].subscription
    {
      MembersKeyed(ps, g[i].subscription, j);
    }
  }

  lemma {:induction false} MembersKeyed(ps: seq<ParsedLine>, key: string, j: nat)
    requires forall i :: 0 <= i < |ps| ==>
      |Split(ps[i].vm.resourceId, '/')| >= 3 && Split(ps[i].vm.resourceId, '/')[2] == ps[i].subscription
    requires j < |Members(ps, key)|
    ensures var segments := Split(Members(ps, key)[j].resourceId, '/');
      |segments| >= 3 && segments[2] == key
    decreases |ps|
  {
    var init := ps[..|ps| - 1];
    if j < |Members(init, key)| {
      MembersKeyed(init, key, j);
    }
  }
}
