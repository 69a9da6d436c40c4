/**
 * The helpers of the `awsutils` library: the `.root` search, the port-wait loop,
 * CloudFormation stack lookup and the create/update/delete decision, the Ubuntu
 * AMI table lookup, and the argument dictionaries handed to boto3.
 *
 * Every boto3 answer (stack summaries, stack descriptions, the AMI table) is an
 * input; every boto3 request is returned as a `CfCall` or as the keyword
 * dictionary it would be called with. The library's copy of `retry` is the one
 * of module `Retry`.
 */
module AwsUtils {
  import opened Base
  import opened Text
  import opened Values

  /** The exceptions these helpers raise. */
  datatype AwsError =
    | RuntimeError(message: string)
    | IndexError
    | TypeError

  // ---------------------------------------------------------------- get_root

  const NoRootMessage := "Got to the root and couldn't find a parent folder with .root"

  /**
   * `os.path.abspath(os.path.join(p, os.pardir))` on an absolute path given as its
   * list of components (`[]` is `/`): the last component goes, and `/` is its own parent.
   */
  function Parent(p: seq<string>): (q: seq<string>)
    ensures q == p <==> p == []
    ensures p != [] ==> q == p[..|p| - 1]
  {
    if p == [] then [] else p[..|p| - 1]
  }

  /**
   * `get_root`: from the module's directory `start`, walk to the parent until a
   * directory holds `.root` (`hasRoot`). The result is the nearest such
   * ancestor-or-self; when `/` is reached without one, `RuntimeError`.
   */
  method GetRoot(start: seq<string>, hasRoot: seq<string> -> bool) returns (r: Result<seq<string>, AwsError>)
    ensures r.Ok? <==> exists n :: 0 <= n <= |start| && hasRoot(start[..n])
    ensures r.Ok? ==> exists n :: 0 <= n <= |start| && r.value == start[..n] && hasRoot(r.value)
                        && forall m :: n < m <= |start| ==> !hasRoot(start[..m])
    ensures r.Err? ==> r.error == RuntimeError(NoRootMessage)
  {
    var curpath := start;
    while !hasRoot(curpath)
      invariant |curpath| <= |start| && curpath == start[..|curpath|]
      invariant forall m :: |curpath| < m <= |start| ==> !hasRoot(start[..m])
      decreases |curpath|
    {
      var parent := Parent(curpath);
      if parent == curpath {
        assert forall m :: 0 <= m <= |start| ==> !hasRoot(start[..m]) by {
          assert start[..0] == curpath;
        }
        return Err(RuntimeError(NoRootMessage));
      }
      curpath := parent;
    }
    return Ok(curpath);
  }

  // ---------------------------------------------------------------- wait_port_open

  /** What one `s.connect((server, port))` did. */
  datatype Connect =
    | Connected
    | ConnectionErr     // `ConnectionError` (refused, reset, aborted)
    | AddressErr        // `socket.gaierror`
    | SocketTimeout     // `socket.timeout`
    | TimeoutErr        // `TimeoutError` from the network library
    | OtherOSErr        // any other `OSError`: not caught

  /** How `wait_port_open` ended. `Waiting` means the given connect answers ran out first. */
  datatype Waited = Done(open: bool) | RaisedTimeout | RaisedOSError | Waiting

  /** `if timeout:`: `None` and `0` both mean wait forever. */
  predicate Armed(timeout: Option<int>) {
    timeout.Some? && timeout.value != 0
  }

  /**
   * One pass of the loop body after the sleep, given the remaining time `end - now()`
   * (looked at only when a timeout is set) and the connect answer: `None` loops again.
   */
  function Pass(armed: bool, remaining: int, c: Connect): (r: Option<Waited>)
    ensures r != Some(Waiting)
  {
    if armed && remaining < 0 then Some(Done(false))
    else
      match c
      case Connected => Some(Done(true))
      case ConnectionErr => None
      case AddressErr => Some(Done(false))
      case SocketTimeout => if armed then Some(Done(false)) else None
      case TimeoutErr => Some(RaisedTimeout)
      case OtherOSErr => Some(RaisedOSError)
  }

  /** What pass `j` does after its sleep; `clock(0)` is the `now()` read before the loop, `clock(j + 1)` the one of pass `j`. */
  function PassAt(timeout: Option<int>, clock: nat -> int, connects: seq<Connect>, j: nat): Option<Waited>
    requires j < |connects|
  {
    var remaining := if Armed(timeout) then clock(0) + timeout.value - clock(j + 1) else 0;
    Pass(Armed(timeout), remaining, connects[j])
  }

  /**
   * The loop from pass `k` with `sleep_s == sleepS`. The second component is the
   * list of `time.sleep` arguments, one per pass.
   */
  function WaitLoop(timeout: Option<int>, clock: nat -> int, connects: seq<Connect>,
                    k: nat, sleepS: int): (Waited, seq<int>)
    decreases |connects| - k
  {
    if k >= |connects| then (Waiting, [])
    else
      match PassAt(timeout, clock, connects, k)
      case Some(w) => (w, [sleepS])
      case None =>
        var next := if connects[k] == ConnectionErr && sleepS == 0 then 1 else sleepS;
        var rest := WaitLoop(timeout, clock, connects, k + 1, next);
        (rest.0, [sleepS] + rest.1)
  }

  /** `wait_port_open(server, port, timeout)` over the given connect answers. */
  method WaitPortOpen(timeout: Option<int>, clock: nat -> int, connects: seq<Connect>)
    returns (result: Waited, sleeps: seq<int>)
    ensures result == WaitLoop(timeout, clock, connects, 0, 0).0
    ensures sleeps == WaitLoop(timeout, clock, connects, 0, 0).1
  {
    var sleepS := 0;
    var end := if Armed(timeout) then clock(0) + timeout.value else 0;
    var k := 0;
    sleeps := [];
    while k < |connects|
      invariant k <= |connects|
      invariant WaitLoop(timeout, clock, connects, 0, 0).0 == WaitLoop(timeout, clock, connects, k, sleepS).0
      invariant WaitLoop(timeout, clock, connects, 0, 0).1 == sleeps + WaitLoop(timeout, clock, connects, k, sleepS).1
      decreases |connects| - k
    {
      sleeps := sleeps + [sleepS];
      if Armed(timeout) {
        var nextTimeout := end - clock(k + 1);
        if nextTimeout < 0 {
          return Done(false), sleeps;
        }
      }
      match connects[k] {
        case Connected =>
          return Done(true), sleeps;
        case ConnectionErr =>
          if sleepS == 0 {
            sleepS := 1;
          }
        case AddressErr =>
          return Done(false), sleeps;
        case SocketTimeout =>
          if Armed(timeout) {
          return Done(false), sleeps;
          }
        case TimeoutErr =>
          return RaisedTimeout, sleeps;
        case OtherOSErr =>
          return RaisedOSError, sleeps;
      }
      k := k + 1;
    }
    assert WaitLoop(timeout, clock, connects, k, sleepS) == (Waiting, []);
    result := Waiting;
  }

  /** Whether pass `j` ends the loop. */
  predicate Stops(timeout: Option<int>, clock: nat -> int, connects: seq<Connect>, j: nat)
    requires j < |connects|
  {
    PassAt(timeout, clock, connects, j).Some?
  }

  /** The loop from pass `k`: how many passes it makes, what it sleeps, how it ends. */
  lemma {:induction false} WaitLoopFacts(timeout: Option<int>, clock: nat -> int, connects: seq<Connect>,
                                         k: nat, sleepS: int)
    requires k <= |connects|
    requires sleepS == 0 || sleepS == 1
    ensures var (w, sleeps) := WaitLoop(timeout, clock, connects, k, sleepS);
      && k + |sleeps| <= |connects|
      && (forall j :: k <= j < k + |sleeps| - 1 ==> !Stops(timeout, clock, connects, j))
      && (w == Waiting <==> k + |sleeps| == |connects| && forall j :: k <= j < |connects| ==> !Stops(timeout, clock, connects, j))
      && (w != Waiting ==> |sleeps| >= 1 && PassAt(timeout, clock, connects, k + |sleeps| - 1) == Some(w))
      && (forall i :: 0 <= i < |sleeps| ==>
            sleeps[i] == if sleepS == 1 || ConnectionErr in connects[k..k + i] then 1 else 0)
    decreases |connects| - k
  {
    if k < |connects| {
      if PassAt(timeout, clock, connects, k).None? {
        var next := if connects[k] == ConnectionErr && sleepS == 0 then 1 else sleepS;
        WaitLoopFacts(timeout, clock, connects, k + 1, next);
        var rest := WaitLoop(timeout, clock, connects, k + 1, next);
        var sleeps := WaitLoop(timeout, clock, connects, k, sleepS).1;
        assert sleeps == [sleepS] + rest.1;
        assert WaitLoop(timeout, clock, connects, k, sleepS).0 == rest.0;
        assert k + |sleeps| - 1 == k + 1 + |rest.1| - 1;
        assert (forall j :: k <= j < |connects| ==> !Stops(timeout, clock, connects, j))
           <==> (forall j :: k + 1 <= j < |connects| ==> !Stops(timeout, clock, connects, j));
        forall i | 0 <= i < |sleeps|
          ensures sleeps[i] == if sleepS == 1 || ConnectionErr in connects[k..k + i] then 1 else 0
        {
          if i > 0 {
            assert connects[k..k + i] == [connects[k]] + connects[k + 1..k + 1 + (i - 1)];
          }
        }
      } else {
        assert Stops(timeout, clock, connects, k);
      }
    }
  }

  /**
   * `sleep_s` starts at 0 and is 1 from the pass after the first `ConnectionError`
   * on: the i-th sleep is 1 exactly when some earlier connect was refused, so it
   * never goes back to 0 and never takes another value.
   */
  lemma SleepSchedule(timeout: Option<int>, clock: nat -> int, connects: seq<Connect>)
    ensures var sleeps := WaitLoop(timeout, clock, connects, 0, 0).1;
      && |sleeps| <= |connects|
      && (|sleeps| > 0 ==> sleeps[0] == 0)
      && (forall i :: 0 <= i < |sleeps| ==> sleeps[i] == if ConnectionErr in connects[..i] then 1 else 0)
      && (forall i, j :: 0 <= i <= j < |sleeps| ==> sleeps[i] <= sleeps[j])
  {
    WaitLoopFacts(timeout, clock, connects, 0, 0);
    var sleeps := WaitLoop(timeout, clock, connects, 0, 0).1;
    forall i, j | 0 <= i <= j < |sleeps| ensures sleeps[i] <= sleeps[j] {
      if ConnectionErr in connects[..i] {
        assert connects[..i] == connects[..j][..i];
      }
    }
  }

  /**
   * The loop's result is that of its first stopping pass: a connect that succeeds
   * gives `True`, a `gaierror` gives `False`, a `TimeoutError` propagates; with a
   * timeout set, a negative remaining time or a `socket.timeout` gives `False`,
   * without one a `socket.timeout` is swallowed like a `ConnectionError`.
   */
  lemma WaitOutcome(timeout: Option<int>, clock: nat -> int, connects: seq<Connect>)
    ensures var (w, sleeps) := WaitLoop(timeout, clock, connects, 0, 0);
      w != Waiting ==>
        var j := |sleeps| - 1;
        && 0 <= j < |connects|
        && (forall i :: 0 <= i < j ==> !Stops(timeout, clock, connects, i))
        && var expired := Armed(timeout) && clock(0) + timeout.value - clock(j + 1) < 0;
        && (w == Done(true) <==> !expired && connects[j] == Connected)
        && (w == Done(false) <==>
              expired || connects[j] == AddressErr || (Armed(timeout) && connects[j] == SocketTimeout))
        && (w == RaisedTimeout <==> !expired && connects[j] == TimeoutErr)
  {
    WaitLoopFacts(timeout, clock, connects, 0, 0);
  }

  /** Without a timeout `wait_port_open` answers `False` only after a `gaierror`. */
  lemma FalseWithoutTimeoutNeedsGaierror(timeout: Option<int>, clock: nat -> int, connects: seq<Connect>)
    requires !Armed(timeout)
    ensures WaitLoop(timeout, clock, connects, 0, 0).0 == Done(false) ==>
              exists j :: 0 <= j < |connects| && connects[j] == AddressErr
  {
    WaitOutcome(timeout, clock, connects);
  }

  /** With a timeout set and the deadline already past at the first pass, the answer is `False` after one sleep of 0. */
  lemma ExpiredDeadline(timeout: Option<int>, clock: nat -> int, connects: seq<Connect>)
    requires Armed(timeout) && |connects| > 0
    requires clock(1) > clock(0) + timeout.value
    ensures WaitLoop(timeout, clock, connects, 0, 0) == (Done(false), [0])
  {
  }

  // ---------------------------------------------------------------- stacks

  /** One entry of `list_stacks()['StackSummaries']`. */
  datatype StackSummary = StackSummary(name: string, status: string)

  /** One entry of a stack description's `Outputs`. */
  datatype Output = Output(key: string, value: string)

  /** `describe_stacks(StackName=...)['Stacks'][0]`: its status and, if present, its outputs. */
  datatype StackDescription = StackDescription(status: string, outputs: Option<seq<Output>>)

  /** A stack `name` is listed and not deleted. */
  predicate Listed(stacks: seq<StackSummary>, name: string) {
    exists i :: 0 <= i < |stacks| && stacks[i].status != "DELETE_COMPLETE" && stacks[i].name == name
  }

  /** `stack_exists`: scan the summaries, skipping deleted stacks, for `stack_name`. */
  method StackExists(stacks: seq<StackSummary>, stackName: string) returns (b: bool)
    ensures b <==> Listed(stacks, stackName)
  {
    for i := 0 to |stacks|
      invariant forall j :: 0 <= j < i ==> !(stacks[j].status != "DELETE_COMPLETE" && stacks[j].name == stackName)
    {
      if stacks[i].status == "DELETE_COMPLETE" {
        continue;
      }
      if stackName == stacks[i].name {
        return true;
      }
    }
    return false;
  }

  /** The `OutputValue`s whose `OutputKey` is `ArtifactBucket`, in the order of the outputs. */
  function ArtifactBuckets(outputs: seq<Output>): (buckets: seq<string>)
    ensures |buckets| <= |outputs|
  {
    if outputs == [] then []
    else
      var last := outputs[|outputs| - 1];
      ArtifactBuckets(outputs[..|outputs| - 1]) + (if last.key == "ArtifactBucket" then [last.value] else [])
  }

  /** The bucket list `delete_stack_s3_content` builds: nothing when the stack has no `Outputs`. */
  method CollectBuckets(description: StackDescription) returns (buckets: seq<string>)
    ensures buckets == if description.outputs.None? then [] else ArtifactBuckets(description.outputs.value)
  {
    buckets := [];
    if description.outputs.None? {
      return;
    }
    var outputs := description.outputs.value;
    for i := 0 to |outputs|
      invariant buckets == ArtifactBuckets(outputs[..i])
    {
      assert outputs[..i + 1][..i] == outputs[..i];
      if outputs[i].key == "ArtifactBucket" {
        buckets := buckets + [outputs[i].value];
      }
    }
    assert outputs[..|outputs|] == outputs;
  }

  /** The bucket list of a concatenation is the concatenation of the bucket lists: order is kept. */
  lemma {:induction false} ArtifactBucketsAppend(a: seq<Output>, b: seq<Output>)
    ensures ArtifactBuckets(a + b) == ArtifactBuckets(a) + ArtifactBuckets(b)
    decreases |b|
  {
    if b != [] {
      var b' := b[..|b| - 1];
      assert (a + b)[..|a + b| - 1] == a + b';
      ArtifactBucketsAppend(a, b');
    } else {
      assert a + b == a;
    }
  }

  /** A bucket is in the list exactly when some output names it under the key `ArtifactBucket`. */
  lemma {:induction false} ArtifactBucketsMembers(outputs: seq<Output>, bucket: string)
    ensures bucket in ArtifactBuckets(outputs) <==>
              exists i :: 0 <= i < |outputs| && outputs[i] == Output("ArtifactBucket", bucket)
  {
    if outputs != [] {
      var init := outputs[..|outputs| - 1];
      ArtifactBucketsMembers(init, bucket);
      if bucket in ArtifactBuckets(init) {
        var i :| 0 <= i < |init| && init[i] == Output("ArtifactBucket", bucket);
        assert outputs[i] == init[i];
      }
      if exists i :: 0 <= i < |outputs| && outputs[i] == Output("ArtifactBucket", bucket) {
        var i :| 0 <= i < |outputs| && outputs[i] == Output("ArtifactBucket", bucket);
        if i < |init| {
          assert init[i] == outputs[i];
        }
      }
    }
  }

  /** The requests made to CloudFormation, S3 and the waiters, in order. */
  datatype CfCall =
    | ValidateTemplate(body: string)
    | EmptyBucket(bucket: string)
    | DeleteStackCall(name: string)
    | CreateStack(args: map<string, Value>)
    | UpdateStack(args: map<string, Value>)
    | Wait(waiter: string, name: string)

  /** Empty each bucket in turn. */
  function EmptyBuckets(buckets: seq<string>): (calls: seq<CfCall>)
    ensures |calls| == |buckets|
    ensures forall i :: 0 <= i < |buckets| ==> calls[i] == EmptyBucket(buckets[i])
  {
    seq(|buckets|, i requires 0 <= i < |buckets| => EmptyBucket(buckets[i]))
  }

  /**
   * `delete_stack`: nothing unless the stack is listed; otherwise empty its artifact
   * buckets, delete it and wait for `stack_delete_complete`.
   */
  function DeleteStack(stacks: seq<StackSummary>, description: StackDescription, name: string): (calls: seq<CfCall>)
    ensures calls == [] <==> !Listed(stacks, name)
    ensures Listed(stacks, name) ==>
      var buckets := if description.outputs.None? then [] else ArtifactBuckets(description.outputs.value);
      && |calls| == |buckets| + 2
      && (forall i :: 0 <= i < |buckets| ==> calls[i] == EmptyBucket(buckets[i]))
      && calls[|buckets|] == DeleteStackCall(name)
      && calls[|buckets| + 1] == Wait("stack_delete_complete", name)
  {
    if Listed(stacks, name) then
      var buckets := if description.outputs.None? then [] else ArtifactBuckets(description.outputs.value);
      EmptyBuckets(buckets) + [DeleteStackCall(name), Wait("stack_delete_complete", name)]
    else []
  }

  /** The default `stack_params` of `instantiate_CF_template`, updated with the caller's `params`. */
  function StackParams(stackName: string, body: string, params: map<string, Value>): (args: map<string, Value>)
    ensures args.Keys == {"StackName", "TemplateBody", "Parameters", "Capabilities"} + params.Keys
    ensures forall k :: k in params ==> args[k] == params[k]
    ensures "StackName" !in params ==> args["StackName"] == VStr(stackName)
    ensures "TemplateBody" !in params ==> args["TemplateBody"] == VStr(body)
    ensures "Parameters" !in params ==> args["Parameters"] == VList([])
    ensures "Capabilities" !in params ==> args["Capabilities"] == StrList(["CAPABILITY_IAM"])
  {
    Update(map["StackName" := VStr(stackName), "TemplateBody" := VStr(body),
               "Parameters" := VList([]), "Capabilities" := StrList(["CAPABILITY_IAM"])],
           params)
  }

  /**
   * `instantiate_CF_template`: validate the template; if the stack is not listed,
   * create it; if it is listed in `ROLLBACK_COMPLETE`, delete it and create it
   * again; otherwise update it. Each request is followed by its waiter.
   */
  function InstantiateTemplate(stackName: string, body: string, params: map<string, Value>,
                               stacks: seq<StackSummary>, description: StackDescription): seq<CfCall>
  {
    var args := StackParams(stackName, body, params);
    [ValidateTemplate(body)] +
    if !Listed(stacks, stackName) then
      [CreateStack(args), Wait("stack_create_complete", stackName)]
    else if description.status == "ROLLBACK_COMPLETE" then
      DeleteStack(stacks, description, stackName) + [CreateStack(args), Wait("stack_create_complete", stackName)]
    else
      [UpdateStack(args), Wait("stack_update_complete", stackName)]
  }

  /** The create/delete-then-create/update decision, and the arguments each request carries. */
  lemma InstantiateDecision(stackName: string, body: string, params: map<string, Value>,
                            stacks: seq<StackSummary>, description: StackDescription)
    ensures var calls := InstantiateTemplate(stackName, body, params, stacks, description);
      var args := StackParams(stackName, body, params);
      && calls[0] == ValidateTemplate(body)
      && (!Listed(stacks, stackName) ==>
            calls == [ValidateTemplate(body), CreateStack(args), Wait("stack_create_complete", stackName)])
      && (Listed(stacks, stackName) && description.status == "ROLLBACK_COMPLETE" ==>
            && calls == [ValidateTemplate(body)] + DeleteStack(stacks, description, stackName)
                        + [CreateStack(args), Wait("stack_create_complete", stackName)]
            && calls[|calls| - 3] == Wait("stack_delete_complete", stackName)
            && calls[|calls| - 2] == CreateStack(args)
            && calls[|calls| - 1] == Wait("stack_create_complete", stackName))
      && (Listed(stacks, stackName) && description.status != "ROLLBACK_COMPLETE" ==>
            calls == [ValidateTemplate(body), UpdateStack(args), Wait("stack_update_complete", stackName)])
      && (forall c :: c in calls && (c.CreateStack? || c.UpdateStack?) ==> c.args == args)
  {
    var calls := InstantiateTemplate(stackName, body, params, stacks, description);
    var args := StackParams(stackName, body, params);
    if Listed(stacks, stackName) && description.status == "ROLLBACK_COMPLETE" {
      var del := DeleteStack(stacks, description, stackName);
      assert forall c :: c in del ==> !c.CreateStack? && !c.UpdateStack?;
      assert calls == [ValidateTemplate(body)] + del + [CreateStack(args), Wait("stack_create_complete", stackName)];
    }
  }

  // ---------------------------------------------------------------- get_ubuntu_ami

  /**
   * The condition of `get_ubuntu_ami`'s comprehension on one row, evaluated left to
   * right with `and` short-circuiting: indexing a column the row lacks raises `IndexError`.
   */
  function RowMatches(x: seq<string>, region: string, release: string, arch: string, instanceType: string)
    : (r: Result<bool, AwsError>)
    ensures |x| >= 5 ==> r == Ok(x[0] == region && StartsWith(x[2], release) && x[3] == arch && x[4] == instanceType)
  {
    if |x| < 1 then Err(IndexError)
    else if x[0] != region then Ok(false)
    else if |x| < 3 then Err(IndexError)
    else if !StartsWith(x[2], release) then Ok(false)
    else if |x| < 4 then Err(IndexError)
    else if x[3] != arch then Ok(false)
    else if |x| < 5 then Err(IndexError)
    else Ok(x[4] == instanceType)
  }

  /** The comprehension `res`: the matching rows in table order, or the first row's `IndexError`. */
  function MatchingRows(rows: seq<seq<string>>, region: string, release: string, arch: string,
                        instanceType: string): (r: Result<seq<seq<string>>, AwsError>)
    decreases |rows|
  {
    if rows == [] then Ok([])
    else
      var head :- RowMatches(rows[0], region, release, arch, instanceType);
      var rest :- MatchingRows(rows[1..], region, release, arch, instanceType);
      Ok(if head then [rows[0]] + rest else rest)
  }

  /** `get_ubuntu_ami`: the link of the first matching row, column 6, with its HTML tags removed. */
  function GetUbuntuAmi(rows: seq<seq<string>>, region: string, release: string, arch: string,
                        instanceType: string): Result<string, AwsError>
  {
    var res :- MatchingRows(rows, region, release, arch, instanceType);
    if |res| == 0 || |res[0]| < 7 then Err(IndexError) else Ok(StripTags(res[0][6]))
  }

  /** Whether a row of the AMI table is the one asked for. */
  predicate IsWanted(x: seq<string>, region: string, release: string, arch: string, instanceType: string)
    requires |x| >= 5
  {
    x[0] == region && StartsWith(x[2], release) && x[3] == arch && x[4] == instanceType
  }

  /** On well-formed rows, `res` holds exactly the wanted rows in order, and the first is the first wanted. */
  lemma {:induction false} MatchingRowsFirst(rows: seq<seq<string>>, region: string, release: string,
                                             arch: string, instanceType: string)
    requires forall i :: 0 <= i < |rows| ==> |rows[i]| >= 7
    ensures var r := MatchingRows(rows, region, release, arch, instanceType);
      && r.Ok?
      && (|r.value| == 0 <==> forall i :: 0 <= i < |rows| ==> !IsWanted(rows[i], region, release, arch, instanceType))
      && (|r.value| > 0 ==>
            exists i :: (0 <= i < |rows| && r.value[0] == rows[i]
                         && IsWanted(rows[i], region, release, arch, instanceType)
                         && forall j :: 0 <= j < i ==> !IsWanted(rows[j], region, release, arch, instanceType)))
    decreases |rows|
  {
    if rows != [] {
      MatchingRowsFirst(rows[1..], region, release, arch, instanceType);
      var rest := MatchingRows(rows[1..], region, release, arch, instanceType).value;
      if !IsWanted(rows[0], region, release, arch, instanceType) && |rest| > 0 {
        var i :| 0 <= i < |rows[1..]| && rest[0] == rows[1..][i]
            && IsWanted(rows[1..][i], region, release, arch, instanceType)
            && forall j :: 0 <= j < i ==> !IsWanted(rows[1..][j], region, release, arch, instanceType);
        assert forall j :: 0 <= j < i + 1 ==> !IsWanted(rows[j], region, release, arch, instanceType) by {
          forall j | 0 <= j < i + 1 ensures !IsWanted(rows[j], region, release, arch, instanceType) {
            if j > 0 {
              assert rows[j] == rows[1..][j - 1];
            }
          }
        }
      }
      if |MatchingRows(rows, region, release, arch, instanceType).value| == 0 {
        forall i | 0 <= i < |rows| ensures !IsWanted(rows[i], region, release, arch, instanceType) {
          if i > 0 {
            assert rows[i] == rows[1..][i - 1];
          }
        }
      }
    }
  }

  /**
   * On a table of well-formed rows, `get_ubuntu_ami` raises `IndexError` exactly when
   * no row is wanted, and otherwise answers the first wanted row's link without its tags.
   */
  lemma UbuntuAmiSelection(rows: seq<seq<string>>, region: string, release: string, arch: string,
                           instanceType: string)
    requires forall i :: 0 <= i < |rows| ==> |rows[i]| >= 7
    ensures var r := GetUbuntuAmi(rows, region, release, arch, instanceType);
      && (r == Err(IndexError) <==> forall i :: 0 <= i < |rows| ==> !IsWanted(rows[i], region, release, arch, instanceType))
      && (r.Ok? ==>
            exists i :: (0 <= i < |rows| && r.value == StripTags(rows[i][6])
                         && IsWanted(rows[i], region, release, arch, instanceType)
                         && forall j :: 0 <= j < i ==> !IsWanted(rows[j], region, release, arch, instanceType)))
  {
    MatchingRowsFirst(rows, region, release, arch, instanceType);
  }

  /**
   * Where the tag that `<[^<]+?>` matches at the start of `s` ends: `s[0]` is `<`,
   * at least one character that is not `<` follows, and the match ends at the first
   * `>` after it (the lazy quantifier), provided no `<` comes first.
   */
  function TagEnd(s: string): (r: Option<nat>)
    ensures r.Some? ==> 2 <= r.value < |s| && s[0] == '<' && s[r.value] == '>'
                        && (forall j :: 1 <= j < r.value ==> s[j] != '<')
                        && (forall j :: 2 <= j < r.value ==> s[j] != '>')
    ensures r.None? ==> !(exists e :: 2 <= e < |s| && s[0] == '<' && s[e] == '>'
                                      && forall j :: 1 <= j < e ==> s[j] != '<')
  {
    if |s| >= 2 && s[0] == '<' && s[1] != '<' then CloseFrom(s, 2) else None
  }

  /** The first `j >= from` with `s[j] == '>'`, unless a `<` comes first. */
  function CloseFrom(s: string, from: nat): (r: Option<nat>)
    requires 2 <= from && |s| >= 2 && s[0] == '<' && forall j :: 1 <= j < from && j < |s| ==> s[j] != '<'
    ensures r.Some? ==> from <= r.value < |s| && s[r.value] == '>'
                        && (forall j :: 1 <= j < r.value ==> s[j] != '<')
                        && (forall j :: from <= j < r.value ==> s[j] != '>')
    ensures r.None? ==> !(exists e :: from <= e < |s| && s[e] == '>' && forall j :: 1 <= j < e ==> s[j] != '<')
    decreases |s| - from
  {
    if from >= |s| then None
    else if s[from] == '>' then Some(from)
    else if s[from] == '<' then None
    else CloseFrom(s, from + 1)
  }

  /** `re.sub('<[^<]+?>', '', s)`: every tag the left-to-right scan finds is removed. */
  function StripTags(s: string): (r: string)
    ensures |r| <= |s|
    decreases |s|
  {
    if s == [] then []
    else match TagEnd(s)
      case Some(e) => StripTags(s[e + 1..])
      case None => [s[0]] + StripTags(s[1..])
  }

  /** Text without `<` holds no tag and is kept as it is. */
  lemma {:induction false} StripTagsPlain(a: string, b: string)
    requires '<' !in a
    ensures StripTags(a + b) == a + StripTags(b)
    decreases |a|
  {
    if a != [] {
      assert (a + b)[1..] == a[1..] + b;
      StripTagsPlain(a[1..], b);
    } else {
      assert a + b == b;
    }
  }

  /** A tag `<t>` whose text has neither `<` nor `>` is removed whole. */
  lemma StripTagsTag(t: string, rest: string)
    requires t != [] && '<' !in t && '>' !in t
    ensures StripTags("<" + t + ">" + rest) == StripTags(rest)
  {
    var s := "<" + t + ">" + rest;
    assert s[|t| + 1] == '>';
    assert forall j :: 1 <= j < |t| + 1 ==> s[j] == t[j - 1];
    assert TagEnd(s) == Some(|t| + 1);
    assert s[|t| + 2..] == rest;
  }

  /** The opening tag's text and the id of the AMI table's sample link, in short pieces. */
  const SampleHref := "a href=\"https://" + "console.aws.amazon" + ".com/ec2/home" + "?region=us-east-1"
                      + "#launchAmi=" + "ami-71e2b40e\""
  const SampleId := "ami-71e2b40e"

  /** The link of the table's sample row, `<a href="...">ami-71e2b40e</a>`, gives its AMI id. */
  lemma StripTagsSampleLink()
    ensures StripTags("<" + SampleHref + ">" + SampleId + "</a>") == SampleId
  {
    assert '<' !in SampleHref && '>' !in SampleHref;
    StripTagsTag(SampleHref, SampleId + "</a>");
    StripTagsPlain(SampleId, "</a>");
    StripTagsTag("/a", "");
    assert "<" + SampleHref + ">" + SampleId + "</a>" == "<" + SampleHref + ">" + (SampleId + "</a>");
    assert "</a>" == "<" + "/a" + ">" + "";
    assert SampleId + [] == SampleId;
  }

  // ---------------------------------------------------------------- inventory and filters

  /** The host table of `yaml_ansible_inventory`, as its loop fills it. */
  function HostTable(hosts: seq<string>): map<string, Value> {
    if hosts == [] then map[] else HostTable(hosts[..|hosts| - 1])[hosts[|hosts| - 1] := VNone]
  }

  /** The host table has one key per host, each mapped to `None`. */
  lemma {:induction false} HostTableMeaning(hosts: seq<string>)
    ensures HostTable(hosts).Keys == set h | h in hosts
    ensures forall h :: h in HostTable(hosts) ==> HostTable(hosts)[h] == VNone
  {
    if hosts != [] {
      var init := hosts[..|hosts| - 1];
      HostTableMeaning(init);
      assert hosts == init + [hosts[|hosts| - 1]];
      assert (set h | h in hosts) == (set h | h in init) + {hosts[|hosts| - 1]};
    }
  }

  /** `for h in hosts: hdict[h] = None`. */
  method HostDict(hosts: seq<string>) returns (hdict: map<string, Value>)
    ensures hdict == HostTable(hosts)
  {
    hdict := map[];
    for i := 0 to |hosts|
      invariant hdict == HostTable(hosts[..i])
    {
      assert hosts[..i + 1][..i] == hosts[..i];
      hdict := hdict[hosts[i] := VNone];
    }
    assert hosts[..|hosts|] == hosts;
  }

  /** The document `yaml_ansible_inventory` dumps: every host under `all.hosts`, the keyword arguments under `all.vars`. */
  function Inventory(hosts: seq<string>, vars: map<string, Value>): (doc: Value)
    ensures doc.VDict? && doc.entries.Keys == {"all"}
    ensures var all := doc.entries["all"];
      all.VDict? && all.entries.Keys == {"hosts", "vars"} && all.entries["vars"] == VDict(vars)
      && all.entries["hosts"].VDict? && all.entries["hosts"].entries.Keys == set h | h in hosts
  {
    HostTableMeaning(hosts);
    VDict(map["all" := VDict(map["hosts" := VDict(HostTable(hosts)), "vars" := VDict(vars)])])
  }

  /** One entry of the `Filters` list of `instances.filter`. */
  datatype Filter = Filter(name: string, values: seq<string>)

  /** `get_tagged_instances`: one filter per `(key, value)` tag, then the live instance states. */
  method TaggedInstanceFilters(tags: seq<(string, string)>) returns (filters: seq<Filter>)
    ensures |filters| == |tags| + 1
    ensures forall i :: 0 <= i < |tags| ==> filters[i] == Filter("tag:" + tags[i].0, [tags[i].1])
    ensures filters[|tags|] == Filter("instance-state-name", ["pending", "starting", "running"])
  {
    filters := [];
    for i := 0 to |tags|
      invariant |filters| == i
      invariant forall j :: 0 <= j < i ==> filters[j] == Filter("tag:" + tags[j].0, [tags[j].1])
    {
      var (k, v) := tags[i];
      filters := filters + [Filter("tag:" + k, [v])];
    }
    filters := filters + [Filter("instance-state-name", ["pending", "starting", "running"])];
  }

  // ---------------------------------------------------------------- create_instances / create_image

  /**
   * What `for iface in v: iface['Groups'] = ...` can iterate without raising: the
   * dictionaries of a list of dictionaries, or nothing for an empty string or dict.
   * Anything else raises `TypeError` (not iterable, or an element that is not a dict).
   */
  function InterfaceDicts(v: Value): (r: Result<seq<map<string, Value>>, AwsError>)
    ensures r.Ok? && v.VList? ==> |r.value| == |v.items| && forall i :: 0 <= i < |v.items| ==> v.items[i] == VDict(r.value[i])
    ensures r.Err? <==> !(v.VList? && forall i :: 0 <= i < |v.items| ==> v.items[i].VDict?)
                        && v != VStr("") && v != VDict(map[])
  {
    match v
    case VList(items) =>
      if forall i :: 0 <= i < |items| ==> items[i].VDict? then
        Ok(seq(|items|, i requires 0 <= i < |items| => items[i].entries))
      else Err(TypeError)
    case VStr(s) => if s == [] then Ok([]) else Err(TypeError)
    case VDict(m) => if m == map[] then Ok([]) else Err(TypeError)
    case _ => Err(TypeError)
  }

  /**
   * The keyword arguments `create_instances` passes to `ec2.create_instances`:
   * image, counts, key, type and user data, then either the security groups put
   * into every network interface (in place) or `SecurityGroupIds`, and finally the
   * caller's `create_instance_kwargs` on top.
   */
  method CreateInstancesKwargs(ami: string, keyName: string, instanceType: string, userData: string,
                               securityGroups: seq<string>, createKwargs: map<string, Value>, instanceCount: int)
    returns (r: Result<map<string, Value>, AwsError>)
    ensures "NetworkInterfaces" in createKwargs ==> (r.Err? <==> InterfaceDicts(createKwargs["NetworkInterfaces"]).Err?)
    ensures "NetworkInterfaces" !in createKwargs ==> r.Ok?
    ensures r.Ok? ==> var kw := r.value;
      && kw.Keys == {"ImageId", "MinCount", "MaxCount", "KeyName", "InstanceType", "UserData"}
                    + createKwargs.Keys
                    + (if "NetworkInterfaces" in createKwargs then {} else {"SecurityGroupIds"})
      && (forall k :: k in createKwargs && k != "NetworkInterfaces" ==> k in kw && kw[k] == createKwargs[k])
      && (forall k :: k in {"ImageId", "MinCount", "MaxCount", "KeyName", "InstanceType", "UserData"} ==> k in kw)
      && ("ImageId" !in createKwargs ==> kw["ImageId"] == VStr(ami))
      && ("MinCount" !in createKwargs ==> kw["MinCount"] == VInt(instanceCount))
      && ("MaxCount" !in createKwargs ==> kw["MaxCount"] == VInt(instanceCount))
      && ("KeyName" !in createKwargs ==> kw["KeyName"] == VStr(keyName))
      && ("InstanceType" !in createKwargs ==> kw["InstanceType"] == VStr(instanceType))
      && ("UserData" !in createKwargs ==> kw["UserData"] == VStr(userData))
      && ("SecurityGroupIds" in kw <==> "NetworkInterfaces" !in createKwargs || "SecurityGroupIds" in createKwargs)
      && ("NetworkInterfaces" !in createKwargs && "SecurityGroupIds" !in createKwargs ==>
            kw["SecurityGroupIds"] == StrList(securityGroups))
      && ("NetworkInterfaces" in createKwargs ==>
            var ifaces := createKwargs["NetworkInterfaces"];
            "NetworkInterfaces" in kw &&
            if ifaces.VList? then
              var given := InterfaceDicts(ifaces).value;
              && kw["NetworkInterfaces"].VList? && |kw["NetworkInterfaces"].items| == |given|
              && forall i :: 0 <= i < |given| ==>
                   kw["NetworkInterfaces"].items[i] == VDict(given[i]["Groups" := StrList(securityGroups)])
            else kw["NetworkInterfaces"] == ifaces)
  {
    var kwargs := map["ImageId" := VStr(ami), "MinCount" := VInt(instanceCount),
                      "MaxCount" := VInt(instanceCount), "KeyName" := VStr(keyName),
                      "InstanceType" := VStr(instanceType), "UserData" := VStr(userData)];
    var extra := createKwargs;
    if "NetworkInterfaces" in createKwargs {
      var ifaces := InterfaceDicts(createKwargs["NetworkInterfaces"]);
      if ifaces.Err? {
        return Err(ifaces.error);
      }
      if createKwargs["NetworkInterfaces"].VList? {
        var given := ifaces.value;
        var updated: seq<Value> := [];
        for i := 0 to |given|
          invariant |updated| == i
          invariant forall j :: 0 <= j < i ==> updated[j] == VDict(given[j]["Groups" := StrList(securityGroups)])
        {
          updated := updated + [VDict(given[i]["Groups" := StrList(securityGroups)])];
        }
        extra := extra["NetworkInterfaces" := VList(updated)];
      }
    } else {
      kwargs := kwargs["SecurityGroupIds" := StrList(securityGroups)];
    }
    assert extra.Keys == createKwargs.Keys;
    var kw := Update(kwargs, extra);
    assert kw.Keys == kwargs.Keys + createKwargs.Keys;
    return Ok(kw);
  }

  /** `create_image`: the caller's keyword arguments with `InstanceId`, `Name` and `Description` forced. */
  function CreateImageKwargs(instanceId: string, imageName: string, imageDescription: string,
                             kwargs: map<string, Value>): (args: map<string, Value>)
    ensures args.Keys == kwargs.Keys + {"InstanceId", "Name", "Description"}
    ensures args["InstanceId"] == VStr(instanceId)
    ensures args["Name"] == VStr(imageName)
    ensures args["Description"] == VStr(imageDescription)
    ensures forall k :: k in kwargs && k !in {"InstanceId", "Name", "Description"} ==> args[k] == kwargs[k]
  {
    Update(kwargs, map["InstanceId" := VStr(instanceId), "Name" := VStr(imageName),
                       "Description" := VStr(imageDescription)])
  }
}
