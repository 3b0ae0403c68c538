/**
 * `GetAllPids` (libcontainer/cgroups/getallpids.go): every PID of a cgroup and of all
 * its sub-cgroups, collected by a `filepath.WalkDir` over the cgroup's directory.
 * The directory tree is a value: each directory carries the outcome of reading its
 * own `cgroup.procs` file (`readProcsFile`) and the outcome of listing it with
 * `os.ReadDir`: the error it reported, if any, and the entries it returned, sorted by
 * name, which is the order the walk visits them.
 */
module CgroupPids {
  import opened Wrappers

  /** A failed filesystem operation, with the path it names. */
  datatype IoError = IoError(path: string, reason: string)

  datatype Entry =
    | File(name: string)
    | Dir(name: string, procs: Result<seq<int>, IoError>, listError: Option<IoError>, children: seq<Entry>)

  /** What `GetAllPids` returns: Go returns the PIDs gathered so far together with the error. */
  datatype Walked = Walked(pids: seq<int>, err: Option<IoError>)

  /** The walk as `filepath.WalkDir` performs it, depth first, with the callback of
      `GetAllPids`: a file is skipped; a directory first has its procs file read (an
      error aborts), then its listing is reported (an error aborts), then its children
      are walked in order until one of them fails. */
  function Collect(e: Entry): Walked
    decreases e
  {
    match e
    case File(_) => Walked([], None)
    case Dir(_, procs, listError, children) =>
      if procs.Failure? then Walked([], Some(procs.error))
      else if listError.Some? then Walked(procs.value, listError)
      else
        var rest := CollectAll(children);
        Walked(procs.value + rest.pids, rest.err)
  }

  function CollectAll(es: seq<Entry>): Walked
    decreases es
  {
    if es == [] then Walked([], None)
    else
      var first := Collect(es[0]);
      if first.err.Some? then first
      else
        var rest := CollectAll(es[1..]);
        Walked(first.pids + rest.pids, rest.err)
  }

  /** `walkDir` with the `GetAllPids` callback; `acc` is the outer `pids` slice. */
  method WalkDir(e: Entry, acc: seq<int>) returns (pids: seq<int>, err: Option<IoError>)
    ensures pids == acc + Collect(e).pids && err == Collect(e).err
    decreases e
  {
    match e
    case File(_) =>
      // not a directory: nothing to read
      pids, err := acc, None;
    case Dir(_, procs, listError, children) =>
      if procs.Failure? {
        return acc, Some(procs.error);
      }
      pids := acc + procs.value;
      if listError.Some? {
        // the second callback call, which reports the ReadDir error, returns it
        return pids, listError;
      }
      var i := 0;
      while i < |children|
        invariant 0 <= i <= |children|
        invariant acc + Collect(e).pids == pids + CollectAll(children[i..]).pids
        invariant Collect(e).err == CollectAll(children[i..]).err
      {
        assert children[i..][1..] == children[i + 1..];
        var childErr;
        pids, childErr := WalkDir(children[i], pids);
        if childErr.Some? {
          return pids, childErr;
        }
        i := i + 1;
      }
      err := None;
  }

  /** `GetAllPids`. `root` is the outcome of `os.Lstat` on the walked path; a failure is
      handed to the callback, which returns it. */
  method GetAllPids(root: Result<Entry, IoError>) returns (pids: seq<int>, err: Option<IoError>)
    ensures root.Failure? ==> pids == [] && err == Some(root.error)
    ensures root.Success? ==> Walked(pids, err) == Collect(root.value)
  {
    if root.Failure? {
      return [], Some(root.error);
    }
    pids, err := WalkDir(root.value, []);
  }

  // ---------------------------------------------------------------- the walk as a stream of callback calls

  /** One call of the callback that can contribute or fail: the procs read of a
      directory, or the report of a failed directory listing. */
  datatype Visit = ReadProcs(procs: Result<seq<int>, IoError>) | ListFailed(error: IoError)

  predicate IsFailure(v: Visit) {
    v.ListFailed? || v.procs.Failure?
  }

  function FailureOf(v: Visit): IoError
    requires IsFailure(v)
  {
    if v.ListFailed? then v.error else v.procs.error
  }

  /** The visits in walk order (preorder, children in listing order), as if none failed. */
  function Trace(e: Entry): seq<Visit>
    decreases e
  {
    match e
    case File(_) => []
    case Dir(_, procs, listError, children) =>
      [ReadProcs(procs)] + (if listError.Some? then [ListFailed(listError.value)] else TraceAll(children))
  }

  function TraceAll(es: seq<Entry>): seq<Visit>
    decreases es
  {
    if es == [] then [] else Trace(es[0]) + TraceAll(es[1..])
  }

  /** The PIDs the successful visits of a stream contribute, concatenated in order. */
  function PidsOf(t: seq<Visit>): seq<int> {
    if t == [] then []
    else (if t[0].ReadProcs? && t[0].procs.Success? then t[0].procs.value else []) + PidsOf(t[1..])
  }

  /** The number of PIDs the successful visits contribute. */
  function ProcsCount(t: seq<Visit>): nat {
    if t == [] then 0
    else (if t[0].ReadProcs? && t[0].procs.Success? then |t[0].procs.value| else 0) + ProcsCount(t[1..])
  }

  /** The callback loop: append each directory's PIDs until the first failure, which stops it. */
  function Gather(t: seq<Visit>): Walked {
    if t == [] then Walked([], None)
    else if IsFailure(t[0]) then Walked([], Some(FailureOf(t[0])))
    else
      var rest := Gather(t[1..]);
      Walked(t[0].procs.value + rest.pids, rest.err)
  }

  lemma {:induction false} GatherAppend(a: seq<Visit>, b: seq<Visit>)
    ensures Gather(a + b) ==
            if Gather(a).err.Some? then Gather(a) else Walked(Gather(a).pids + Gather(b).pids, Gather(b).err)
  {
    if a == [] {
      assert a + b == b;
    } else {
      assert (a + b)[1..] == a[1..] + b;
      GatherAppend(a[1..], b);
    }
  }

  /** The recursive walk is the callback loop run over the preorder stream of visits. */
  lemma {:induction false} CollectIsGather(e: Entry)
    ensures Collect(e) == Gather(Trace(e))
    decreases e
  {
    match e
    case File(_) =>
    case Dir(_, procs, listError, children) =>
      var rest := if listError.Some? then [ListFailed(listError.value)] else TraceAll(children);
      GatherAppend([ReadProcs(procs)], rest);
      assert Gather([ReadProcs(procs)]) ==
             if procs.Failure? then Walked([], Some(procs.error)) else Walked(procs.value, None);
      if listError.None? {
        CollectAllIsGather(children);
      }
  }

  lemma {:induction false} CollectAllIsGather(es: seq<Entry>)
    ensures CollectAll(es) == Gather(TraceAll(es))
    decreases es
  {
    if es != [] {
      CollectIsGather(es[0]);
      CollectAllIsGather(es[1..]);
      GatherAppend(Trace(es[0]), TraceAll(es[1..]));
    }
  }

  /** Without failures the callback loop returns every PID of the stream, concatenated in
      order, and no error; with one it returns the first failure and the PIDs of the
      visits before it. */
  lemma {:induction false} GatherOutcome(t: seq<Visit>)
    ensures Gather(t).err.None? <==> forall k | 0 <= k < |t| :: !IsFailure(t[k])
    ensures Gather(t).err.None? ==> Gather(t).pids == PidsOf(t) && |Gather(t).pids| == ProcsCount(t)
    ensures Gather(t).err.Some? ==>
              exists k | 0 <= k < |t| ::
                && IsFailure(t[k])
                && (forall j | 0 <= j < k :: !IsFailure(t[j]))
                && Gather(t).err.value == FailureOf(t[k])
                && Gather(t).pids == PidsOf(t[..k])
  {
    if t != [] {
      GatherOutcome(t[1..]);
      if IsFailure(t[0]) {
        assert t[..0] == [];
      } else {
        assert forall k | 1 <= k < |t| :: t[k] == t[1..][k - 1];
        if Gather(t[1..]).err.Some? {
          var k :| 0 <= k < |t[1..]| && IsFailure(t[1..][k]) && (forall j | 0 <= j < k :: !IsFailure(t[1..][j]))
                   && Gather(t[1..]).err.value == FailureOf(t[1..][k]) && Gather(t[1..]).pids == PidsOf(t[1..][..k]);
          assert t[..k + 1][1..] == t[1..][..k];
          assert IsFailure(t[k + 1]);
        } else {
          PidsCount(t);
        }
      }
    }
  }

  lemma {:induction false} PidsCount(t: seq<Visit>)
    ensures |PidsOf(t)| == ProcsCount(t)
  {
    if t != [] {
      PidsCount(t[1..]);
    }
  }

  /** The walk of a tree: without failures, all PIDs of all directories in preorder; on a
      failure, the first failure in walk order and the PIDs of the directories read before it. */
  lemma WalkOutcome(e: Entry)
    ensures Collect(e).err.None? ==>
              Collect(e).pids == PidsOf(Trace(e)) && |Collect(e).pids| == ProcsCount(Trace(e))
    ensures Collect(e).err.None? <==> forall k | 0 <= k < |Trace(e)| :: !IsFailure(Trace(e)[k])
    ensures Collect(e).err.Some? ==>
              exists k | 0 <= k < |Trace(e)| ::
                && IsFailure(Trace(e)[k])
                && (forall j | 0 <= j < k :: !IsFailure(Trace(e)[j]))
                && Collect(e).err.value == FailureOf(Trace(e)[k])
                && Collect(e).pids == PidsOf(Trace(e)[..k])
  {
    CollectIsGather(e);
    GatherOutcome(Trace(e));
  }

  /** The root directory's own PIDs come first, even when a later step fails. */
  lemma RootPidsFirst(e: Entry)
    requires e.Dir? && e.procs.Success?
    ensures e.procs.value <= Collect(e).pids
  {
  }

  /** The entries that are directories, in their order. */
  function DirsOnly(es: seq<Entry>): seq<Entry> {
    if es == [] then [] else (if es[0].Dir? then [es[0]] else []) + DirsOnly(es[1..])
  }

  /** Files contribute nothing: walking a listing gives what walking its directories gives. */
  lemma {:induction false} FilesContributeNothing(es: seq<Entry>)
    ensures CollectAll(es) == CollectAll(DirsOnly(es))
  {
    if es != [] {
      FilesContributeNothing(es[1..]);
      if es[0].Dir? {
        assert DirsOnly(es) == [es[0]] + DirsOnly(es[1..]);
        assert DirsOnly(es)[1..] == DirsOnly(es[1..]);
      } else {
        assert DirsOnly(es) == DirsOnly(es[1..]);
        assert Collect(es[0]) == Walked([], None);
        assert [] + CollectAll(es[1..]).pids == CollectAll(es[1..]).pids;
      }
    }
  }

  /** A cgroup with PIDs 1 and 2, a child "a" holding 3 and an empty child "b". */
  lemma SmallTreeExample()
    ensures Collect(Dir("root", Success([1, 2]), None,
                        [Dir("a", Success([3]), None, []), Dir("b", Success([]), None, [])])) ==
            Walked([1, 2, 3], None)
  {
  }
}
