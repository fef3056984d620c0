/** The download queue of src/core/download_manager.py: an insertion-ordered
    dictionary of download entries keyed by remote-file id, a FIFO queue of
    ids, and a running flag with its worker count. One pass of the worker
    thread's loop is the step `ProcessNext`. */
module DownloadManager {
  import opened Wrappers
  import FD = FileDownloader

  /** The remote-file record the manager reads: its id, URL and name. */
  datatype RemoteFile = RemoteFile(id: int, url: string, name: string)

  datatype Status = Queued | Downloading | Completed | Failed | NotQueued

  /** An entry of `active_downloads`; `error` and `result` are the keys the
      worker adds when the download ends. */
  datatype Entry = Entry(file: RemoteFile, progress: real, status: Status,
                         error: Option<string>, result: Option<FD.DownloadResult>)

  /** What `get_download_status` returns: a copy of the entry, or the
      "not_queued" placeholder with no file. */
  datatype StatusView = StatusView(file: Option<RemoteFile>, progress: real, status: Status,
                                   error: Option<string>, result: Option<FD.DownloadResult>)

  /** The statuses an entry can have between two steps. */
  predicate Settled(s: Status) {
    s.Queued? || s.Completed? || s.Failed?
  }

  predicate NoDup(s: seq<int>) {
    forall i, j :: 0 <= i < j < |s| ==> s[i] != s[j]
  }

  /** `s` with `x` taken out, the rest in order. */
  function Without(s: seq<int>, x: int): (r: seq<int>)
    ensures forall y :: y in r <==> y in s && y != x
    ensures NoDup(s) ==> NoDup(r)
  {
    if s == [] then []
    else
      var rest := Without(s[1..], x);
      assert NoDup(s) ==> NoDup(s[1..]) && s[0] !in s[1..];
      (if s[0] == x then [] else [s[0]]) + rest
  }

  /** The value the progress callback last stored, starting from `p`. */
  function LastProgress(p: real, reports: seq<FD.Report>): real {
    if reports == [] then p
    else
      var last := reports[|reports| - 1];
      if last.total > 0 then last.done as real / last.total as real else p
  }

  /** The entry once the worker has handled the downloader's result. */
  function Finish(e: Entry, t: FD.Transfer): (r: Entry)
    ensures r.file == e.file && r.result == Some(t.result)
    ensures t.result.success ==> r.status == Completed && r.progress == 1.0 && r.error == e.error
    ensures !t.result.success ==>
      && r.status == Failed
      && r.error == t.result.error
      && r.progress == LastProgress(e.progress, t.progress)
  {
    var e' := e.(progress := LastProgress(e.progress, t.progress));
    if t.result.success then e'.(status := Completed, progress := 1.0, result := Some(t.result))
    else e'.(status := Failed, error := t.result.error, result := Some(t.result))
  }

  class Manager {
    var running: bool
    /** The number of worker threads started. */
    var workers: nat
    const maxWorkers: nat
    const cfg: FD.Config
    var queue: seq<int>
    var active: map<int, Entry>
    /** The keys of `active` in insertion order. */
    var order: seq<int>

    /** Every queued id has an entry in status "queued" and is queued once;
        between steps no entry is left "downloading"; workers run exactly
        while the manager runs. */
    ghost predicate Valid()
      reads this
    {
      && NoDup(queue)
      && NoDup(order)
      && (forall id :: id in queue ==> id in active && active[id].status == Queued)
      && (forall id :: id in active <==> id in order)
      && (forall id :: id in active ==> Settled(active[id].status))
      && (running ==> workers == maxWorkers)
      && (!running ==> workers == 0)
    }

    constructor(maxWorkers: nat, cfg: FD.Config)
      ensures Valid()
      ensures this.maxWorkers == maxWorkers && this.cfg == cfg
      ensures !running && queue == [] && active == map[] && order == []
    {
      this.maxWorkers := maxWorkers;
      this.cfg := cfg;
      running := false;
      workers := 0;
      queue := [];
      active := map[];
      order := [];
    }

    /** Starting a running manager does nothing; otherwise `maxWorkers`
        workers are started. */
    method Start()
      requires Valid()
      modifies this
      ensures Valid()
      ensures running
      ensures old(running) ==> workers == old(workers)
      ensures !old(running) ==> workers == maxWorkers
      ensures queue == old(queue) && active == old(active) && order == old(order)
    {
      if running {
        return;
      }
      running := true;
      workers := maxWorkers;
    }

    /** Stopping a stopped manager does nothing; otherwise the queue is
        drained and the entries are left as they are, so the ids that were
        queued stay in status "queued" with no queue position. */
    method Stop()
      requires Valid()
      modifies this
      ensures Valid()
      ensures !running && workers == 0
      ensures old(running) ==> queue == []
      ensures !old(running) ==> queue == old(queue)
      ensures active == old(active) && order == old(order)
      ensures old(running) ==> forall id :: id in old(queue) ==> id in active && active[id].status == Queued
    {
      if !running {
        return;
      }
      running := false;
      ghost var q0 := queue;
      ghost var k := 0;
      while queue != []
        invariant 0 <= k <= |q0| && queue == q0[k..]
        invariant active == old(active) && order == old(order)
        invariant !running && workers == old(workers)
        decreases |queue|
      {
        queue := queue[1..];
        k := k + 1;
      }
      workers := 0;
    }

    /** An id that already has an entry, whatever its status, or that the
        remote store does not know, is refused and nothing changes; any
        other id gets a fresh "queued" entry and goes to the back of the
        queue. */
    method QueueDownload(id: int, store: map<int, RemoteFile>) returns (ok: bool)
      requires Valid()
      modifies this
      ensures Valid()
      ensures ok <==> id !in old(active) && id in store
      ensures !ok ==> queue == old(queue) && active == old(active) && order == old(order)
      ensures ok ==>
        && active == old(active)[id := Entry(store[id], 0.0, Queued, None, None)]
        && queue == old(queue) + [id]
        && order == old(order) + [id]
      ensures running == old(running) && workers == old(workers)
    {
      if id in active {
        return false;
      }
      if id !in store {
        return false;
      }
      active := active[id := Entry(store[id], 0.0, Queued, None, None)];
      order := order + [id];
      queue := queue + [id];
      ok := true;
    }

    /** A copy of the entry, or the "not_queued" placeholder with progress 0. */
    function GetDownloadStatus(id: int): (v: StatusView)
      reads this
      ensures id in active ==>
        && v.file == Some(active[id].file) && v.status == active[id].status
        && v.progress == active[id].progress && v.error == active[id].error
        && v.result == active[id].result
      ensures id !in active ==> v == StatusView(None, 0.0, NotQueued, None, None)
    {
      if id in active then
        var e := active[id];
        StatusView(Some(e.file), e.progress, e.status, e.error, e.result)
      else StatusView(None, 0.0, NotQueued, None, None)
    }

    /** Every entry with its id, in insertion order. */
    function GetAllDownloads(): (r: seq<(int, Entry)>)
      requires Valid()
      reads this
      ensures |r| == |active|
      ensures forall i :: 0 <= i < |r| ==> r[i].0 in active && r[i].1 == active[r[i].0]
      ensures forall id :: id in active ==> exists i :: 0 <= i < |r| && r[i].0 == id
      ensures forall i, j :: 0 <= i < j < |r| ==> r[i].0 != r[j].0
      ensures |r| == |order| && forall i :: 0 <= i < |r| ==> r[i].0 == order[i]
    {
      DistinctKeysCount(order, active);
      var o, a := order, active;
      var r := seq(|o|, i requires 0 <= i < |o| => (o[i], a[o[i]]));
      assert forall id :: id in a ==> exists i :: 0 <= i < |o| && o[i] == id && r[i].0 == id;
      r
    }

    /** One pass of the worker loop. A stopped manager or an empty queue does
        nothing. Otherwise the oldest id leaves the queue; an id without an
        entry is skipped; the entry's file is downloaded with its own name
        and no category, and the entry becomes "completed" with progress 1
        or "failed" with the downloader's error. */
    method ProcessNext(env: FD.Env) returns (t: Option<FD.Transfer>)
      requires |env.attempts| > cfg.retryCount
      modifies this
      ensures old(Valid()) ==> Valid()
      ensures running == old(running) && workers == old(workers) && order == old(order)
      ensures !old(running) || old(queue) == [] ==>
        t.None? && queue == old(queue) && active == old(active)
      ensures old(running) && old(queue) != [] ==>
        && queue == old(queue)[1..]
        && var id := old(queue)[0];
           if id !in old(active) then t.None? && active == old(active)
           else
             var f := old(active)[id].file;
             && t == Some(FD.Download(cfg, f.url, Some(f.name), None, env))
             && active == old(active)[id := Finish(old(active)[id].(status := Downloading), t.value)]
    {
      if !running || queue == [] {
        return None;
      }
      var id := queue[0];
      queue := queue[1..];
      if id !in active {
        return None;
      }
      var e := active[id].(status := Downloading);
      var f := e.file;
      var transfer := FD.DownloadFile(cfg, f.url, Some(f.name), None, env);
      var done := Finish(e, transfer);
      if old(Valid()) {
        PopSettles(old(queue), active, order, done);
      }
      active := active[id := done];
      t := Some(transfer);
    }

    /** Only a "completed" or "failed" entry is removed; any other id is
        refused and nothing changes. */
    method RemoveDownload(id: int) returns (ok: bool)
      requires Valid()
      modifies this
      ensures Valid()
      ensures ok <==> id in old(active) && (old(active)[id].status.Completed? || old(active)[id].status.Failed?)
      ensures ok ==> active == old(active) - {id} && order == Without(old(order), id)
      ensures !ok ==> active == old(active) && order == old(order)
      ensures queue == old(queue) && running == old(running) && workers == old(workers)
    {
      if id in active && (active[id].status.Completed? || active[id].status.Failed?) {
        active := active - {id};
        order := Without(order, id);
        return true;
      }
      return false;
    }
  }

  /** Taking the oldest id off a duplicate-free queue of queued entries and
      settling that entry keeps the rest of the queue queued and the keys of
      the table. */
  lemma PopSettles(queue: seq<int>, active: map<int, Entry>, order: seq<int>, e: Entry)
    requires queue != [] && NoDup(queue)
    requires forall id :: id in queue ==> id in active && active[id].status == Queued
    requires forall id :: id in active <==> id in order
    requires forall id :: id in active ==> Settled(active[id].status)
    requires Settled(e.status)
    ensures var rest, m := queue[1..], active[queue[0] := e];
      && NoDup(rest)
      && (forall id :: id in rest ==> id in m && m[id].status == Queued)
      && (forall id :: id in m <==> id in order)
      && (forall id :: id in m ==> Settled(m[id].status))
  {
    var rest, m := queue[1..], active[queue[0] := e];
    assert NoDup(rest) by {
      forall i, j | 0 <= i < j < |rest| ensures rest[i] != rest[j] {
        assert rest[i] == queue[i + 1] && rest[j] == queue[j + 1];
      }
    }
    forall id | id in rest ensures id in m && m[id].status == Queued {
      var i :| 0 <= i < |rest| && rest[i] == id;
      assert queue[i + 1] == id && queue[0] != queue[i + 1];
    }
  }

  /** A duplicate-free key list of a map holds exactly its keys. */
  lemma {:induction false} DistinctKeysCount(order: seq<int>, m: map<int, Entry>)
    requires NoDup(order)
    requires forall id :: id in m <==> id in order
    ensures |order| == |m|
    decreases |order|
  {
    if order != [] {
      var x := order[|order| - 1];
      var rest := order[..|order| - 1];
      assert forall id :: id in rest ==> id != x by {
        forall id | id in rest ensures id != x {
          var i :| 0 <= i < |rest| && rest[i] == id;
          assert order[i] == id;
        }
      }
      assert forall id :: id in m - {x} <==> id in rest by {
        forall id ensures id in m - {x} <==> id in rest {
          assert id in order <==> id in rest || id == x by {
            assert order == rest + [x];
          }
        }
      }
      DistinctKeysCount(rest, m - {x});
    } else {
      assert forall id :: id !in m;
      assert m.Keys == {};
    }
  }
}
