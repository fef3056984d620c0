/** The comparison service of src/core/file_comparison.py: sorting the
    remote records into new, updated, corrupted and ok files, flattening the
    chosen groups into a download list, and linking or unlinking a local
    record. The stores' queries and the validator are oracles; an `Err`
    from one of them is the exception it raised. */
module FileComparison {
  import opened Wrappers

  datatype RemoteFile = RemoteFile(id: int, url: string, size: Option<int>)
  datatype LocalFile = LocalFile(id: int, path: string, size: int, fileType: string, remoteFileId: Option<int>)

  /** The `valid` and `error` keys of a validation result. */
  datatype Verdict = Verdict(valid: bool, error: Option<string>)

  /** `get_file_by_remote_id`, queried with a remote id. */
  type Lookup = int -> Result<Option<LocalFile>>
  /** `validate_file(path, file_type)`. */
  type Validate = (string, string) -> Result<Verdict>

  /** The `{"remote", "local"}` and `{"remote", "local", "error"}` items. */
  datatype Pair = Pair(remote: RemoteFile, local: LocalFile)
  datatype Damaged = Damaged(remote: RemoteFile, local: LocalFile, error: Option<string>)

  datatype Comparison = Comparison(newFiles: seq<RemoteFile>, updatedFiles: seq<Pair>,
                                   corruptedFiles: seq<Damaged>, okFiles: seq<Pair>)

  const NoFiles := Comparison([], [], [], [])

  /** Where one remote record goes. */
  datatype Kind = NewFile | UpdatedFile(local: LocalFile) | CorruptedFile(local: LocalFile, error: Option<string>)
                | OkFile(local: LocalFile)

  /** The decision for one remote record: no linked local record means new;
      a size that differs (a missing remote size always differs) means
      updated; otherwise the validator's verdict decides. */
  function Classify(r: RemoteFile, lookup: Lookup, validate: Validate): Result<Kind> {
    match lookup(r.id)
    case Err(m) => Err(m)
    case Ok(found) =>
      if found.None? then Ok(NewFile)
      else
        var l := found.value;
        if Some(l.size) != r.size then Ok(UpdatedFile(l))
        else match validate(l.path, l.fileType)
          case Err(m) => Err(m)
          case Ok(v) => if !v.valid then Ok(CorruptedFile(l, v.error)) else Ok(OkFile(l))
  }

  function Add(c: Comparison, r: RemoteFile, k: Kind): Comparison {
    match k
    case NewFile => c.(newFiles := c.newFiles + [r])
    case UpdatedFile(l) => c.(updatedFiles := c.updatedFiles + [Pair(r, l)])
    case CorruptedFile(l, e) => c.(corruptedFiles := c.corruptedFiles + [Damaged(r, l, e)])
    case OkFile(l) => c.(okFiles := c.okFiles + [Pair(r, l)])
  }

  /** The groups after the loop has seen `rs`, and whether a call raised. */
  datatype Scan = Scan(groups: Comparison, raised: bool)

  function ScanAll(rs: seq<RemoteFile>, lookup: Lookup, validate: Validate): Scan
    decreases |rs|
  {
    if rs == [] then Scan(NoFiles, false)
    else
      var s := ScanAll(rs[..|rs| - 1], lookup, validate);
      if s.raised then s
      else match Classify(rs[|rs| - 1], lookup, validate)
        case Err(_) => Scan(s.groups, true)
        case Ok(k) => Scan(Add(s.groups, rs[|rs| - 1], k), false)
  }

  /** `compare_files`: when fetching the remote records raises, or any later
      call raises, the groups filled so far are returned. */
  function Compare(remotes: Result<seq<RemoteFile>>, lookup: Lookup, validate: Validate): Comparison {
    if remotes.Err? then NoFiles else ScanAll(remotes.value, lookup, validate).groups
  }

  /** Once a call has raised, the remaining records change nothing. */
  lemma {:induction false} RaisedSticks(rs: seq<RemoteFile>, k: nat, lookup: Lookup, validate: Validate)
    requires k <= |rs|
    requires ScanAll(rs[..k], lookup, validate).raised
    ensures ScanAll(rs, lookup, validate) == ScanAll(rs[..k], lookup, validate)
    decreases |rs| - k
  {
    if k < |rs| {
      assert rs[..k + 1][..k] == rs[..k];
      RaisedSticks(rs, k + 1, lookup, validate);
    } else {
      assert rs[..k] == rs;
    }
  }

  method CompareFiles(remotes: Result<seq<RemoteFile>>, lookup: Lookup, validate: Validate) returns (c: Comparison)
    ensures c == Compare(remotes, lookup, validate)
  {
    c := NoFiles;
    if remotes.Err? {
      return;
    }
    var rs := remotes.value;
    var i := 0;
    while i < |rs|
      invariant 0 <= i <= |rs|
      invariant ScanAll(rs[..i], lookup, validate) == Scan(c, false)
    {
      assert rs[..i + 1][..i] == rs[..i];
      var r := rs[i];
      var found := lookup(r.id);
      if found.Err? {
        RaisedSticks(rs, i + 1, lookup, validate);
        return;
      }
      if found.value.None? {
        c := c.(newFiles := c.newFiles + [r]);
      } else {
        var l := found.value.value;
        if Some(l.size) != r.size {
          c := c.(updatedFiles := c.updatedFiles + [Pair(r, l)]);
        } else {
          var v := validate(l.path, l.fileType);
          if v.Err? {
            RaisedSticks(rs, i + 1, lookup, validate);
            return;
          }
          if !v.value.valid {
            c := c.(corruptedFiles := c.corruptedFiles + [Damaged(r, l, v.value.error)]);
          } else {
            c := c.(okFiles := c.okFiles + [Pair(r, l)]);
          }
        }
      }
      i := i + 1;
    }
    assert rs[..i] == rs;
  }

  // ------------------------------------------------------ the partition

  /** The records of each group, defined one group at a time. */
  function NewOf(rs: seq<RemoteFile>, lookup: Lookup, validate: Validate): seq<RemoteFile>
    decreases |rs|
  {
    if rs == [] then []
    else
      var r := rs[|rs| - 1];
      NewOf(rs[..|rs| - 1], lookup, validate)
        + (if Classify(r, lookup, validate) == Ok(NewFile) then [r] else [])
  }

  function UpdatedOf(rs: seq<RemoteFile>, lookup: Lookup, validate: Validate): seq<Pair>
    decreases |rs|
  {
    if rs == [] then []
    else
      var r := rs[|rs| - 1];
      var k := Classify(r, lookup, validate);
      UpdatedOf(rs[..|rs| - 1], lookup, validate)
        + (if k.Ok? && k.value.UpdatedFile? then [Pair(r, k.value.local)] else [])
  }

  function CorruptedOf(rs: seq<RemoteFile>, lookup: Lookup, validate: Validate): seq<Damaged>
    decreases |rs|
  {
    if rs == [] then []
    else
      var r := rs[|rs| - 1];
      var k := Classify(r, lookup, validate);
      CorruptedOf(rs[..|rs| - 1], lookup, validate)
        + (if k.Ok? && k.value.CorruptedFile? then [Damaged(r, k.value.local, k.value.error)] else [])
  }

  function OkOf(rs: seq<RemoteFile>, lookup: Lookup, validate: Validate): seq<Pair>
    decreases |rs|
  {
    if rs == [] then []
    else
      var r := rs[|rs| - 1];
      var k := Classify(r, lookup, validate);
      OkOf(rs[..|rs| - 1], lookup, validate)
        + (if k.Ok? && k.value.OkFile? then [Pair(r, k.value.local)] else [])
  }

  predicate NoneRaise(rs: seq<RemoteFile>, lookup: Lookup, validate: Validate) {
    forall i :: 0 <= i < |rs| ==> Classify(rs[i], lookup, validate).Ok?
  }

  /** When no call raises, each group is exactly the records of its kind in
      remote order, and every remote record lands in exactly one group. */
  lemma {:induction false} PartitionWhenNoneRaise(rs: seq<RemoteFile>, lookup: Lookup, validate: Validate)
    requires NoneRaise(rs, lookup, validate)
    ensures var s := ScanAll(rs, lookup, validate);
      && !s.raised
      && s.groups == Comparison(NewOf(rs, lookup, validate), UpdatedOf(rs, lookup, validate),
                                CorruptedOf(rs, lookup, validate), OkOf(rs, lookup, validate))
      && |s.groups.newFiles| + |s.groups.updatedFiles| + |s.groups.corruptedFiles| + |s.groups.okFiles| == |rs|
    decreases |rs|
  {
    if rs != [] {
      var init := rs[..|rs| - 1];
      assert NoneRaise(init, lookup, validate) by {
        forall i | 0 <= i < |init| ensures Classify(init[i], lookup, validate).Ok? {
          assert init[i] == rs[i];
        }
      }
      PartitionWhenNoneRaise(init, lookup, validate);
      assert Classify(rs[|rs| - 1], lookup, validate).Ok?;
    }
  }

  /** When the call for record `k` is the first to raise, the result holds
      the groups of the records before it. */
  lemma FirstRaiseKeepsPrefix(rs: seq<RemoteFile>, k: nat, lookup: Lookup, validate: Validate)
    requires k < |rs|
    requires NoneRaise(rs[..k], lookup, validate)
    requires Classify(rs[k], lookup, validate).Err?
    ensures Compare(Ok(rs), lookup, validate)
         == Comparison(NewOf(rs[..k], lookup, validate), UpdatedOf(rs[..k], lookup, validate),
                       CorruptedOf(rs[..k], lookup, validate), OkOf(rs[..k], lookup, validate))
  {
    PartitionWhenNoneRaise(rs[..k], lookup, validate);
    assert rs[..k + 1][..k] == rs[..k];
    RaisedSticks(rs, k + 1, lookup, validate);
  }

  /** Every item of a group was put there by its own record's decision,
      whether or not a call raised later. */
  lemma {:induction false} GroupsAreSound(rs: seq<RemoteFile>, lookup: Lookup, validate: Validate)
    ensures var c := ScanAll(rs, lookup, validate).groups;
      && (forall r :: r in c.newFiles ==> Classify(r, lookup, validate) == Ok(NewFile))
      && (forall p :: p in c.updatedFiles ==> Classify(p.remote, lookup, validate) == Ok(UpdatedFile(p.local)))
      && (forall d :: d in c.corruptedFiles ==>
            Classify(d.remote, lookup, validate) == Ok(CorruptedFile(d.local, d.error)))
      && (forall p :: p in c.okFiles ==> Classify(p.remote, lookup, validate) == Ok(OkFile(p.local)))
    decreases |rs|
  {
    if rs != [] {
      GroupsAreSound(rs[..|rs| - 1], lookup, validate);
    }
  }

  /** A record without a linked local file, or whose local size differs,
      is decided without calling the validator. */
  lemma ValidatorOnlyForEqualSizes(r: RemoteFile, lookup: Lookup, v1: Validate, v2: Validate)
    requires lookup(r.id).Ok?
    requires lookup(r.id).value.Some? ==> Some(lookup(r.id).value.value.size) != r.size
    ensures Classify(r, lookup, v1) == Classify(r, lookup, v2)
    ensures lookup(r.id).value.None? ==> Classify(r, lookup, v1) == Ok(NewFile)
    ensures lookup(r.id).value.Some? ==> Classify(r, lookup, v1) == Ok(UpdatedFile(lookup(r.id).value.value))
  {
  }

  /** A remote record without a size and with a linked local file is
      always updated. */
  lemma MissingRemoteSizeIsUpdated(r: RemoteFile, lookup: Lookup, validate: Validate)
    requires r.size.None? && lookup(r.id).Ok? && lookup(r.id).value.Some?
    ensures Classify(r, lookup, validate) == Ok(UpdatedFile(lookup(r.id).value.value))
  {
  }

  // ------------------------------------------------------ the download list

  function UpdatedRemotes(ps: seq<Pair>): (rs: seq<RemoteFile>)
    ensures |rs| == |ps| && forall i :: 0 <= i < |ps| ==> rs[i] == ps[i].remote
  {
    seq(|ps|, i requires 0 <= i < |ps| => ps[i].remote)
  }

  /** A corrupted item without the validator's error: its two records. */
  function AsPair(d: Damaged): Pair {
    Pair(d.remote, d.local)
  }

  /** The corrupted items are queued as their record pairs would be. */
  function DamagedRemotes(ds: seq<Damaged>): (rs: seq<RemoteFile>)
    ensures |rs| == |ds| && forall i :: 0 <= i < |ds| ==> rs[i] == ds[i].remote
  {
    UpdatedRemotes(seq(|ds|, i requires 0 <= i < |ds| => AsPair(ds[i])))
  }

  /** New files, then the remotes of updated files, then the remotes of
      corrupted files, each group only when asked for. */
  function DownloadList(c: Comparison, includeNew: bool, includeUpdated: bool, includeCorrupted: bool): seq<RemoteFile> {
    (if includeNew then c.newFiles else [])
      + (if includeUpdated then UpdatedRemotes(c.updatedFiles) else [])
      + (if includeCorrupted then DamagedRemotes(c.corruptedFiles) else [])
  }

  method BuildDownloadQueue(remotes: Result<seq<RemoteFile>>, lookup: Lookup, validate: Validate,
                            includeNew: bool, includeUpdated: bool, includeCorrupted: bool)
    returns (queue: seq<RemoteFile>)
    ensures queue == DownloadList(Compare(remotes, lookup, validate), includeNew, includeUpdated, includeCorrupted)
  {
    var comparison := CompareFiles(remotes, lookup, validate);
    queue := [];
    if includeNew {
      queue := queue + comparison.newFiles;
    }
    if includeUpdated {
      queue := QueueUpdated(queue, comparison.updatedFiles);
    }
    if includeCorrupted {
      queue := QueueDamaged(queue, comparison.corruptedFiles);
    }
  }

  /** The loop that queues the remote record of every updated file. */
  method QueueUpdated(queue0: seq<RemoteFile>, updated: seq<Pair>) returns (queue: seq<RemoteFile>)
    ensures queue == queue0 + UpdatedRemotes(updated)
  {
    queue := queue0;
    for i := 0 to |updated|
      invariant queue == queue0 + UpdatedRemotes(updated[..i])
    {
      assert UpdatedRemotes(updated[..i + 1]) == UpdatedRemotes(updated[..i]) + [updated[i].remote];
      queue := queue + [updated[i].remote];
    }
    assert updated[..|updated|] == updated;
  }

  /** The loop that queues the remote record of every corrupted file. */
  method QueueDamaged(queue0: seq<RemoteFile>, damaged: seq<Damaged>) returns (queue: seq<RemoteFile>)
    ensures queue == queue0 + DamagedRemotes(damaged)
  {
    queue := queue0;
    for i := 0 to |damaged|
      invariant queue == queue0 + DamagedRemotes(damaged[..i])
    {
      assert DamagedRemotes(damaged[..i + 1]) == DamagedRemotes(damaged[..i]) + [damaged[i].remote];
      queue := queue + [damaged[i].remote];
    }
    assert damaged[..|damaged|] == damaged;
  }

  /** A file whose local copy is fine is never put on the download list. */
  lemma OkFilesNeverQueued(rs: seq<RemoteFile>, lookup: Lookup, validate: Validate,
                           includeNew: bool, includeUpdated: bool, includeCorrupted: bool)
    ensures forall r :: r in DownloadList(Compare(Ok(rs), lookup, validate), includeNew, includeUpdated, includeCorrupted) ==>
      Classify(r, lookup, validate).Ok? && !Classify(r, lookup, validate).value.OkFile?
  {
    GroupsAreSound(rs, lookup, validate);
    var c := Compare(Ok(rs), lookup, validate);
    forall r | r in DownloadList(c, includeNew, includeUpdated, includeCorrupted)
      ensures Classify(r, lookup, validate).Ok? && !Classify(r, lookup, validate).value.OkFile?
    {
      if r in UpdatedRemotes(c.updatedFiles) {
        var i :| 0 <= i < |c.updatedFiles| && UpdatedRemotes(c.updatedFiles)[i] == r;
        assert c.updatedFiles[i] in c.updatedFiles;
      } else if r in DamagedRemotes(c.corruptedFiles) {
        var i :| 0 <= i < |c.corruptedFiles| && DamagedRemotes(c.corruptedFiles)[i] == r;
        assert c.corruptedFiles[i] in c.corruptedFiles;
      }
    }
  }

  /** When no call raises and every group is asked for, the download list
      and the ok files together account for every remote record. */
  lemma QueueAndOkCoverRemotes(rs: seq<RemoteFile>, lookup: Lookup, validate: Validate)
    requires NoneRaise(rs, lookup, validate)
    ensures var c := Compare(Ok(rs), lookup, validate);
      |DownloadList(c, true, true, true)| + |c.okFiles| == |rs|
  {
    PartitionWhenNoneRaise(rs, lookup, validate);
  }

  // ------------------------------------------------------ linking

  /** The outcome of a link or unlink: the returned flag and the local store. */
  datatype Change = Change(ok: bool, store: map<int, LocalFile>)

  /** `link_local_to_remote` as written: both lookups, then a call to a
      store method that does not exist, whose AttributeError is caught. */
  function LinkAsWritten(store: map<int, LocalFile>, remoteIds: set<int>, localId: int, remoteId: int): Change {
    if localId !in store then Change(false, store)
    else if remoteId !in remoteIds then Change(false, store)
    else Change(false, store)  // `update_remote_file_id` raises AttributeError
  }

  /** The intended link: the local record gets the remote id. */
  function Link(store: map<int, LocalFile>, remoteIds: set<int>, localId: int, remoteId: int): (c: Change)
    ensures c.ok <==> localId in store && remoteId in remoteIds
    ensures c.ok ==> c.store.Keys == store.Keys && c.store[localId].remoteFileId == Some(remoteId)
    ensures c.ok ==> forall id :: id in store && id != localId ==> c.store[id] == store[id]
    ensures !c.ok ==> c.store == store
  {
    if localId in store && remoteId in remoteIds then
      Change(true, store[localId := store[localId].(remoteFileId := Some(remoteId))])
    else Change(false, store)
  }

  /** The link as written never succeeds and never writes: even for a known
      local and remote id it reports failure where the intended link
      succeeds. */
  lemma LinkAsWrittenNeverLinks(store: map<int, LocalFile>, remoteIds: set<int>, localId: int, remoteId: int)
    ensures LinkAsWritten(store, remoteIds, localId, remoteId) == Change(false, store)
    ensures localId in store && remoteId in remoteIds ==>
      Link(store, remoteIds, localId, remoteId).ok && !LinkAsWritten(store, remoteIds, localId, remoteId).ok
  {
  }

  /** Unlinking rewrites the record with the same path, size and type and
      no remote id. */
  function Unlink(store: map<int, LocalFile>, localId: int): (c: Change)
    ensures c.ok <==> localId in store
    ensures c.ok ==> c.store.Keys == store.Keys && c.store[localId].remoteFileId.None?
    ensures c.ok ==> var l, l' := store[localId], c.store[localId];
      l'.path == l.path && l'.size == l.size && l'.fileType == l.fileType && l'.id == l.id
    ensures c.ok ==> forall id :: id in store && id != localId ==> c.store[id] == store[id]
    ensures !c.ok ==> c.store == store
  {
    if localId !in store then Change(false, store)
    else
      var l := store[localId];
      Change(true, store[localId := LocalFile(l.id, l.path, l.size, l.fileType, None)])
  }

  /** Unlinking undoes the intended link of a record that had no remote id. */
  lemma UnlinkUndoesLink(store: map<int, LocalFile>, remoteIds: set<int>, localId: int, remoteId: int)
    requires localId in store && remoteId in remoteIds && store[localId].remoteFileId.None?
    ensures Unlink(Link(store, remoteIds, localId, remoteId).store, localId) == Change(true, store)
  {
    var l := store[localId];
    assert LocalFile(l.id, l.path, l.size, l.fileType, None) == l;
  }

  /** The service's view of the two stores that linking touches. */
  class Service {
    var local: map<int, LocalFile>
    var remoteIds: set<int>

    constructor(local: map<int, LocalFile>, remoteIds: set<int>)
      ensures this.local == local && this.remoteIds == remoteIds
    {
      this.local := local;
      this.remoteIds := remoteIds;
    }

    method LinkLocalToRemote(localId: int, remoteId: int) returns (ok: bool)
      modifies this
      ensures Change(ok, local) == LinkAsWritten(old(local), old(remoteIds), localId, remoteId)
      ensures remoteIds == old(remoteIds)
    {
      if localId !in local {
        return false;
      }
      if remoteId !in remoteIds {
        return false;
      }
      // the store has no `update_remote_file_id`; the AttributeError is caught
      return false;
    }

    method LinkLocalToRemoteIntended(localId: int, remoteId: int) returns (ok: bool)
      modifies this
      ensures Change(ok, local) == Link(old(local), old(remoteIds), localId, remoteId)
      ensures remoteIds == old(remoteIds)
    {
      if localId !in local || remoteId !in remoteIds {
        return false;
      }
      local := local[localId := local[localId].(remoteFileId := Some(remoteId))];
      ok := true;
    }

    method UnlinkLocalFromRemote(localId: int) returns (ok: bool)
      modifies this
      ensures Change(ok, local) == Unlink(old(local), localId)
      ensures remoteIds == old(remoteIds)
    {
      if localId !in local {
        return false;
      }
      var l := local[localId];
      local := local[localId := LocalFile(l.id, l.path, l.size, l.fileType, None)];
      ok := true;
    }
  }
}
