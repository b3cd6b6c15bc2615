/** Uploads and deletes as the service runs them, and the two batch deletes. */
module Storage {
  import opened Schema
  import opened Lists
  import opened Tables
  import opened Invariants
  import opened Ledger

  const UPLOAD_VALID_SECS: int := 3600

  /** Rows updated within the last hour may still receive their upload. */
  predicate Old(f: File, now: int) {
    f.updatedAt <= now - UPLOAD_VALID_SECS
  }

  function KeysOf(us: set<Uuid>, kind: ContentType): set<ArtifactKey> {
    set u | u in us :: (u, kind)
  }

  /** What a batch of uuids may delete: the artifacts of that kind whose task is in a group
      the user may write to and which are old enough. */
  ghost function Deletable(db: Db, v: Vault, user: UserId, us: set<Uuid>, kind: ContentType, now: int): set<Uuid> {
    set u | u in us && CanDelete(db, v, user, u, kind, now)
  }

  ghost predicate CanDelete(db: Db, v: Vault, user: UserId, u: Uuid, kind: ContentType, now: int) {
    (u, kind) in v.artifacts && Old(v.artifacts[(u, kind)], now) && MayDelete(db, v, user, u)
  }

  ghost predicate MayDelete(db: Db, v: Vault, user: UserId, u: Uuid) {
    exists g :: InGroup(db, u, g) && MayWrite(db, user, g) && g in v.groups
  }

  /** The same with roles and ages spelled out: the row has not been touched for an hour, and the
      user has the role Write or Admin in the group of the task. */
  lemma DeletableMeans(db: Db, v: Vault, user: UserId, us: set<Uuid>, kind: ContentType, now: int, u: Uuid)
    ensures u in Deletable(db, v, user, us, kind, now) <==>
      && u in us && (u, kind) in v.artifacts && now - v.artifacts[(u, kind)].updatedAt >= 60 * 60
      && exists g: GroupId :: InGroup(db, u, g) && g in v.groups && (user, g) in db.userGroup
                     && db.userGroup[(user, g)] in {UserWrite, UserAdmin}
  {
    forall g: GroupId
      ensures MayWrite(db, user, g) <==>
        (user, g) in db.userGroup && db.userGroup[(user, g)] in {UserWrite, UserAdmin}
    {
    }
  }

  lemma OldKeysMean(attachments: map<AttachmentKey, File>, g: GroupId, ks: set<string>, now: int, k: string)
    ensures k in OldKeys(attachments, g, ks, now) <==>
      k in ks && (g, k) in attachments && now - attachments[(g, k)].updatedAt >= 60 * 60
  {
  }

  ghost predicate SameAccounts(a: map<GroupId, Account>, b: map<GroupId, Account>) {
    a.Keys == b.Keys && forall g :: g in a ==> a[g] == b[g].(used := a[g].used)
  }

  /** Nothing but the targets was removed, and all of them if the object store never failed. */
  ghost predicate Progress<T(!new)>(gone: set<T>, targets: set<T>, objectOk: nat -> bool) {
    gone <= targets && ((forall i :: objectOk(i)) ==> gone == targets)
  }

  /** Exactly the given rows are gone, and accounts differ at most in what they are charged. */
  ghost predicate Cleared(v: Vault, v': Vault, gone: set<Uuid>, kind: ContentType) {
    v'.artifacts == v.artifacts - KeysOf(gone, kind) && v'.attachments == v.attachments
    && SameAccounts(v'.groups, v.groups)
  }

  lemma ClearedNone(v: Vault, kind: ContentType)
    ensures Cleared(v, v, {}, kind)
  {
    assert KeysOf({}, kind) == {};
    assert v.artifacts - {} == v.artifacts;
  }

  lemma ClearedSame(v: Vault, mid: Vault, v': Vault, gone: set<Uuid>, kind: ContentType)
    requires Cleared(v, mid, gone, kind) && v'.artifacts == mid.artifacts && v'.attachments == mid.attachments
    requires SameAccounts(v'.groups, mid.groups)
    ensures Cleared(v, v', gone, kind)
  {
  }

  lemma ClearedNext(v: Vault, mid: Vault, v': Vault, gone: set<Uuid>, kind: ContentType, u: Uuid)
    requires Cleared(v, mid, gone, kind) && v'.attachments == mid.attachments
    requires (u, kind) in mid.artifacts && v'.artifacts == mid.artifacts - {(u, kind)}
    requires SameAccounts(v'.groups, mid.groups)
    ensures u !in gone && Cleared(v, v', gone + {u}, kind)
  {
    assert KeysOf(gone + {u}, kind) == KeysOf(gone, kind) + {(u, kind)};
    assert u in gone ==> (u, kind) in KeysOf(gone, kind);
  }

  lemma StillThere(v: Vault, mid: Vault, gone: set<Uuid>, kind: ContentType, u: Uuid)
    requires Cleared(v, mid, gone, kind)
    ensures (u, kind) in mid.artifacts ==>
      (u, kind) in v.artifacts && mid.artifacts[(u, kind)] == v.artifacts[(u, kind)]
  {
  }

  class Store {
    const db: Db
    var groups: map<GroupId, Account>
    var attachments: map<AttachmentKey, File>
    var artifacts: map<ArtifactKey, File>

    constructor (db: Db, v: Vault)
      ensures this.db == db && View() == v
    {
      this.db := db;
      groups, attachments, artifacts := v.groups, v.attachments, v.artifacts;
    }

    function View(): Vault
      reads this
    {
      Vault(groups, attachments, artifacts)
    }

    /** The group of a task, looked up among the active tasks and then in the archive. */
    method FindTask(u: Uuid) returns (g: Option<GroupId>)
      requires Keyed(db) && UniqueUuids(db)
      ensures g.Some? ==> InGroup(db, u, g.value) && forall h :: InGroup(db, u, h) ==> h == g.value
      ensures g.None? ==> forall h :: !InGroup(db, u, h)
    {
      var found := set t | t in db.active && db.active[t].uuid == u;
      if found != {} {
        var t :| t in found;
        assert Row(db, t) == db.active[t];
        return Some(db.active[t].group);
      }
      var archived := set t | t in db.archived && db.archived[t].task.uuid == u;
      if archived == {} {
        forall t | t in Ids(db) ensures Row(db, t).uuid != u {
          if t in db.active { assert t !in found; } else { assert t !in archived; }
        }
        return None;
      }
      var t :| t in archived;
      assert Row(db, t) == db.archived[t].task;
      g := Some(db.archived[t].task.group);
    }

    method GroupUploadArtifact(g: GroupId, a: ArtifactKey, length: U64, now: int, linkOk: bool) returns (r: Reply)
      modifies this
      ensures View() == PutArtifact(old(View()), g, a, length, now, linkOk)
      ensures (r == Ok) == Accepts(old(View()), g, Lookup(old(artifacts), a), length, linkOk)
      ensures r == QuotaExceeded ==> g in groups && NewUsed(groups[g], Lookup(artifacts, a), length) > groups[g].quota
      ensures r != NotFound && r != PermissionDenied
    {
      if g !in groups || !groups[g].active {
        return InvalidRequest;
      }
      var size, used := AsI64(length), 0;
      if a in artifacts {
        if artifacts[a].size > size { size := artifacts[a].size; }
        used := Wrap(groups[g].used + Wrap(size - artifacts[a].size));
      } else {
        used := Wrap(groups[g].used + size);
        WrapIs(size);
      }
      if used > groups[g].quota {
        return QuotaExceeded;
      }
      if AsI64(length) < 0 || !linkOk {
        return StorageFailure;
      }
      artifacts := artifacts[a := File(size, now)];
      groups := groups[g := groups[g].(used := used)];
      r := Ok;
    }

    /** A user's upload for a task in a group the user may write to. */
    method UserUploadArtifact(user: UserId, u: Uuid, kind: ContentType, length: U64, now: int, linkOk: bool)
      returns (r: Reply)
      requires Keyed(db) && UniqueUuids(db)
      modifies this
      ensures (r == Ok) == exists g :: InGroup(db, u, g) && MayWrite(db, user, g)
                                       && Accepts(old(View()), g, Lookup(old(artifacts), (u, kind)), length, linkOk)
      ensures r == Ok ==> exists g :: InGroup(db, u, g)
                                      && View() == PutArtifact(old(View()), g, (u, kind), length, now, linkOk)
      ensures r != Ok ==> View() == old(View())
      ensures r == NotFound <==> forall g :: !InGroup(db, u, g)
      ensures r == PermissionDenied <==> exists g :: InGroup(db, u, g) && !MayWrite(db, user, g)
    {
      var g := FindTask(u);
      if g.None? {
        return NotFound;
      }
      if !MayWrite(db, user, g.value) {
        return PermissionDenied;
      }
      r := GroupUploadArtifact(g.value, (u, kind), length, now, linkOk);
    }

    /** The upload report of a worker, for a task it holds. */
    method ReportUpload(w: WorkerId, t: TaskId, kind: ContentType, length: U64, now: int, linkOk: bool)
      returns (r: Reply)
      modifies this
      ensures HeldBy(db, w, t) ==>
        View() == PutArtifact(old(View()), db.active[t].group, (db.active[t].uuid, kind), length, now, linkOk)
      ensures !HeldBy(db, w, t) ==> r == NotFound && View() == old(View())
      ensures HeldBy(db, w, t) ==> InGroup(db, db.active[t].uuid, db.active[t].group)
    {
      if t !in db.active || db.active[t].worker != Some(w) {
        return NotFound;
      }
      assert t in Ids(db) && Row(db, t) == db.active[t];
      r := GroupUploadArtifact(db.active[t].group, (db.active[t].uuid, kind), length, now, linkOk);
    }

    method UserUploadAttachment(user: UserId, k: AttachmentKey, keyOk: bool, length: U64, now: int, linkOk: bool)
      returns (r: Reply)
      modifies this
      ensures (r == Ok) == (keyOk && MayWrite(db, user, k.0)
                            && Accepts(old(View()), k.0, Lookup(old(attachments), k), length, linkOk))
      ensures View() == if r == Ok then PutAttachment(old(View()), k, length, now, linkOk) else old(View())
    {
      if !keyOk {
        return InvalidRequest;
      }
      if k.0 !in groups {
        return NotFound;
      }
      if !groups[k.0].active {
        return InvalidRequest;
      }
      if !MayWrite(db, user, k.0) {
        return PermissionDenied;
      }
      var size, used := AsI64(length), 0;
      if k in attachments {
        if attachments[k].size > size { size := attachments[k].size; }
        used := Wrap(groups[k.0].used + Wrap(size - attachments[k].size));
      } else {
        used := Wrap(groups[k.0].used + size);
        WrapIs(size);
      }
      if used > groups[k.0].quota {
        return QuotaExceeded;
      }
      if AsI64(length) < 0 || !linkOk {
        return StorageFailure;
      }
      attachments := attachments[k := File(size, now)];
      groups := groups[k.0 := groups[k.0].(used := used)];
      r := Ok;
    }

    /** Looks the row up again, so that a second delete of the same artifact finds nothing. */
    method DeleteArtifact(g: GroupId, a: ArtifactKey, now: int, admin: bool, objectOk: bool) returns (r: Reply)
      modifies this
      ensures (r == Ok) == (a in old(artifacts) && (admin || Old(old(artifacts)[a], now)) && objectOk && g in groups)
      ensures View() == if r == Ok then DropArtifact(old(View()), g, a) else old(View())
    {
      if a !in artifacts {
        return NotFound;
      }
      if !admin && artifacts[a].updatedAt > now - UPLOAD_VALID_SECS {
        return InvalidRequest;
      }
      if !objectOk {
        return StorageFailure;
      }
      if g !in groups {
        return InvalidRequest;
      }
      groups := groups[g := groups[g].(used := SaturatingSub(groups[g].used, artifacts[a].size))];
      artifacts := artifacts - {a};
      r := Ok;
    }

    method DeleteAttachment(k: AttachmentKey, objectOk: bool) returns (r: Reply)
      requires k in attachments
      modifies this
      ensures (r == Ok) == (objectOk && k.0 in groups)
      ensures View() == if r == Ok then DropAttachment(old(View()), k) else old(View())
    {
      if !objectOk {
        return StorageFailure;
      }
      if k.0 !in groups {
        return InvalidRequest;
      }
      groups := groups[k.0 := groups[k.0].(used := SaturatingSub(groups[k.0].used, attachments[k].size))];
      attachments := attachments - {k};
      r := Ok;
    }

    /** Collects the rows of all chunks. A uuid that occurs in several chunks is collected
        several times. */
    method CollectArtifacts(uuids: seq<Uuid>, kind: ContentType, size: nat) returns (all: seq<Uuid>)
      requires size > 0
      ensures Elements(all) == set u | u in uuids && (u, kind) in artifacts
    {
      all := [];
      var lo := 0;
      while lo < |uuids|
        invariant lo <= |uuids| && Elements(all) == set u | u in uuids[..lo] && (u, kind) in artifacts
      {
        var hi := if lo + size < |uuids| then lo + size else |uuids|;
        var rows := Rows(set u | u in uuids[lo..hi] && (u, kind) in artifacts);
        assert uuids[..hi] == uuids[..lo] + uuids[lo..hi];
        assert Elements(all + rows) == Elements(all) + Elements(rows);
        all, lo := all + rows, hi;
      }
      assert uuids[..lo] == uuids;
    }

    /** Tries to delete one collected row; the permission and the age are those of the row as
        it was collected. */
    method TryDelete(user: UserId, u: Uuid, kind: ContentType, row: File, now: int, objectOk: bool) returns (ok: bool)
      requires Keyed(db) && UniqueUuids(db) && Sane(db, View())
      requires (u, kind) in artifacts ==> artifacts[(u, kind)] == row
      modifies this
      ensures ok ==> CanDelete(db, old(View()), user, u, kind, now)
      ensures !ok && objectOk ==> !CanDelete(db, old(View()), user, u, kind, now)
      ensures artifacts == if ok then old(artifacts) - {(u, kind)} else old(artifacts)
      ensures attachments == old(attachments) && SameAccounts(groups, old(groups)) && Sane(db, View())
    {
      ok := false;
      var g := FindTask(u);
      if g.Some? && MayWrite(db, user, g.value) && row.updatedAt <= now - UPLOAD_VALID_SECS {
        var r := DeleteArtifact(g.value, (u, kind), now, false, objectOk);
        ok := r == Ok;
        DropArtifactSane(db, old(View()), g.value, (u, kind));
      }
    }

    /** Deletes the artifacts of the listed tasks. However the uuids repeat, within or across
        chunks, a removed row is counted once and refunded once; failed uuids are the request,
        in order, without the removed ones. */
    method DeleteArtifactsByUuids(user: UserId, uuids: seq<Uuid>, kind: ContentType, now: int, size: nat,
                                  objectOk: nat -> bool)
      returns (count: nat, failed: seq<Uuid>, ghost gone: set<Uuid>)
      requires size > 0 && Keyed(db) && UniqueUuids(db) && Sane(db, View())
      modifies this
      ensures Progress(gone, Deletable(db, old(View()), user, Elements(uuids), kind, now), objectOk)
      ensures Cleared(old(View()), View(), gone, kind) && Sane(db, View())
      ensures count == |gone| && FailedIs(uuids, gone, failed)
    {
      ghost var v := View();
      var all := CollectArtifacts(uuids, kind, size);
      assert forall u :: u in all ==> u in Elements(all);
      var deleted;
      count, deleted := DeleteRows(user, all, kind, now, objectOk);
      CollectedAll(db, v, user, uuids, all, kind, now);
      gone := deleted;
      failed := Unfound(uuids, deleted);
    }

    /** One round of the loop over the collected rows, which began with storage `v`. */
    method DeleteRow(user: UserId, all: seq<Uuid>, i: nat, kind: ContentType, row: File, now: int,
                     objectOk: nat -> bool, count: nat, deleted: set<Uuid>, ghost v: Vault)
      returns (count': nat, deleted': set<Uuid>)
      requires Keyed(db) && UniqueUuids(db) && Sane(db, View()) && i < |all|
      requires count == |deleted| && Cleared(v, View(), deleted, kind)
      requires (all[i], kind) in v.artifacts && row == v.artifacts[(all[i], kind)]
      requires Progress(deleted, Deletable(db, v, user, Elements(all[..i]), kind, now), objectOk)
      modifies this
      ensures count' == |deleted'| && Sane(db, View()) && Cleared(v, View(), deleted', kind)
      ensures Progress(deleted', Deletable(db, v, user, Elements(all[..i + 1]), kind, now), objectOk)
    {
      ghost var mid := View();
      StillThere(v, mid, deleted, kind, all[i]);
      var ok := TryDelete(user, all[i], kind, row, now, objectOk(i));
      RoundDone(db, v, mid, View(), user, all, i, kind, now, deleted, ok, objectOk);
      count', deleted' := count, deleted;
      if ok {
        count', deleted' := count + 1, deleted + {all[i]};
      }
    }

    /** The loop over the collected rows. */
    method DeleteRows(user: UserId, all: seq<Uuid>, kind: ContentType, now: int, objectOk: nat -> bool)
      returns (count: nat, deleted: set<Uuid>)
      requires Keyed(db) && UniqueUuids(db) && Sane(db, View())
      requires forall u :: u in all ==> (u, kind) in artifacts
      modifies this
      ensures count == |deleted| && Sane(db, View())
      ensures Cleared(old(View()), View(), deleted, kind)
      ensures Progress(deleted, Deletable(db, old(View()), user, Elements(all), kind, now), objectOk)
    {
      ghost var v := View();
      var rows := artifacts;
      count, deleted := 0, {};
      ClearedNone(v, kind);
      for i := 0 to |all|
        invariant count == |deleted| && Sane(db, View()) && Cleared(v, View(), deleted, kind)
        invariant Progress(deleted, Deletable(db, v, user, Elements(all[..i]), kind, now), objectOk)
      {
        count, deleted := DeleteRow(user, all, i, kind, rows[(all[i], kind)], now, objectOk, count, deleted, v);
      }
      assert all[..|all|] == all;
    }

    /** Deletes the listed attachments of one group that are old enough. */
    method DeleteAttachmentsByKeys(user: UserId, g: GroupId, keys: seq<string>, now: int, objectOk: nat -> bool)
      returns (r: Reply, count: nat, failed: seq<string>, ghost gone: set<string>)
      requires Sane(db, View())
      modifies this
      ensures r == if g !in groups then NotFound else if !MayWrite(db, user, g) then PermissionDenied else Ok
      ensures r != Ok ==> View() == old(View())
      ensures r == Ok ==> Progress(gone, OldKeys(old(attachments), g, Elements(keys), now), objectOk)
      ensures Emptied(old(View()), View(), g, gone) && Sane(db, View())
      ensures r == Ok ==> count == |gone| && FailedIs(keys, gone, failed)
    {
      ghost var v := View();
      count, failed, gone := 0, [], {};
      EmptiedNone(v, g);
      if g !in groups {
        r := NotFound;
        return;
      }
      if !MayWrite(db, user, g) {
        r := PermissionDenied;
        return;
      }
      r := Ok;
      var all := Rows(set k | k in keys && (g, k) in attachments);
      assert forall k :: k in all ==> k in Elements(all);
      var deleted;
      count, deleted := DeletePaths(g, all, now, objectOk);
      gone := deleted;
      assert OldKeys(v.attachments, g, Elements(all), now) == OldKeys(v.attachments, g, Elements(keys), now);
      failed := Unfound(keys, deleted);
    }

    method DeletePaths(g: GroupId, all: seq<string>, now: int, objectOk: nat -> bool)
      returns (count: nat, deleted: set<string>)
      requires Sane(db, View()) && g in groups && Distinct(all) && forall k :: k in all ==> (g, k) in attachments
      modifies this
      ensures count == |deleted| && Sane(db, View()) && Emptied(old(View()), View(), g, deleted)
      ensures Progress(deleted, OldKeys(old(attachments), g, Elements(all), now), objectOk)
    {
      ghost var v := View();
      var rows := attachments;
      count, deleted := 0, {};
      EmptiedNone(v, g);
      for i := 0 to |all|
        invariant count == |deleted| && Sane(db, View()) && Emptied(v, View(), g, deleted)
        invariant Progress(deleted, OldKeys(rows, g, Elements(all[..i]), now), objectOk)
      {
        OldKeysNext(rows, g, all, i, now);
        if rows[(g, all[i])].updatedAt <= now - UPLOAD_VALID_SECS {
          ghost var mid := View();
          DropAttachmentSane(db, mid, (g, all[i]));
          EmptiedNext(v, mid, g, deleted, all[i]);
          var reply := DeleteAttachment((g, all[i]), objectOk(i));
          if reply == Ok {
            OneMore(deleted, all[i]);
            count, deleted := count + 1, deleted + {all[i]};
          }
        }
      }
      assert all[..|all|] == all;
    }
  }

  lemma OneMore<T>(s: set<T>, x: T)
    requires x !in s
    ensures |s + {x}| == |s| + 1
  {
  }

  lemma OldKeysNext(rows: map<AttachmentKey, File>, g: GroupId, all: seq<string>, i: nat, now: int)
    requires i < |all| && Distinct(all) && (g, all[i]) in rows
    ensures OldKeys(rows, g, Elements(all[..i + 1]), now) ==
      OldKeys(rows, g, Elements(all[..i]), now) + (if Old(rows[(g, all[i])], now) then {all[i]} else {})
    ensures all[i] !in OldKeys(rows, g, Elements(all[..i]), now)
  {
    assert all[..i + 1] == all[..i] + [all[i]];
  }

  ghost predicate Emptied(v: Vault, v': Vault, g: GroupId, gone: set<string>) {
    v'.attachments == v.attachments - PathsOf(g, gone) && v'.artifacts == v.artifacts
    && SameAccounts(v'.groups, v.groups)
  }

  lemma EmptiedNone(v: Vault, g: GroupId)
    ensures Emptied(v, v, g, {})
  {
    assert PathsOf(g, {}) == {};
    assert v.attachments - {} == v.attachments;
  }

  lemma EmptiedNext(v: Vault, mid: Vault, g: GroupId, gone: set<string>, k: string)
    requires Emptied(v, mid, g, gone) && k !in gone && (g, k) in v.attachments && g in v.groups
    ensures (g, k) in mid.attachments && g in mid.groups && mid.attachments[(g, k)] == v.attachments[(g, k)]
    ensures Emptied(v, DropAttachment(mid, (g, k)), g, gone + {k})
  {
    assert PathsOf(g, gone + {k}) == PathsOf(g, gone) + {(g, k)};
    assert (g, k) !in PathsOf(g, gone);
  }

  function PathsOf(g: GroupId, ks: set<string>): set<AttachmentKey> {
    set k | k in ks :: (g, k)
  }

  function OldKeys(attachments: map<AttachmentKey, File>, g: GroupId, ks: set<string>, now: int): set<string> {
    set k | k in ks && (g, k) in attachments && Old(attachments[(g, k)], now)
  }

  /** Deleting what has been seen so far leaves the other rows as deletable as before. */
  lemma DeletableNext(db: Db, v: Vault, mid: Vault, user: UserId, all: seq<Uuid>, i: nat, kind: ContentType,
                      now: int, gone: set<Uuid>)
    requires i < |all| && Cleared(v, mid, gone, kind)
    ensures Deletable(db, v, user, Elements(all[..i + 1]), kind, now) ==
      Deletable(db, v, user, Elements(all[..i]), kind, now)
      + (if CanDelete(db, v, user, all[i], kind, now) then {all[i]} else {})
    ensures CanDelete(db, mid, user, all[i], kind, now) ==
      (CanDelete(db, v, user, all[i], kind, now) && all[i] !in gone)
  {
    assert all[..i + 1] == all[..i] + [all[i]];
    assert MayDelete(db, mid, user, all[i]) == MayDelete(db, v, user, all[i]);
    assert (all[i], kind) in KeysOf(gone, kind) <==> all[i] in gone;
  }

  /** One round of the loop over the collected rows. */
  lemma RoundDone(db: Db, v: Vault, mid: Vault, v': Vault, user: UserId, all: seq<Uuid>, i: nat, kind: ContentType,
                  now: int, gone: set<Uuid>, ok: bool, objectOk: nat -> bool)
    requires i < |all| && Cleared(v, mid, gone, kind)
    requires Progress(gone, Deletable(db, v, user, Elements(all[..i]), kind, now), objectOk)
    requires ok ==> CanDelete(db, mid, user, all[i], kind, now)
    requires !ok && objectOk(i) ==> !CanDelete(db, mid, user, all[i], kind, now)
    requires v'.artifacts == if ok then mid.artifacts - {(all[i], kind)} else mid.artifacts
    requires v'.attachments == mid.attachments && SameAccounts(v'.groups, mid.groups)
    ensures var gone' := if ok then gone + {all[i]} else gone;
      && Cleared(v, v', gone', kind) && |gone'| == |gone| + (if ok then 1 else 0)
      && Progress(gone', Deletable(db, v, user, Elements(all[..i + 1]), kind, now), objectOk)
  {
    DeletableNext(db, v, mid, user, all, i, kind, now, gone);
    if ok {
      ClearedNext(v, mid, v', gone, kind, all[i]);
      OneMore(gone, all[i]);
    } else {
      ClearedSame(v, mid, v', gone, kind);
    }
  }

  lemma CollectedAll(db: Db, v: Vault, user: UserId, uuids: seq<Uuid>, all: seq<Uuid>, kind: ContentType, now: int)
    requires Elements(all) == set u | u in uuids && (u, kind) in v.artifacts
    ensures Deletable(db, v, user, Elements(all), kind, now) == Deletable(db, v, user, Elements(uuids), kind, now)
  {
  }
}
