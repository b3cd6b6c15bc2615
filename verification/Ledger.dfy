/** The storage ledger: `groups.storage_used` is kept by adding and subtracting at every
    upload and delete. It is compared with the sum over the rows it stands for. */
module Ledger {
  import opened Schema
  import opened Tables
  import opened Invariants

  const TWO_TO_63: int := 0x8000_0000_0000_0000
  const TWO_TO_64: int := 0x1_0000_0000_0000_0000

  /** What a client may announce as content length. */
  type U64 = n: nat | n < TWO_TO_64

  datatype ContentType = ResultFiles | ExecLog | StdLog

  /** A row of `attachments` or `artifacts`. */
  datatype File = File(size: int, updatedAt: int)

  /** The storage columns of a row of `groups`. */
  datatype Account = Account(active: bool, used: int, quota: int)

  type AttachmentKey = (GroupId, string)
  type ArtifactKey = (Uuid, ContentType)

  datatype Vault = Vault(
    groups: map<GroupId, Account>,
    attachments: map<AttachmentKey, File>,
    artifacts: map<ArtifactKey, File>)

  // ----- the arithmetic of one call

  /** The cast of an unsigned 64-bit length to a signed one. */
  function AsI64(n: U64): int {
    if n < TWO_TO_63 then n else n - TWO_TO_64
  }

  /** Signed 64-bit addition and subtraction wrap around. */
  function Wrap(x: int): int {
    (x + TWO_TO_63) % TWO_TO_64 - TWO_TO_63
  }

  function SaturatingSub(a: int, b: int): int {
    if a - b < -TWO_TO_63 then -TWO_TO_63 else if a - b >= TWO_TO_63 then TWO_TO_63 - 1 else a - b
  }

  function SizeOf(was: Option<File>): int {
    if was.Some? then was.value.size else 0
  }

  /** The size a row records: an upload over an existing row never lowers it. */
  function Recorded(was: Option<File>, length: U64): int {
    if was.Some? && was.value.size > AsI64(length) then was.value.size else AsI64(length)
  }

  function NewUsed(account: Account, was: Option<File>, length: U64): int {
    Wrap(account.used + Wrap(Recorded(was, length) - SizeOf(was)))
  }

  function Lookup<K, V>(m: map<K, V>, k: K): Option<V> {
    if k in m then Some(m[k]) else None
  }

  /** Group found and active, quota not exceeded, and a link obtained, which is refused for a
      length whose cast is negative. */
  predicate Accepts(v: Vault, g: GroupId, was: Option<File>, length: U64, linkOk: bool) {
    && g in v.groups && v.groups[g].active && NewUsed(v.groups[g], was, length) <= v.groups[g].quota
    && AsI64(length) >= 0 && linkOk
  }

  function WithUsed(groups: map<GroupId, Account>, g: GroupId, used: int): map<GroupId, Account>
    requires g in groups
  {
    groups[g := groups[g].(used := used)]
  }

  function PutArtifact(v: Vault, g: GroupId, a: ArtifactKey, length: U64, now: int, linkOk: bool): Vault {
    var was := Lookup(v.artifacts, a);
    if !Accepts(v, g, was, length, linkOk) then v
    else v.(artifacts := v.artifacts[a := File(Recorded(was, length), now)],
            groups := WithUsed(v.groups, g, NewUsed(v.groups[g], was, length)))
  }

  function PutAttachment(v: Vault, k: AttachmentKey, length: U64, now: int, linkOk: bool): Vault {
    var was := Lookup(v.attachments, k);
    if !Accepts(v, k.0, was, length, linkOk) then v
    else v.(attachments := v.attachments[k := File(Recorded(was, length), now)],
            groups := WithUsed(v.groups, k.0, NewUsed(v.groups[k.0], was, length)))
  }

  function DropArtifact(v: Vault, g: GroupId, a: ArtifactKey): Vault {
    if g !in v.groups || a !in v.artifacts then v
    else v.(artifacts := v.artifacts - {a},
            groups := WithUsed(v.groups, g, SaturatingSub(v.groups[g].used, v.artifacts[a].size)))
  }

  function DropAttachment(v: Vault, k: AttachmentKey): Vault {
    if k.0 !in v.groups || k !in v.attachments then v
    else v.(attachments := v.attachments - {k},
            groups := WithUsed(v.groups, k.0, SaturatingSub(v.groups[k.0].used, v.attachments[k].size)))
  }

  // ----- what the ledger should say

  ghost function Total<K(!new)>(m: map<K, File>): int
    decreases m.Keys
  {
    if m == map[] then 0 else var k :| k in m; m[k].size + Total(m - {k})
  }

  /** A task of this uuid, in either table, belongs to the group. */
  ghost predicate InGroup(db: Db, u: Uuid, g: GroupId) {
    exists t :: t in Ids(db) && Row(db, t).uuid == u && Row(db, t).group == g
  }

  ghost predicate Known(db: Db, u: Uuid) {
    exists t :: t in Ids(db) && Row(db, t).uuid == u
  }

  ghost function AttachmentsOf(v: Vault, g: GroupId): map<AttachmentKey, File> {
    map k | k in v.attachments && k.0 == g :: v.attachments[k]
  }

  ghost function ArtifactsOf(db: Db, v: Vault, g: GroupId): map<ArtifactKey, File> {
    map a | a in v.artifacts && InGroup(db, a.0, g) :: v.artifacts[a]
  }

  ghost function Stored(db: Db, v: Vault, g: GroupId): int {
    Total(AttachmentsOf(v, g)) + Total(ArtifactsOf(db, v, g))
  }

  /** Every group is charged exactly for the rows it owns. */
  ghost predicate Balanced(db: Db, v: Vault) {
    forall g :: g in v.groups ==> v.groups[g].used == Stored(db, v, g)
  }

  ghost predicate Sized<K(!new)>(m: map<K, File>) {
    forall k :: k in m ==> m[k].size >= 0
  }

  ghost predicate Sane(db: Db, v: Vault) {
    Balanced(db, v) && Regular(db, v)
  }

  ghost predicate Regular(db: Db, v: Vault) {
    && Sized(v.attachments) && Sized(v.artifacts)
    && (forall g :: g in v.groups ==> v.groups[g].used < TWO_TO_63)
    && (forall a :: a in v.artifacts ==> Known(db, a.0))
  }

  // ----- sums

  lemma {:induction false} TotalSplit<K(!new)>(m: map<K, File>, k: K)
    requires k in m
    ensures Total(m) == m[k].size + Total(m - {k})
    decreases m.Keys
  {
    var x :| x in m && Total(m) == m[x].size + Total(m - {x});
    if x != k {
      TotalSplit(m - {x}, k);
      TotalSplit(m - {k}, x);
      assert m - {x} - {k} == m - {k} - {x};
    }
  }

  lemma TotalPut<K(!new)>(m: map<K, File>, k: K, f: File)
    ensures Total(m[k := f]) == Total(m) - SizeOf(Lookup(m, k)) + f.size
  {
    TotalSplit(m[k := f], k);
    assert m[k := f] - {k} == m - {k};
    if k in m { TotalSplit(m, k); } else { assert m - {k} == m; }
  }

  lemma {:induction false} TotalBounds<K(!new)>(m: map<K, File>)
    requires Sized(m)
    ensures Total(m) >= 0 && forall k :: k in m ==> m[k].size <= Total(m)
    decreases m.Keys
  {
    if m != map[] {
      var x :| x in m && Total(m) == m[x].size + Total(m - {x});
      TotalBounds(m - {x});
      forall k | k in m ensures m[k].size <= Total(m) {
        assert k != x ==> k in m - {x};
      }
    }
  }

  // ----- one call

  lemma StoredAfterPutArtifact(db: Db, v: Vault, v': Vault, g: GroupId, a: ArtifactKey, f: File)
    requires UniqueUuids(db) && InGroup(db, a.0, g)
    requires v'.artifacts == v.artifacts[a := f] && v'.attachments == v.attachments
    ensures Stored(db, v', g) == Stored(db, v, g) - SizeOf(Lookup(v.artifacts, a)) + f.size
    ensures forall h :: h != g ==> Stored(db, v', h) == Stored(db, v, h)
  {
    assert forall h :: AttachmentsOf(v', h) == AttachmentsOf(v, h);
    assert ArtifactsOf(db, v', g) == ArtifactsOf(db, v, g)[a := f];
    TotalPut(ArtifactsOf(db, v, g), a, f);
    forall h | h != g ensures ArtifactsOf(db, v', h) == ArtifactsOf(db, v, h) {
      OneGroup(db, a.0, g, h);
    }
  }

  lemma OneGroup(db: Db, u: Uuid, g: GroupId, h: GroupId)
    requires UniqueUuids(db) && InGroup(db, u, g) && g != h
    ensures !InGroup(db, u, h)
  {
  }

  lemma StoredAfterPutAttachment(db: Db, v: Vault, v': Vault, k: AttachmentKey, f: File)
    requires v'.attachments == v.attachments[k := f] && v'.artifacts == v.artifacts
    ensures Stored(db, v', k.0) == Stored(db, v, k.0) - SizeOf(Lookup(v.attachments, k)) + f.size
    ensures forall h :: h != k.0 ==> Stored(db, v', h) == Stored(db, v, h)
  {
    assert forall h :: ArtifactsOf(db, v', h) == ArtifactsOf(db, v, h);
    assert AttachmentsOf(v', k.0) == AttachmentsOf(v, k.0)[k := f];
    TotalPut(AttachmentsOf(v, k.0), k, f);
    assert forall h :: h != k.0 ==> AttachmentsOf(v', h) == AttachmentsOf(v, h);
  }

  lemma StoredAfterDropArtifact(db: Db, v: Vault, v': Vault, g: GroupId, a: ArtifactKey)
    requires UniqueUuids(db) && InGroup(db, a.0, g) && a in v.artifacts
    requires v'.artifacts == v.artifacts - {a} && v'.attachments == v.attachments
    ensures Stored(db, v', g) == Stored(db, v, g) - v.artifacts[a].size
    ensures forall h :: h != g ==> Stored(db, v', h) == Stored(db, v, h)
  {
    var back := v'.(artifacts := v.artifacts);
    assert v'.artifacts[a := v.artifacts[a]] == v.artifacts;
    StoredAfterPutArtifact(db, v', back, g, a, v.artifacts[a]);
    assert forall h :: ArtifactsOf(db, back, h) == ArtifactsOf(db, v, h);
    assert forall h :: AttachmentsOf(back, h) == AttachmentsOf(v, h);
  }

  lemma StoredAfterDropAttachment(db: Db, v: Vault, v': Vault, k: AttachmentKey)
    requires k in v.attachments
    requires v'.attachments == v.attachments - {k} && v'.artifacts == v.artifacts
    ensures Stored(db, v', k.0) == Stored(db, v, k.0) - v.attachments[k].size
    ensures forall h :: h != k.0 ==> Stored(db, v', h) == Stored(db, v, h)
  {
    var back := v'.(attachments := v.attachments);
    assert v'.attachments[k := v.attachments[k]] == v.attachments;
    StoredAfterPutAttachment(db, v', back, k, v.attachments[k]);
    assert forall h :: ArtifactsOf(db, back, h) == ArtifactsOf(db, v, h);
    assert forall h :: AttachmentsOf(back, h) == AttachmentsOf(v, h);
  }

  lemma RowWithinUsed(db: Db, v: Vault, g: GroupId)
    requires Sane(db, v) && g in v.groups
    ensures 0 <= v.groups[g].used
    ensures forall k :: k in AttachmentsOf(v, g) ==> v.attachments[k].size <= v.groups[g].used
    ensures forall a :: a in ArtifactsOf(db, v, g) ==> v.artifacts[a].size <= v.groups[g].used
  {
    TotalBounds(AttachmentsOf(v, g));
    TotalBounds(ArtifactsOf(db, v, g));
  }

  /** The sum over the group's rows stays a signed 64-bit number. A caller can see this before
      the call. */
  predicate Fits(account: Account, was: Option<File>, length: U64) {
    account.used - SizeOf(was) + length < TWO_TO_63
  }

  /** The new total is the true one exactly when that one fits. */
  lemma ChargeExactIff(account: Account, was: Option<File>, length: U64)
    requires 0 <= SizeOf(was) <= account.used < TWO_TO_63 && AsI64(length) >= 0
    ensures Recorded(was, length) >= 0
    ensures Fits(account, was, length) <==>
      NewUsed(account, was, length) == account.used - SizeOf(was) + Recorded(was, length)
    ensures Fits(account, was, length) ==> NewUsed(account, was, length) < TWO_TO_63
  {
    ChargeWraps(account, was, length);
  }

  /** A length that does not fit makes the total negative, so that no quota of zero or more
      refuses it. */
  lemma ChargeWraps(account: Account, was: Option<File>, length: U64)
    requires 0 <= SizeOf(was) <= account.used < TWO_TO_63 && AsI64(length) >= 0
    ensures var total := account.used - SizeOf(was) + Recorded(was, length);
      && (Fits(account, was, length) ==> NewUsed(account, was, length) == total < TWO_TO_63)
      && (!Fits(account, was, length) ==> NewUsed(account, was, length) == total - TWO_TO_64 < 0)
  {
    var step := Recorded(was, length) - SizeOf(was);
    WrapIs(step);
    WrapIs(account.used + step);
  }

  lemma WrapIs(x: int)
    requires -TWO_TO_64 <= x < TWO_TO_64
    ensures Wrap(x) == if x < -TWO_TO_63 then x + TWO_TO_64 else if x < TWO_TO_63 then x else x - TWO_TO_64
  {
  }

  /** An accepted artifact upload keeps the ledger sane exactly when the length fits, and then
      what the group stores is within its quota. */
  lemma UploadArtifactIff(db: Db, v: Vault, g: GroupId, a: ArtifactKey, length: U64, now: int)
    requires Sane(db, v) && UniqueUuids(db) && InGroup(db, a.0, g)
    requires Accepts(v, g, Lookup(v.artifacts, a), length, true)
    ensures var v' := PutArtifact(v, g, a, length, now, true);
      && (Sane(db, v') <==> Fits(v.groups[g], Lookup(v.artifacts, a), length))
      && (Sane(db, v') ==> 0 <= Stored(db, v', g) <= v'.groups[g].quota)
  {
    if Fits(v.groups[g], Lookup(v.artifacts, a), length) {
      ArtifactFits(db, v, g, a, length, now);
      RowWithinUsed(db, PutArtifact(v, g, a, length, now, true), g);
    } else {
      ArtifactMisfits(db, v, g, a, length, now);
    }
  }

  lemma ArtifactFits(db: Db, v: Vault, g: GroupId, a: ArtifactKey, length: U64, now: int)
    requires Sane(db, v) && UniqueUuids(db) && InGroup(db, a.0, g)
    requires Accepts(v, g, Lookup(v.artifacts, a), length, true)
    requires Fits(v.groups[g], Lookup(v.artifacts, a), length)
    ensures Sane(db, PutArtifact(v, g, a, length, now, true))
  {
    ArtifactWithinUsed(db, v, g, a);
    ArtifactBalanced(db, v, g, a, length, now);
    ArtifactRegular(db, v, g, a, length, now);
  }

  lemma ArtifactBalanced(db: Db, v: Vault, g: GroupId, a: ArtifactKey, length: U64, now: int)
    requires Balanced(db, v) && UniqueUuids(db) && InGroup(db, a.0, g)
    requires Accepts(v, g, Lookup(v.artifacts, a), length, true)
    requires 0 <= SizeOf(Lookup(v.artifacts, a)) <= v.groups[g].used < TWO_TO_63
    requires Fits(v.groups[g], Lookup(v.artifacts, a), length)
    ensures Balanced(db, PutArtifact(v, g, a, length, now, true))
  {
    var was, v' := Lookup(v.artifacts, a), PutArtifact(v, g, a, length, now, true);
    StoredAfterPutArtifact(db, v, v', g, a, File(Recorded(was, length), now));
    ChargeExactIff(v.groups[g], was, length);
    Rebalanced(db, v, v', g, NewUsed(v.groups[g], was, length));
  }

  lemma ArtifactRegular(db: Db, v: Vault, g: GroupId, a: ArtifactKey, length: U64, now: int)
    requires Regular(db, v) && InGroup(db, a.0, g)
    requires Accepts(v, g, Lookup(v.artifacts, a), length, true)
    requires 0 <= SizeOf(Lookup(v.artifacts, a)) <= v.groups[g].used < TWO_TO_63
    requires Fits(v.groups[g], Lookup(v.artifacts, a), length)
    ensures Regular(db, PutArtifact(v, g, a, length, now, true))
  {
    ChargeExactIff(v.groups[g], Lookup(v.artifacts, a), length);
    Owned(db, a.0, g);
  }

  lemma Rebalanced(db: Db, v: Vault, v': Vault, g: GroupId, used: int)
    requires Balanced(db, v) && g in v.groups && v'.groups == WithUsed(v.groups, g, used)
    requires used == Stored(db, v', g) && forall h :: h != g ==> Stored(db, v', h) == Stored(db, v, h)
    ensures Balanced(db, v')
  {
  }

  lemma Owned(db: Db, u: Uuid, g: GroupId)
    requires InGroup(db, u, g)
    ensures Known(db, u)
  {
  }

  lemma SameStored(db: Db, v: Vault, v': Vault, g: GroupId)
    requires v'.attachments == v.attachments && v'.artifacts == v.artifacts
    ensures Stored(db, v', g) == Stored(db, v, g)
  {
    assert AttachmentsOf(v', g) == AttachmentsOf(v, g);
    assert ArtifactsOf(db, v', g) == ArtifactsOf(db, v, g);
  }

  lemma ArtifactMisfits(db: Db, v: Vault, g: GroupId, a: ArtifactKey, length: U64, now: int)
    requires Sane(db, v) && UniqueUuids(db) && InGroup(db, a.0, g)
    requires Accepts(v, g, Lookup(v.artifacts, a), length, true)
    requires !Fits(v.groups[g], Lookup(v.artifacts, a), length)
    ensures !Sane(db, PutArtifact(v, g, a, length, now, true))
  {
    var was, v' := Lookup(v.artifacts, a), PutArtifact(v, g, a, length, now, true);
    ArtifactWithinUsed(db, v, g, a);
    StoredAfterPutArtifact(db, v, v', g, a, File(Recorded(was, length), now));
    ChargeExactIff(v.groups[g], was, length);
    assert v'.groups[g].used != Stored(db, v', g);
  }

  lemma ArtifactWithinUsed(db: Db, v: Vault, g: GroupId, a: ArtifactKey)
    requires Sane(db, v) && InGroup(db, a.0, g) && g in v.groups
    ensures 0 <= SizeOf(Lookup(v.artifacts, a)) <= v.groups[g].used
  {
    RowWithinUsed(db, v, g);
    assert a in v.artifacts ==> a in ArtifactsOf(db, v, g);
  }

  lemma UploadAttachmentIff(db: Db, v: Vault, k: AttachmentKey, length: U64, now: int)
    requires Sane(db, v) && Accepts(v, k.0, Lookup(v.attachments, k), length, true)
    ensures var v' := PutAttachment(v, k, length, now, true);
      && (Sane(db, v') <==> Fits(v.groups[k.0], Lookup(v.attachments, k), length))
      && (Sane(db, v') ==> 0 <= Stored(db, v', k.0) <= v'.groups[k.0].quota)
  {
    if Fits(v.groups[k.0], Lookup(v.attachments, k), length) {
      AttachmentFits(db, v, k, length, now);
      RowWithinUsed(db, PutAttachment(v, k, length, now, true), k.0);
    } else {
      AttachmentMisfits(db, v, k, length, now);
    }
  }

  lemma AttachmentFits(db: Db, v: Vault, k: AttachmentKey, length: U64, now: int)
    requires Sane(db, v) && Accepts(v, k.0, Lookup(v.attachments, k), length, true)
    requires Fits(v.groups[k.0], Lookup(v.attachments, k), length)
    ensures Sane(db, PutAttachment(v, k, length, now, true))
  {
    var was, v' := Lookup(v.attachments, k), PutAttachment(v, k, length, now, true);
    AttachmentWithinUsed(db, v, k);
    StoredAfterPutAttachment(db, v, v', k, File(Recorded(was, length), now));
    ChargeExactIff(v.groups[k.0], was, length);
    Rebalanced(db, v, v', k.0, NewUsed(v.groups[k.0], was, length));
  }

  lemma AttachmentMisfits(db: Db, v: Vault, k: AttachmentKey, length: U64, now: int)
    requires Sane(db, v) && Accepts(v, k.0, Lookup(v.attachments, k), length, true)
    requires !Fits(v.groups[k.0], Lookup(v.attachments, k), length)
    ensures !Sane(db, PutAttachment(v, k, length, now, true))
  {
    var was, v' := Lookup(v.attachments, k), PutAttachment(v, k, length, now, true);
    AttachmentWithinUsed(db, v, k);
    StoredAfterPutAttachment(db, v, v', k, File(Recorded(was, length), now));
    ChargeExactIff(v.groups[k.0], was, length);
    assert v'.groups[k.0].used != Stored(db, v', k.0);
  }

  lemma AttachmentWithinUsed(db: Db, v: Vault, k: AttachmentKey)
    requires Sane(db, v) && k.0 in v.groups
    ensures 0 <= SizeOf(Lookup(v.attachments, k)) <= v.groups[k.0].used
  {
    RowWithinUsed(db, v, k.0);
    assert k in v.attachments ==> k in AttachmentsOf(v, k.0);
  }

  lemma DropArtifactSane(db: Db, v: Vault, g: GroupId, a: ArtifactKey)
    requires Sane(db, v) && UniqueUuids(db) && InGroup(db, a.0, g)
    ensures Sane(db, DropArtifact(v, g, a))
  {
    if g in v.groups && a in v.artifacts {
      ArtifactWithinUsed(db, v, g, a);
      StoredAfterDropArtifact(db, v, DropArtifact(v, g, a), g, a);
    }
  }

  lemma DropAttachmentSane(db: Db, v: Vault, k: AttachmentKey)
    requires Sane(db, v)
    ensures Sane(db, DropAttachment(v, k))
  {
    if k.0 in v.groups && k in v.attachments {
      RowWithinUsed(db, v, k.0);
      assert k in AttachmentsOf(v, k.0);
      StoredAfterDropAttachment(db, v, DropAttachment(v, k), k);
    }
  }

  // ----- all runs

  /** Storage calls interleaved with the steps of the coordinator. An artifact call names the
      group that the lookup of its task returned. */
  datatype Event =
    | Protocol(step: Step)
    | UploadArtifact(g: GroupId, a: ArtifactKey, length: U64, now: int, linkOk: bool)
    | UploadAttachment(k: AttachmentKey, length: U64, now: int, linkOk: bool)
    | DeleteArtifact(g: GroupId, a: ArtifactKey)
    | DeleteAttachment(k: AttachmentKey)
    | SetQuota(g: GroupId, quota: int)

  function VaultAfter(v: Vault, e: Event): Vault {
    match e
    case Protocol(_) => v
    case UploadArtifact(g, a, length, now, linkOk) => PutArtifact(v, g, a, length, now, linkOk)
    case UploadAttachment(k, length, now, linkOk) => PutAttachment(v, k, length, now, linkOk)
    case DeleteArtifact(g, a) => DropArtifact(v, g, a)
    case DeleteAttachment(k) => DropAttachment(v, k)
    case SetQuota(g, quota) =>
      if g in v.groups then v.(groups := v.groups[g := v.groups[g].(quota := quota)]) else v
  }

  ghost function TablesAfter(db: Db, e: Event): Db {
    if e.Protocol? then DbApply(db, e.step) else db
  }

  /** Artifact calls found a task of the group, and the coordinator's steps are guarded. */
  ghost predicate Genuine(db: Db, e: Event) {
    match e
    case Protocol(step) => DbGuard(db, step)
    case UploadArtifact(g, a, _, _, _) => InGroup(db, a.0, g)
    case DeleteArtifact(g, a) => InGroup(db, a.0, g)
    case _ => true
  }

  /** The length of an upload fits if it is accepted. */
  predicate Fitting(v: Vault, e: Event) {
    match e
    case UploadArtifact(g, a, length, _, linkOk) =>
      Accepts(v, g, Lookup(v.artifacts, a), length, linkOk) ==>
        Fits(v.groups[g], Lookup(v.artifacts, a), length)
    case UploadAttachment(k, length, _, linkOk) =>
      Accepts(v, k.0, Lookup(v.attachments, k), length, linkOk) ==>
        Fits(v.groups[k.0], Lookup(v.attachments, k), length)
    case _ => true
  }

  /** Which group a known uuid belongs to never changes, not even when its task is archived. */
  lemma GroupStays(db: Db, db': Db, u: Uuid, g: GroupId)
    requires Extends(db, db') && UniqueUuids(db') && Known(db, u)
    ensures InGroup(db', u, g) <==> InGroup(db, u, g)
  {
    var t :| t in Ids(db) && Row(db, t).uuid == u;
    assert SameIdentity(Row(db, t), Row(db', t));
    assert InGroup(db, u, Row(db, t).group) && InGroup(db', u, Row(db, t).group);
  }

  lemma KnownStays(db: Db, db': Db, u: Uuid)
    requires Extends(db, db') && Known(db, u)
    ensures Known(db', u)
  {
    var t :| t in Ids(db) && Row(db, t).uuid == u;
    assert SameIdentity(Row(db, t), Row(db', t));
  }

  /** The coordinator's steps charge and refund nobody: whatever is committed, cancelled or
      inserted, every group owns the files it owned. */
  lemma ProtocolKeepsOwners(db: Db, v: Vault, step: Step)
    requires Inv(db) && DbGuard(db, step) && forall a :: a in v.artifacts ==> Known(db, a.0)
    ensures forall g :: ArtifactsOf(DbApply(db, step), v, g) == ArtifactsOf(db, v, g)
    ensures forall a :: a in v.artifacts ==> Known(DbApply(db, step), a.0)
  {
    StepKeeps(db, step);
    OwnersStay(db, DbApply(db, step), v);
  }

  lemma OwnersStay(db: Db, db': Db, v: Vault)
    requires Extends(db, db') && UniqueUuids(db') && forall a :: a in v.artifacts ==> Known(db, a.0)
    ensures forall g :: ArtifactsOf(db', v, g) == ArtifactsOf(db, v, g)
    ensures forall a :: a in v.artifacts ==> Known(db', a.0)
  {
    forall g, a | a in v.artifacts ensures InGroup(db', a.0, g) <==> InGroup(db, a.0, g) {
      GroupStays(db, db', a.0, g);
    }
    forall a | a in v.artifacts ensures Known(db', a.0) {
      KnownStays(db, db', a.0);
    }
  }

  lemma ProtocolSane(db: Db, v: Vault, step: Step)
    requires Inv(db) && Sane(db, v) && DbGuard(db, step)
    ensures Inv(DbApply(db, step)) && Sane(DbApply(db, step), v)
  {
    StepKeeps(db, step);
    ProtocolKeepsOwners(db, v, step);
  }

  /** An event keeps the ledger sane exactly if it is not an accepted upload that does not fit. */
  lemma EventSaneIff(db: Db, v: Vault, e: Event)
    requires Inv(db) && Sane(db, v) && Genuine(db, e)
    ensures Inv(TablesAfter(db, e)) && (Sane(TablesAfter(db, e), VaultAfter(v, e)) <==> Fitting(v, e))
  {
    match e
    case Protocol(step) => ProtocolSane(db, v, step);
    case UploadArtifact(g, a, length, now, linkOk) =>
      if Accepts(v, g, Lookup(v.artifacts, a), length, linkOk) { UploadArtifactIff(db, v, g, a, length, now); }
    case UploadAttachment(k, length, now, linkOk) =>
      if Accepts(v, k.0, Lookup(v.attachments, k), length, linkOk) { UploadAttachmentIff(db, v, k, length, now); }
    case DeleteArtifact(g, a) => DropArtifactSane(db, v, g, a);
    case DeleteAttachment(k) => DropAttachmentSane(db, v, k);
    case SetQuota(g, quota) => QuotaSane(db, v, g, quota);
  }

  lemma QuotaSane(db: Db, v: Vault, g: GroupId, quota: int)
    requires Sane(db, v)
    ensures Sane(db, VaultAfter(v, SetQuota(g, quota)))
  {
    var v' := VaultAfter(v, SetQuota(g, quota));
    forall h | h in v.groups ensures v'.groups[h].used == Stored(db, v', h) {
      SameStored(db, v, v', h);
    }
  }

  ghost predicate GenuineRun(db: Db, es: seq<Event>)
    decreases |es|
  {
    es == [] || (Genuine(db, es[0]) && GenuineRun(TablesAfter(db, es[0]), es[1..]))
  }

  predicate FittingRun(v: Vault, es: seq<Event>)
    decreases |es|
  {
    es == [] || (Fitting(v, es[0]) && FittingRun(VaultAfter(v, es[0]), es[1..]))
  }

  /** The ledger is sane after every event of the run. */
  ghost predicate AlwaysSane(db: Db, v: Vault, es: seq<Event>)
    decreases |es|
  {
    Sane(db, v) && (es != [] ==> AlwaysSane(TablesAfter(db, es[0]), VaultAfter(v, es[0]), es[1..]))
  }

  ghost function TablesAt(db: Db, es: seq<Event>): Db
    decreases |es|
  {
    if es == [] then db else TablesAt(TablesAfter(db, es[0]), es[1..])
  }

  function VaultAt(v: Vault, es: seq<Event>): Vault
    decreases |es|
  {
    if es == [] then v else VaultAt(VaultAfter(v, es[0]), es[1..])
  }

  ghost predicate Unused(v: Vault) {
    v.attachments == map[] && v.artifacts == map[] && forall g :: g in v.groups ==> v.groups[g].used == 0
  }

  /** The ledger is sane throughout a run exactly if every accepted upload fits. */
  lemma {:induction false} AlwaysSaneIff(db: Db, v: Vault, es: seq<Event>)
    requires Inv(db) && Sane(db, v) && GenuineRun(db, es)
    ensures AlwaysSane(db, v, es) <==> FittingRun(v, es)
    ensures FittingRun(v, es) ==> Sane(TablesAt(db, es), VaultAt(v, es))
    decreases |es|
  {
    if es != [] {
      EventSaneIff(db, v, es[0]);
      if Fitting(v, es[0]) {
        AlwaysSaneIff(TablesAfter(db, es[0]), VaultAfter(v, es[0]), es[1..]);
      } else {
        NotSane(TablesAfter(db, es[0]), VaultAfter(v, es[0]), es[1..]);
      }
    }
  }

  lemma NotSane(db: Db, v: Vault, es: seq<Event>)
    requires !Sane(db, v)
    ensures !AlwaysSane(db, v, es)
  {
  }

  lemma UnusedSane(db: Db, v: Vault)
    requires Unused(v)
    ensures Sane(db, v)
  {
    forall h ensures AttachmentsOf(v, h) == map[] && ArtifactsOf(db, v, h) == map[] {}
  }

  /** In every reachable state a group's `storage_used` is the sum over the rows it owns and
      is not negative. */
  lemma LedgerBalanced(db: Db, v: Vault, es: seq<Event>, g: GroupId)
    requires Initial(db) && Unused(v) && GenuineRun(db, es) && FittingRun(v, es) && g in VaultAt(v, es).groups
    ensures VaultAt(v, es).groups[g].used == Stored(TablesAt(db, es), VaultAt(v, es), g)
    ensures VaultAt(v, es).groups[g].used >= 0
  {
    InitialInv(db);
    UnusedSane(db, v);
    AlwaysSaneIff(db, v, es);
    RowWithinUsed(TablesAt(db, es), VaultAt(v, es), g);
  }

  /** An upload that no quota of zero or more refuses: the group then stores more than its
      quota, and its total is negative. */
  lemma HugeLength(v: Vault, k: AttachmentKey, now: int)
    requires k !in v.attachments && k.0 in v.groups && v.groups[k.0] == Account(true, 1, 100)
    ensures Accepts(v, k.0, None, TWO_TO_63 - 1, true)
    ensures var v' := PutAttachment(v, k, TWO_TO_63 - 1, now, true);
      v'.attachments[k].size == TWO_TO_63 - 1 && v'.groups[k.0].used == -TWO_TO_63
  {
  }

  /** A length whose cast is negative is refused, whatever the quota. */
  lemma NegativeCastRefused(v: Vault, k: AttachmentKey, g: GroupId, a: ArtifactKey, length: U64, now: int, linkOk: bool)
    requires length >= TWO_TO_63
    ensures PutAttachment(v, k, length, now, linkOk) == v && PutArtifact(v, g, a, length, now, linkOk) == v
  {
  }

  /** What an upload records: the announced length, or the size already recorded if that is more. */
  lemma RecordedIsMax(was: Option<File>, length: U64)
    requires length < TWO_TO_63
    ensures var size := Recorded(was, length);
      && size >= length && (was.Some? ==> size >= was.value.size)
      && (size == length || (was.Some? && size == was.value.size))
  {
  }

  /** The rows after an accepted upload: the one uploaded to, with the time of the upload, and all
      others as they were. */
  lemma UploadEffect(v: Vault, g: GroupId, a: ArtifactKey, k: AttachmentKey, length: U64, now: int)
    ensures Accepts(v, g, Lookup(v.artifacts, a), length, true) ==>
      var v' := PutArtifact(v, g, a, length, now, true);
      && v'.artifacts == v.artifacts[a := File(Recorded(Lookup(v.artifacts, a), length), now)]
      && v'.attachments == v.attachments && v'.groups.Keys == v.groups.Keys
      && forall h :: h in v.groups && h != g ==> v'.groups[h] == v.groups[h]
    ensures Accepts(v, k.0, Lookup(v.attachments, k), length, true) ==>
      var v' := PutAttachment(v, k, length, now, true);
      && v'.attachments == v.attachments[k := File(Recorded(Lookup(v.attachments, k), length), now)]
      && v'.artifacts == v.artifacts && v'.groups.Keys == v.groups.Keys
      && forall h :: h in v.groups && h != k.0 ==> v'.groups[h] == v.groups[h]
  {
  }

  /** An upload that fits is accepted exactly if the group is active, the link is granted and what
      the group then stores is within its quota. */
  lemma AcceptsIff(db: Db, v: Vault, g: GroupId, a: ArtifactKey, length: U64, linkOk: bool)
    requires Sane(db, v) && InGroup(db, a.0, g) && g in v.groups && length < TWO_TO_63
    requires Fits(v.groups[g], Lookup(v.artifacts, a), length)
    ensures var was := Lookup(v.artifacts, a);
      Accepts(v, g, was, length, linkOk) <==>
      v.groups[g].active && linkOk && Stored(db, v, g) - SizeOf(was) + Recorded(was, length) <= v.groups[g].quota
  {
    ArtifactWithinUsed(db, v, g, a);
    ChargeExactIff(v.groups[g], Lookup(v.artifacts, a), length);
  }

  lemma AttachmentAcceptsIff(db: Db, v: Vault, k: AttachmentKey, length: U64, linkOk: bool)
    requires Sane(db, v) && k.0 in v.groups && length < TWO_TO_63
    requires Fits(v.groups[k.0], Lookup(v.attachments, k), length)
    ensures var was := Lookup(v.attachments, k);
      Accepts(v, k.0, was, length, linkOk) <==>
      v.groups[k.0].active && linkOk
      && Stored(db, v, k.0) - SizeOf(was) + Recorded(was, length) <= v.groups[k.0].quota
  {
    AttachmentWithinUsed(db, v, k);
    ChargeExactIff(v.groups[k.0], Lookup(v.attachments, k), length);
  }
}
