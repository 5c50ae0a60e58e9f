/** Publishing identity updates: snapshot isolation, an advisory lock per inbox, the conflict on
    the touched inbox row and the retry together serialise each inbox's log
    (pkg/mls/store/store.go). Every interleaving of publishers is a run. */
module IdentityLog {
  import opened WaveScan

  const MAX_ENTRIES := 256
  const NUM_RETRIES := 3

  type Inbox = nat
  type Update = nat

  /** A committed row of inbox_log. `against` are the sequence ids its publisher validated it
      against, `publisher` who: history, read by no query. */
  datatype Entry = Entry(seqId: nat, inbox: Inbox, update: Update, against: seq<nat>, publisher: nat)

  /** Where a publisher's transaction stands. `snap` counts the commits its snapshot sees: the
      snapshot is taken by the first statement, the one that asks for the lock. */
  datatype Phase =
    | Idle
    | Waiting(snap: nat)
    | Locked(snap: nat)
    | Inserted(snap: nat, seqId: nat)
    | Touched(snap: nat, seqId: nat)
    | Done(ok: bool)

  datatype Publisher = Publisher(inbox: Inbox, update: Update, attempts: nat, phase: Phase)

  /** `log` in commit order; `nextSeq` the sequence, which no rollback takes back; `locks` the
      advisory locks held, by key. */
  datatype Db = Db(log: seq<Entry>, nextSeq: nat, locks: map<nat, nat>, pubs: map<nat, Publisher>)

  /** The validation service, and the hash that picks an inbox's lock. */
  datatype World = World(accepts: (seq<Update>, Update) -> bool, lockKey: Inbox -> nat)

  /** The committed entries of one inbox, in commit order. */
  function Of(log: seq<Entry>, inbox: Inbox): seq<Entry> {
    if log == [] then []
    else
      var earlier, last := Of(log[..|log| - 1], inbox), log[|log| - 1];
      if last.inbox == inbox then earlier + [last] else earlier
  }

  function Ids(es: seq<Entry>): seq<nat> { seq(|es|, i requires 0 <= i < |es| => es[i].seqId) }

  function Updates(es: seq<Entry>): seq<Update> { seq(|es|, i requires 0 <= i < |es| => es[i].update) }

  /** `Lose` is a COMMIT that takes effect while its acknowledgement does not arrive. */
  datatype Step =
    | Begin(p: nat)
    | Lock(p: nat)
    | Insert(p: nat)
    | Touch(p: nat)
    | Commit(p: nat)
    | Lose(p: nat)
    | Break(p: nat)

  predicate InTx(ph: Phase) { ph.Waiting? || HoldsLock(ph) }

  predicate HoldsLock(ph: Phase) { ph.Locked? || ph.Inserted? || ph.Touched? }

  predicate Enabled(world: World, db: Db, step: Step) {
    step.p in db.pubs &&
    var pub := db.pubs[step.p];
    match step
    case Begin(_) => pub.phase.Idle?
    case Lock(_) => pub.phase.Waiting? && world.lockKey(pub.inbox) !in db.locks
    case Insert(_) => pub.phase.Locked?
    case Touch(_) => pub.phase.Inserted?
    case Commit(_) => pub.phase.Touched?
    case Lose(_) => pub.phase.Touched?
    // any statement may fail: the connection, the validation service, a context
    case Break(_) => InTx(pub.phase)
  }

  function Moved(db: Db, p: nat, phase: Phase): Db
    requires p in db.pubs
  {
    db.(pubs := db.pubs[p := db.pubs[p].(phase := phase)])
  }

  function Unlocked(world: World, db: Db, p: nat): Db
    requires p in db.pubs
  {
    if HoldsLock(db.pubs[p].phase) then db.(locks := db.locks - {world.lockKey(db.pubs[p].inbox)}) else db
  }

  /** A publisher whose attempt reported an error: up to three are made. */
  function Failed(pub: Publisher): Publisher {
    var attempts := pub.attempts + 1;
    pub.(attempts := attempts, phase := if attempts < NUM_RETRIES then Idle else Done(false))
  }

  /** The transaction is undone and its lock released. */
  function RolledBack(world: World, db: Db, p: nat): Db
    requires p in db.pubs
  {
    Unlocked(world, db, p).(pubs := db.pubs[p := Failed(db.pubs[p])])
  }

  /** The inbox row was written by a commit the snapshot does not see. */
  predicate Conflicts(db: Db, inbox: Inbox, snap: nat) {
    exists k :: snap <= k < |db.log| && db.log[k].inbox == inbox
  }

  /** What a snapshot shows of an inbox's log. */
  function Seen(db: Db, snap: nat, inbox: Inbox): seq<Entry> {
    Of(db.log[..Min(snap, |db.log|)], inbox)
  }

  /** The entry a commit appends. */
  function NewEntry(db: Db, p: nat): Entry
    requires p in db.pubs && db.pubs[p].phase.Touched?
  {
    var pub := db.pubs[p];
    Entry(pub.phase.seqId, pub.inbox, pub.update, Ids(Seen(db, pub.phase.snap, pub.inbox)), p)
  }

  /** The commit takes effect, and leaves the publisher at `pub`. */
  function Committed(world: World, db: Db, p: nat, pub: Publisher): Db
    requires p in db.pubs && db.pubs[p].phase.Touched?
  {
    Unlocked(world, db, p).(pubs := db.pubs[p := pub], log := db.log + [NewEntry(db, p)])
  }

  function Apply(world: World, db: Db, step: Step): Db
    requires Enabled(world, db, step)
  {
    var p := step.p;
    var pub := db.pubs[p];
    match step
    case Begin(_) => Moved(db, p, Waiting(|db.log|))
    case Lock(_) => Moved(db, p, Locked(pub.phase.snap)).(locks := db.locks[world.lockKey(pub.inbox) := p])
    case Insert(_) =>
      var seen := Seen(db, pub.phase.snap, pub.inbox);
      if |seen| >= MAX_ENTRIES || !world.accepts(Updates(seen), pub.update) then RolledBack(world, db, p)
      else Moved(db, p, Inserted(pub.phase.snap, db.nextSeq)).(nextSeq := db.nextSeq + 1)
    case Touch(_) =>
      if Conflicts(db, pub.inbox, pub.phase.snap) then RolledBack(world, db, p)
      else Moved(db, p, Touched(pub.phase.snap, pub.phase.seqId))
    case Commit(_) => Committed(world, db, p, pub.(phase := Done(true)))
    case Lose(_) => Committed(world, db, p, Failed(pub))
    case Break(_) => RolledBack(world, db, p)
  }

  ghost predicate Initial(db: Db) {
    && db.log == [] && db.locks == map[]
    && forall p :: p in db.pubs ==> db.pubs[p].phase == Idle && db.pubs[p].attempts == 0
  }

  ghost predicate Run(world: World, run: seq<Db>, steps: seq<Step>) {
    && |run| == |steps| + 1 && Initial(run[0])
    && forall i :: 0 <= i < |steps| ==> Enabled(world, run[i], steps[i]) && run[i + 1] == Apply(world, run[i], steps[i])
  }

  // ----- the invariant -----

  /** A lock is held by exactly the transaction that is past asking for it. */
  ghost predicate LocksOk(world: World, db: Db) {
    && (forall k :: k in db.locks ==>
          && db.locks[k] in db.pubs && HoldsLock(db.pubs[db.locks[k]].phase)
          && world.lockKey(db.pubs[db.locks[k]].inbox) == k)
    && (forall p :: p in db.pubs && HoldsLock(db.pubs[p].phase) ==>
          world.lockKey(db.pubs[p].inbox) in db.locks && db.locks[world.lockKey(db.pubs[p].inbox)] == p)
  }

  ghost predicate SnapsOk(db: Db) {
    forall p :: p in db.pubs && InTx(db.pubs[p].phase) ==> db.pubs[p].phase.snap <= |db.log|
  }

  /** An entry was validated against exactly its inbox's earlier commits, all of which have lower
      ids, and there was room for it. */
  ghost predicate LinkOk(world: World, log: seq<Entry>, k: nat)
    requires k < |log|
  {
    var e, before := log[k], Of(log[..k], log[k].inbox);
    && e.against == Ids(before)
    && |before| < MAX_ENTRIES
    && world.accepts(Updates(before), e.update)
    && forall x :: x in before ==> x.seqId < e.seqId
  }

  ghost predicate LogOk(world: World, db: Db) {
    && (forall k :: 0 <= k < |db.log| ==> LinkOk(world, db.log, k) && db.log[k].seqId < db.nextSeq)
  }

  /** A transaction past its insert has an id above all of its inbox's commits; one past its touch
      knows that its snapshot still shows the whole log of its inbox. */
  ghost predicate PendingOk(world: World, db: Db, p: nat)
    requires p in db.pubs
  {
    var pub := db.pubs[p];
    && (pub.phase.Inserted? || pub.phase.Touched? ==>
          && pub.phase.seqId < db.nextSeq
          && (forall e :: e in db.log && e.inbox == pub.inbox ==> e.seqId < pub.phase.seqId)
          && |Seen(db, pub.phase.snap, pub.inbox)| < MAX_ENTRIES
          && world.accepts(Updates(Seen(db, pub.phase.snap, pub.inbox)), pub.update))
    && (pub.phase.Touched? ==> !Conflicts(db, pub.inbox, pub.phase.snap))
  }

  /** An attempt is left until the last one has failed. */
  ghost predicate AttemptsOk(db: Db, p: nat)
    requires p in db.pubs
  {
    && db.pubs[p].attempts <= NUM_RETRIES
    && (db.pubs[p].phase != Done(false) ==> db.pubs[p].attempts < NUM_RETRIES)
  }

  ghost predicate Inv(world: World, db: Db) {
    && LocksOk(world, db) && SnapsOk(db) && LogOk(world, db)
    && forall p :: p in db.pubs ==> PendingOk(world, db, p) && AttemptsOk(db, p)
  }

  lemma OfSnoc(log: seq<Entry>, e: Entry, inbox: Inbox)
    ensures Of(log + [e], inbox) == if e.inbox == inbox then Of(log, inbox) + [e] else Of(log, inbox)
  {
    assert (log + [e])[..|log|] == log;
  }

  lemma {:induction false} OfMember(log: seq<Entry>, inbox: Inbox, e: Entry)
    ensures e in Of(log, inbox) <==> e in log && e.inbox == inbox
  {
    if log != [] {
      OfMember(log[..|log| - 1], inbox, e);
      assert log == log[..|log| - 1] + [log[|log| - 1]];
    }
  }

  /** Without a conflict a snapshot shows the whole log of the inbox. */
  lemma {:induction false} NoConflictSeesAll(log: seq<Entry>, inbox: Inbox, snap: nat)
    requires snap <= |log| && forall k :: snap <= k < |log| ==> log[k].inbox != inbox
    ensures Of(log[..snap], inbox) == Of(log, inbox)
    decreases |log|
  {
    if snap < |log| {
      NoConflictSeesAll(log[..|log| - 1], inbox, snap);
      assert log[..|log| - 1][..snap] == log[..snap];
    } else {
      assert log[..snap] == log;
    }
  }

  /** Appending to the log changes no snapshot taken before. */
  lemma SeenStays(db: Db, db': Db, e: Entry, snap: nat, inbox: Inbox)
    requires snap <= |db.log| && db'.log == db.log + [e]
    ensures Seen(db', snap, inbox) == Seen(db, snap, inbox)
  {
    assert (db.log + [e])[..snap] == db.log[..snap];
  }

  // ----- every step -----

  /** What the other publishers rely on survives while the log stays. */
  lemma OthersKept(world: World, db: Db, db': Db, q: nat)
    requires q in db.pubs && q in db'.pubs && db'.pubs[q] == db.pubs[q]
    requires db'.log == db.log && db.nextSeq <= db'.nextSeq
    requires PendingOk(world, db, q) && AttemptsOk(db, q)
    ensures PendingOk(world, db', q) && AttemptsOk(db', q)
  {
    hide Of;
  }

  lemma LogKept(world: World, db: Db, db': Db)
    requires LogOk(world, db) && db'.log == db.log && db.nextSeq <= db'.nextSeq
    ensures LogOk(world, db')
  {
    hide LinkOk;
  }

  /** Only publisher p changed, and the log did not. */
  lemma QuietStep(world: World, db: Db, db': Db, p: nat)
    requires Inv(world, db) && p in db.pubs && db'.pubs.Keys == db.pubs.Keys
    requires forall q :: q in db.pubs && q != p ==> db'.pubs[q] == db.pubs[q]
    requires db'.log == db.log && db.nextSeq <= db'.nextSeq && LocksOk(world, db')
    requires InTx(db'.pubs[p].phase) ==> db'.pubs[p].phase.snap <= |db.log|
    requires PendingOk(world, db', p) && AttemptsOk(db', p)
    ensures Inv(world, db')
  {
    hide PendingOk, AttemptsOk, LocksOk;
    LogKept(world, db, db');
    forall q | q in db'.pubs ensures PendingOk(world, db', q) && AttemptsOk(db', q) {
      if q != p { OthersKept(world, db, db', q); }
    }
    hide LogOk;
  }

  /** Locks are kept in order when p moves without passing the lock, takes a free one, or lets its
      own go. */
  lemma LocksMove(world: World, db: Db, db': Db, p: nat)
    requires LocksOk(world, db) && p in db.pubs && db'.pubs.Keys == db.pubs.Keys
    requires forall q :: q in db.pubs && q != p ==> db'.pubs[q] == db.pubs[q]
    requires db'.pubs[p].inbox == db.pubs[p].inbox
    requires var key := world.lockKey(db.pubs[p].inbox);
             || (db'.locks == db.locks && (HoldsLock(db'.pubs[p].phase) <==> HoldsLock(db.pubs[p].phase)))
             || (db'.locks == db.locks[key := p] && key !in db.locks && HoldsLock(db'.pubs[p].phase))
             || (db'.locks == db.locks - {key} && HoldsLock(db.pubs[p].phase) && !HoldsLock(db'.pubs[p].phase))
    ensures LocksOk(world, db')
  {
  }

  lemma RollbackKeeps(world: World, db: Db, p: nat)
    requires Inv(world, db) && p in db.pubs && InTx(db.pubs[p].phase)
    ensures Inv(world, RolledBack(world, db, p))
  {
    var db' := RolledBack(world, db, p);
    assert AttemptsOk(db, p);
    assert db'.pubs.Keys == db.pubs.Keys;
    hide LogOk, SnapsOk, Of;
    LocksMove(world, db, db', p);
    hide LocksOk;
    QuietStep(world, db, db', p);
  }

  lemma BeginKeeps(world: World, db: Db, p: nat)
    requires Inv(world, db) && Enabled(world, db, Begin(p))
    ensures Inv(world, Apply(world, db, Begin(p)))
  {
    var db' := Apply(world, db, Begin(p));
    assert AttemptsOk(db, p);
    assert db'.pubs.Keys == db.pubs.Keys;
    hide LogOk, SnapsOk, Of;
    LocksMove(world, db, db', p);
    hide LocksOk;
    QuietStep(world, db, db', p);
  }

  lemma LockKeeps(world: World, db: Db, p: nat)
    requires Inv(world, db) && Enabled(world, db, Lock(p))
    ensures Inv(world, Apply(world, db, Lock(p)))
  {
    var db' := Apply(world, db, Lock(p));
    assert AttemptsOk(db, p) && InTx(db.pubs[p].phase);
    assert db'.pubs.Keys == db.pubs.Keys;
    assert db.pubs[p].phase.snap <= |db.log|;
    hide LogOk, SnapsOk, Of;
    LocksMove(world, db, db', p);
    hide LocksOk;
    QuietStep(world, db, db', p);
  }

  lemma SeenSame(db: Db, db': Db, snap: nat, inbox: Inbox)
    requires db'.log == db.log
    ensures Seen(db', snap, inbox) == Seen(db, snap, inbox)
  {
  }

  lemma ConflictsSame(db: Db, db': Db, inbox: Inbox, snap: nat)
    requires db'.log == db.log
    ensures Conflicts(db', inbox, snap) == Conflicts(db, inbox, snap)
  {
  }

  lemma InsertKeeps(world: World, db: Db, p: nat)
    requires Inv(world, db) && Enabled(world, db, Insert(p))
    ensures Inv(world, Apply(world, db, Insert(p)))
  {
    var db', pub := Apply(world, db, Insert(p)), db.pubs[p];
    var seen := Seen(db, pub.phase.snap, pub.inbox);
    if |seen| >= MAX_ENTRIES || !world.accepts(Updates(seen), pub.update) {
      RollbackKeeps(world, db, p);
    } else {
      assert AttemptsOk(db, p) && InTx(pub.phase);
      assert db'.pubs.Keys == db.pubs.Keys;
      assert pub.phase.snap <= |db.log|;
      forall e | e in db.log ensures e.seqId < db.nextSeq {
        var k :| 0 <= k < |db.log| && db.log[k] == e;
      }
      SeenSame(db, db', pub.phase.snap, pub.inbox);
      hide LogOk, SnapsOk, Seen, Updates;
      LocksMove(world, db, db', p);
      hide LocksOk;
      assert PendingOk(world, db', p);
      QuietStep(world, db, db', p);
    }
  }

  lemma TouchKeeps(world: World, db: Db, p: nat)
    requires Inv(world, db) && Enabled(world, db, Touch(p))
    ensures Inv(world, Apply(world, db, Touch(p)))
  {
    var db', pub := Apply(world, db, Touch(p)), db.pubs[p];
    if Conflicts(db, pub.inbox, pub.phase.snap) {
      RollbackKeeps(world, db, p);
    } else {
      hide LogOk, Seen, Updates, Conflicts, LocksOk;
      assert AttemptsOk(db, p) && PendingOk(world, db, p) && InTx(pub.phase);
      assert db'.pubs.Keys == db.pubs.Keys;
      assert pub.phase.snap <= |db.log|;
      SeenSame(db, db', pub.phase.snap, pub.inbox);
      ConflictsSame(db, db', pub.inbox, pub.phase.snap);
      LocksMove(world, db, db', p);
      assert PendingOk(world, db', p);
      QuietStep(world, db, db', p);
    }
  }

  // ----- a commit -----

  /** Two transactions past their locks are on different inboxes. */
  lemma OneHolderPerInbox(world: World, db: Db, p: nat, q: nat)
    requires LocksOk(world, db) && p in db.pubs && q in db.pubs && p != q
    requires HoldsLock(db.pubs[p].phase) && HoldsLock(db.pubs[q].phase)
    ensures db.pubs[p].inbox != db.pubs[q].inbox
  {
  }

  lemma CommitOthers(world: World, db: Db, db': Db, e: Entry, p: nat, q: nat)
    requires LocksOk(world, db) && p in db.pubs && q in db.pubs && p != q && q in db'.pubs
    requires db'.pubs[q] == db.pubs[q]
    requires HoldsLock(db.pubs[p].phase) && e.inbox == db.pubs[p].inbox && e.publisher == p
    requires db'.log == db.log + [e] && db'.nextSeq == db.nextSeq
    requires PendingOk(world, db, q) && AttemptsOk(db, q)
    requires InTx(db.pubs[q].phase) ==> db.pubs[q].phase.snap <= |db.log|
    ensures PendingOk(world, db', q) && AttemptsOk(db', q)
  {
    var pub := db.pubs[q];
    assert (db.log + [e])[..|db.log|] == db.log;
    if pub.phase.Inserted? || pub.phase.Touched? {
      OneHolderPerInbox(world, db, p, q);
      SeenStays(db, db', e, pub.phase.snap, pub.inbox);
      hide Seen, LocksOk, Updates;
      forall x | x in db'.log && x.inbox == pub.inbox ensures x.seqId < pub.phase.seqId { assert x in db.log; }
      assert pub.phase.Touched? && Conflicts(db', pub.inbox, pub.phase.snap) ==>
               Conflicts(db, pub.inbox, pub.phase.snap);
    }
  }

  lemma CommitLinks(world: World, db: Db, db': Db, e: Entry)
    requires LogOk(world, db) && db'.log == db.log + [e] && db'.nextSeq == db.nextSeq && e.seqId < db.nextSeq
    requires e.against == Ids(Of(db.log, e.inbox)) && |Of(db.log, e.inbox)| < MAX_ENTRIES
    requires world.accepts(Updates(Of(db.log, e.inbox)), e.update)
    requires forall x :: x in Of(db.log, e.inbox) ==> x.seqId < e.seqId
    ensures LogOk(world, db')
  {
    hide Of, Ids, Updates;
    forall k | 0 <= k < |db'.log| ensures LinkOk(world, db'.log, k) && db'.log[k].seqId < db'.nextSeq {
      assert db'.log[..k] == if k < |db.log| then db.log[..k] else db.log;
      if k < |db.log| { assert LinkOk(world, db.log, k); }
    }
  }

  lemma CommitEffect(world: World, db: Db, p: nat, pub: Publisher)
    requires p in db.pubs && db.pubs[p].phase.Touched?
    ensures var db' := Committed(world, db, p, pub);
            && db'.log == db.log + [NewEntry(db, p)] && db'.nextSeq == db.nextSeq
            && db'.locks == db.locks - {world.lockKey(db.pubs[p].inbox)}
            && db'.pubs.Keys == db.pubs.Keys && db'.pubs == db.pubs[p := pub]
  {
  }

  /** Where a publisher may stand after its commit, acknowledged or not. */
  ghost predicate After(pub: Publisher, pub': Publisher) {
    pub' == pub.(phase := Done(true)) || pub' == Failed(pub)
  }

  /** What a touched transaction knows when it commits. */
  lemma CommitKnows(world: World, db: Db, p: nat)
    requires Inv(world, db) && p in db.pubs && db.pubs[p].phase.Touched?
    ensures var e := NewEntry(db, p);
            && e.seqId < db.nextSeq && e.against == Ids(Of(db.log, e.inbox)) && |Of(db.log, e.inbox)| < MAX_ENTRIES
            && world.accepts(Updates(Of(db.log, e.inbox)), e.update)
            && forall x :: x in Of(db.log, e.inbox) ==> x.seqId < e.seqId
    ensures forall q :: q in db.pubs ==> PendingOk(world, db, q) && AttemptsOk(db, q)
    ensures forall q :: q in db.pubs && InTx(db.pubs[q].phase) ==> db.pubs[q].phase.snap <= |db.log|
    ensures LocksOk(world, db) && LogOk(world, db)
  {
    var pub, e := db.pubs[p], NewEntry(db, p);
    assert PendingOk(world, db, p) && InTx(pub.phase);
    NoConflictSeesAll(db.log, pub.inbox, pub.phase.snap);
    hide LocksOk, LogOk, AttemptsOk;
    forall x | x in Of(db.log, e.inbox) ensures x.seqId < e.seqId { OfMember(db.log, e.inbox, x); }
  }

  /** A commit keeps the log in order whether or not the publisher hears of it. */
  lemma CommitKeeps(world: World, db: Db, p: nat, pub: Publisher)
    requires Inv(world, db) && p in db.pubs && db.pubs[p].phase.Touched? && After(db.pubs[p], pub)
    ensures Inv(world, Committed(world, db, p, pub))
  {
    hide Of, Ids, Updates, Conflicts, LogOk, LocksOk, PendingOk, AttemptsOk, Committed, Inv, NewEntry, After;
    CommitEffect(world, db, p, pub);
    CommitKnows(world, db, p);
    CommitPieces(world, db, Committed(world, db, p, pub), p, pub);
  }

  lemma CommitPieces(world: World, db: Db, db': Db, p: nat, pub: Publisher)
    requires p in db.pubs && db.pubs[p].phase.Touched? && After(db.pubs[p], pub)
    requires LocksOk(world, db) && LogOk(world, db)
    requires var e := NewEntry(db, p);
             && e.seqId < db.nextSeq && e.against == Ids(Of(db.log, e.inbox)) && |Of(db.log, e.inbox)| < MAX_ENTRIES
             && world.accepts(Updates(Of(db.log, e.inbox)), e.update)
             && (forall x :: x in Of(db.log, e.inbox) ==> x.seqId < e.seqId)
             && db'.log == db.log + [e] && db'.nextSeq == db.nextSeq
    requires forall q :: q in db.pubs ==> PendingOk(world, db, q) && AttemptsOk(db, q)
    requires forall q :: q in db.pubs && InTx(db.pubs[q].phase) ==> db.pubs[q].phase.snap <= |db.log|
    requires db'.locks == db.locks - {world.lockKey(db.pubs[p].inbox)}
    requires db'.pubs.Keys == db.pubs.Keys && db'.pubs == db.pubs[p := pub]
    ensures Inv(world, db')
  {
    hide Of, Ids, Updates, Conflicts, LogOk, LocksOk, PendingOk, AttemptsOk;
    CommitLinks(world, db, db', NewEntry(db, p));
    LocksMove(world, db, db', p);
    CommitAll(world, db, db', NewEntry(db, p), p, pub);
  }

  lemma CommitAll(world: World, db: Db, db': Db, e: Entry, p: nat, pub: Publisher)
    requires p in db.pubs && db.pubs[p].phase.Touched? && After(db.pubs[p], pub)
    requires LocksOk(world, db) && e == NewEntry(db, p)
    requires db'.log == db.log + [e] && db'.nextSeq == db.nextSeq
    requires forall q :: q in db.pubs ==> PendingOk(world, db, q) && AttemptsOk(db, q)
    requires forall q :: q in db.pubs && InTx(db.pubs[q].phase) ==> db.pubs[q].phase.snap <= |db.log|
    requires db'.pubs.Keys == db.pubs.Keys && db'.pubs == db.pubs[p := pub]
    ensures forall q :: q in db'.pubs ==> PendingOk(world, db', q) && AttemptsOk(db', q)
  {
    hide Of, Ids, Updates, Conflicts, LocksOk, PendingOk, AttemptsOk, After;
    forall q | q in db'.pubs ensures PendingOk(world, db', q) && AttemptsOk(db', q) {
      if q != p {
        assert q in db.pubs.Keys;
        CommitOthers(world, db, db', e, p, q);
      } else {
        CommitSelf(world, db, db', p, pub);
      }
    }
  }

  lemma CommitSelf(world: World, db: Db, db': Db, p: nat, pub: Publisher)
    requires p in db.pubs && AttemptsOk(db, p) && db.pubs[p].phase.Touched? && After(db.pubs[p], pub)
    requires p in db'.pubs && db'.pubs[p] == pub
    ensures PendingOk(world, db', p) && AttemptsOk(db', p)
  {
  }

  lemma StepKeeps(world: World, db: Db, step: Step)
    requires Inv(world, db) && Enabled(world, db, step)
    ensures Inv(world, Apply(world, db, step))
  {
    hide Inv;
    match step
    case Begin(p) => BeginKeeps(world, db, p);
    case Lock(p) => LockKeeps(world, db, p);
    case Insert(p) => InsertKeeps(world, db, p);
    case Touch(p) => TouchKeeps(world, db, p);
    case Commit(p) => CommitKeeps(world, db, p, db.pubs[p].(phase := Done(true)));
    case Lose(p) => CommitKeeps(world, db, p, Failed(db.pubs[p]));
    case Break(p) => RollbackKeeps(world, db, p);
  }

  lemma {:induction false} RunKeeps(world: World, run: seq<Db>, steps: seq<Step>, i: nat)
    requires Run(world, run, steps) && i <= |steps|
    ensures Inv(world, run[i])
  {
    hide Inv, Apply, Enabled;
    if i > 0 {
      RunKeeps(world, run, steps, i - 1);
      var db, step := run[i - 1], steps[i - 1];
      assert Enabled(world, db, step) && run[i] == Apply(world, db, step);
      StepKeeps(world, db, step);
    } else {
      InitialInv(world, run[0]);
    }
  }

  lemma InitialInv(world: World, db: Db)
    requires Initial(db)
    ensures Inv(world, db)
  {
  }

  // ----- what a reader may rely on -----

  ghost predicate AscendingIds(es: seq<Entry>) {
    forall i, j :: 0 <= i < j < |es| ==> es[i].seqId < es[j].seqId
  }

  /** Commit order is id order, inbox by inbox: the read sorted by sequence id is the log. */
  lemma {:induction false} InboxAscends(world: World, log: seq<Entry>, inbox: Inbox)
    requires forall k :: 0 <= k < |log| ==> LinkOk(world, log, k)
    ensures AscendingIds(Of(log, inbox)) && |Of(log, inbox)| <= MAX_ENTRIES
  {
    if log != [] {
      var earlier, last := log[..|log| - 1], log[|log| - 1];
      forall k | 0 <= k < |earlier| ensures LinkOk(world, earlier, k) {
        assert LinkOk(world, log, k) && earlier[..k] == log[..k];
      }
      InboxAscends(world, earlier, inbox);
      if last.inbox == inbox {
        assert LinkOk(world, log, |log| - 1);
        var before := Of(earlier, inbox);
        forall i | 0 <= i < |before| ensures before[i].seqId < last.seqId { assert before[i] in before; }
      }
    }
  }

  lemma {:induction false} OfPrefix(log: seq<Entry>, n: nat, inbox: Inbox)
    requires n <= |log|
    ensures Of(log[..n], inbox) <= Of(log, inbox)
    decreases |log|
  {
    if n < |log| {
      OfPrefix(log[..|log| - 1], n, inbox);
      assert log[..|log| - 1][..n] == log[..n];
    } else {
      assert log[..n] == log;
    }
  }

  /** The entries of an ascending list below its k-th are its first k. */
  lemma LowerIds(es: seq<Entry>, k: nat, e: Entry)
    requires AscendingIds(es) && k < |es|
    ensures e in es && e.seqId < es[k].seqId <==> e in es[..k]
  {
    if e in es {
      var i :| 0 <= i < |es| && es[i] == e;
      if i < k { assert es[..k][i] == e; }
    }
  }

  lemma {:induction false} Position(log: seq<Entry>, k: nat)
    requires k < |log|
    ensures |Of(log[..k], log[k].inbox)| < |Of(log, log[k].inbox)|
    ensures Of(log, log[k].inbox)[|Of(log[..k], log[k].inbox)|] == log[k]
  {
    assert log[..k + 1] == log[..k] + [log[k]];
    OfSnoc(log[..k], log[k], log[k].inbox);
    OfPrefix(log, k + 1, log[k].inbox);
    OfPrefix(log[..k + 1], k, log[k].inbox);
  }

  /** The log chain. In every state any interleaving of publishers reaches, every committed
      update was validated against exactly the committed updates of its inbox with lower
      sequence ids, the validation accepted it there, and no inbox has more than 256. */
  lemma ChainHolds(world: World, run: seq<Db>, steps: seq<Step>, i: nat, k: nat)
    requires Run(world, run, steps) && i <= |steps| && k < |run[i].log|
    ensures var log, e := run[i].log, run[i].log[k];
            var lower := Of(log[..k], e.inbox);
            && |e.against| == |lower| && (forall j :: 0 <= j < |lower| ==> e.against[j] == lower[j].seqId)
            && world.accepts(seq(|lower|, j requires 0 <= j < |lower| => lower[j].update), e.update)
            && AscendingIds(lower)
            && (forall x :: x in lower <==> x in log && x.inbox == e.inbox && x.seqId < e.seqId)
            && |Of(log, e.inbox)| <= 256
  {
    RunKeeps(world, run, steps, i);
    var log, e := run[i].log, run[i].log[k];
    assert LinkOk(world, log, k);
    InboxAscends(world, log, e.inbox);
    Position(log, k);
    OfPrefix(log, k, e.inbox);
    var lower, all := Of(log[..k], e.inbox), Of(log, e.inbox);
    assert Updates(lower) == seq(|lower|, j requires 0 <= j < |lower| => lower[j].update);
    hide Of, Updates, Ids;
    forall x ensures x in lower <==> x in log && x.inbox == e.inbox && x.seqId < e.seqId {
      OfMember(log, e.inbox, x);
      LowerIds(all, |lower|, x);
      assert all[..|lower|] == lower;
    }
  }

  lemma {:induction false} LogGrows(world: World, run: seq<Db>, steps: seq<Step>, i: nat, j: nat)
    requires Run(world, run, steps) && i <= j <= |steps|
    ensures run[i].log <= run[j].log
    decreases j
  {
    if i < j {
      LogGrows(world, run, steps, i, j - 1);
      assert run[j] == Apply(world, run[j - 1], steps[j - 1]);
    }
  }

  /** Reading an inbox twice: the second read is the first followed by updates with higher
      sequence ids, and both come sorted. */
  lemma LaterReadExtends(world: World, run: seq<Db>, steps: seq<Step>, i: nat, j: nat, inbox: Inbox)
    requires Run(world, run, steps) && i <= j <= |steps|
    ensures var first, second := Of(run[i].log, inbox), Of(run[j].log, inbox);
            && first <= second && AscendingIds(second)
            && forall x, y :: x in first && y in second[|first|..] ==> x.seqId < y.seqId
  {
    RunKeeps(world, run, steps, j);
    LogGrows(world, run, steps, i, j);
    hide LinkOk;
    InboxAscends(world, run[j].log, inbox);
    assert run[j].log[..|run[i].log|] == run[i].log;
    OfPrefix(run[j].log, |run[i].log|, inbox);
    hide Inv, Of, Run;
    RestIsHigher(Of(run[i].log, inbox), Of(run[j].log, inbox));
  }

  lemma RestIsHigher(first: seq<Entry>, second: seq<Entry>)
    requires first <= second && AscendingIds(second)
    ensures forall x, y :: x in first && y in second[|first|..] ==> x.seqId < y.seqId
  {
    forall x, y | x in first && y in second[|first|..] ensures x.seqId < y.seqId {
      var a :| 0 <= a < |first| && first[a] == x;
      var b :| 0 <= b < |second[|first|..]| && second[|first|..][b] == y;
      assert second[a] == x && second[|first| + b] == y;
    }
  }

  function CommitsBy(log: seq<Entry>, p: nat): nat {
    if log == [] then 0 else CommitsBy(log[..|log| - 1], p) + if log[|log| - 1].publisher == p then 1 else 0
  }

  /** How many of a publisher's commits were never acknowledged. */
  function LostBy(steps: seq<Step>, p: nat): nat {
    if steps == [] then 0 else LostBy(steps[..|steps| - 1], p) + if steps[|steps| - 1] == Lose(p) then 1 else 0
  }

  /** What one step does to a publisher's commits: an acknowledged one ends in success, a lost one
      uses up an attempt. */
  lemma StepCommits(world: World, db: Db, step: Step, p: nat)
    requires Enabled(world, db, step) && p in db.pubs
    ensures var db' := Apply(world, db, step);
            && p in db'.pubs && db.pubs[p].attempts <= db'.pubs[p].attempts
            && CommitsBy(db'.log, p) == CommitsBy(db.log, p)
                                        + (if db'.pubs[p].phase == Done(true) then 1 else 0)
                                        - (if db.pubs[p].phase == Done(true) then 1 else 0)
                                        + (if step == Lose(p) then 1 else 0)
            && (step == Lose(p) ==> db.pubs[p].attempts < db'.pubs[p].attempts)
  {
    hide Of, Ids, Updates, Conflicts;
    if step.Commit? || step.Lose? {
      var e := NewEntry(db, step.p);
      assert (db.log + [e])[..|db.log|] == db.log;
    }
  }

  lemma {:induction false} RunCommits(world: World, run: seq<Db>, steps: seq<Step>, i: nat, p: nat)
    requires Run(world, run, steps) && i <= |steps| && p in run[i].pubs
    ensures CommitsBy(run[i].log, p) == (if run[i].pubs[p].phase == Done(true) then 1 else 0) + LostBy(steps[..i], p)
    ensures LostBy(steps[..i], p) <= run[i].pubs[p].attempts
  {
    hide Apply, Enabled;
    if i == 0 {
      assert steps[..0] == [] && CommitsBy([], p) == 0;
    } else {
      hide CommitsBy;
      assert Enabled(world, run[i - 1], steps[i - 1]) && run[i] == Apply(world, run[i - 1], steps[i - 1]);
      SamePublishers(world, run[i - 1], steps[i - 1]);
      assert p in run[i - 1].pubs.Keys;
      RunCommits(world, run, steps, i - 1, p);
      StepCommits(world, run[i - 1], steps[i - 1], p);
      assert steps[..i][..i - 1] == steps[..i - 1];
    }
  }

  lemma SamePublishers(world: World, db: Db, step: Step)
    requires Enabled(world, db, step)
    ensures Apply(world, db, step).pubs.Keys == db.pubs.Keys
  {
    hide Of, Ids, Updates, Conflicts;
  }

  /** What a publish has committed over all its attempts: one entry if it reports success, plus
      one for each commit whose acknowledgement was lost; at most three. So as long as no
      acknowledgement is lost, success means exactly one entry and anything else none. */
  lemma PublishedOnce(world: World, run: seq<Db>, steps: seq<Step>, i: nat, p: nat)
    requires Run(world, run, steps) && i <= |steps| && p in run[i].pubs
    ensures CommitsBy(run[i].log, p) == (if run[i].pubs[p].phase == Done(true) then 1 else 0) + LostBy(steps[..i], p)
    ensures CommitsBy(run[i].log, p) <= 3
  {
    RunCommits(world, run, steps, i, p);
    RunKeeps(world, run, steps, i);
    assert AttemptsOk(run[i], p);
  }

  // ----- when an attempt is undone -----

  /** Steps b and t belong to one attempt: p begins at b and not again before t. */
  ghost predicate OneAttempt(steps: seq<Step>, b: nat, t: nat, p: nat) {
    b < t < |steps| && steps[b] == Begin(p) && forall j :: b < j < t ==> steps[j] != Begin(p)
  }

  /** Step j commits an update of the inbox, acknowledged or not. */
  ghost predicate CommitsTo(run: seq<Db>, steps: seq<Step>, j: nat, inbox: Inbox) {
    && j < |steps| && j < |run| && (steps[j].Commit? || steps[j].Lose?)
    && steps[j].p in run[j].pubs && run[j].pubs[steps[j].p].inbox == inbox
  }

  lemma RunStep(world: World, run: seq<Db>, steps: seq<Step>, j: nat)
    requires Run(world, run, steps) && j < |steps|
    ensures Enabled(world, run[j], steps[j]) && run[j + 1] == Apply(world, run[j], steps[j])
    ensures steps[j].p in run[j].pubs && run[j + 1].pubs.Keys == run[j].pubs.Keys
    ensures forall q :: q in run[j].pubs ==>
              run[j + 1].pubs[q].inbox == run[j].pubs[q].inbox && run[j + 1].pubs[q].update == run[j].pubs[q].update
  {
    SamePublishers(world, run[j], steps[j]);
    hide Of, Ids, Updates, Conflicts, Seen;
  }

  /** While an attempt is open its snapshot is the log at its Begin. */
  lemma {:induction false} AttemptSnap(world: World, run: seq<Db>, steps: seq<Step>, b: nat, t: nat, p: nat)
    requires Run(world, run, steps) && OneAttempt(steps, b, t, p)
    ensures p in run[b].pubs && p in run[t].pubs
    ensures run[t].pubs[p].inbox == run[b].pubs[p].inbox && run[t].pubs[p].update == run[b].pubs[p].update
    ensures InTx(run[t].pubs[p].phase) ==> run[t].pubs[p].phase.snap == |run[b].log|
    decreases t
  {
    hide Apply, Enabled, Initial;
    RunStep(world, run, steps, t - 1);
    if b < t - 1 { AttemptSnap(world, run, steps, b, t - 1, p); }
    StepSnap(world, run[t - 1], steps[t - 1], p);
  }

  /** A publisher's snapshot changes at its Begin only. */
  lemma StepSnap(world: World, db: Db, step: Step, p: nat)
    requires Enabled(world, db, step) && p in db.pubs
    ensures var d := Apply(world, db, step);
            && p in d.pubs
            && (InTx(d.pubs[p].phase) ==>
                  if step == Begin(p) then d.pubs[p].phase.snap == |db.log|
                  else InTx(db.pubs[p].phase) && d.pubs[p].phase.snap == db.pubs[p].phase.snap)
  {
    hide Of, Ids, Updates, Conflicts, Seen;
  }

  /** What a step appends to the log: a commit one entry of its publisher's inbox, any other step
      nothing. */
  lemma StepAppends(world: World, run: seq<Db>, steps: seq<Step>, j: nat)
    requires Run(world, run, steps) && j < |steps|
    ensures steps[j].p in run[j].pubs
    ensures var pub := run[j].pubs[steps[j].p];
            if steps[j].Commit? || steps[j].Lose?
            then |run[j + 1].log| == |run[j].log| + 1 && run[j].log <= run[j + 1].log
                 && run[j + 1].log[|run[j].log|].inbox == pub.inbox
                 && run[j + 1].log[|run[j].log|].update == pub.update
            else run[j + 1].log == run[j].log
  {
    RunStep(world, run, steps, j);
    hide Of, Ids, Updates, Conflicts, Seen, Run;
  }

  lemma ConflictSnoc(db: Db, db': Db, inbox: Inbox, snap: nat)
    requires snap <= |db.log| && |db'.log| == |db.log| + 1 && db.log <= db'.log
    ensures Conflicts(db', inbox, snap) <==> Conflicts(db, inbox, snap) || db'.log[|db.log|].inbox == inbox
  {
    if Conflicts(db, inbox, snap) {
      var k :| snap <= k < |db.log| && db.log[k].inbox == inbox;
      assert db'.log[k].inbox == inbox;
    }
  }

  /** A snapshot taken at b is in conflict at t exactly when a step in between has committed to the
      inbox. */
  lemma {:induction false} ConflictMeans(world: World, run: seq<Db>, steps: seq<Step>, b: nat, t: nat, inbox: Inbox)
    requires Run(world, run, steps) && b <= t <= |steps|
    ensures Conflicts(run[t], inbox, |run[b].log|) <==> exists j :: b <= j < t && CommitsTo(run, steps, j, inbox)
    decreases t
  {
    if b < t {
      hide Apply, Enabled, Initial, Conflicts, CommitsTo;
      ConflictMeans(world, run, steps, b, t - 1, inbox);
      LogGrows(world, run, steps, b, t - 1);
      ConflictStep(world, run, steps, t - 1, inbox, |run[b].log|);
      assert (exists j :: b <= j < t && CommitsTo(run, steps, j, inbox))
        <==> (exists j :: b <= j < t - 1 && CommitsTo(run, steps, j, inbox)) || CommitsTo(run, steps, t - 1, inbox);
    } else {
      hide Apply, Enabled, Initial, CommitsTo;
    }
  }

  lemma ConflictStep(world: World, run: seq<Db>, steps: seq<Step>, j: nat, inbox: Inbox, snap: nat)
    requires Run(world, run, steps) && j < |steps| && snap <= |run[j].log|
    ensures Conflicts(run[j + 1], inbox, snap) <==> Conflicts(run[j], inbox, snap) || CommitsTo(run, steps, j, inbox)
  {
    hide Apply, Enabled, Initial, Conflicts;
    StepAppends(world, run, steps, j);
    if steps[j].Commit? || steps[j].Lose? {
      ConflictSnoc(run[j], run[j + 1], inbox, snap);
    } else {
      ConflictsSame(run[j], run[j + 1], inbox, snap);
    }
  }

  /** An attempt is undone at its Touch if and only if another publisher has committed to the inbox
      between its Begin and its Touch. */
  lemma UndoneAtTouch(world: World, run: seq<Db>, steps: seq<Step>, b: nat, t: nat, p: nat)
    requires Run(world, run, steps) && OneAttempt(steps, b, t, p) && steps[t] == Touch(p)
    ensures p in run[t].pubs && p in run[t + 1].pubs && forall j :: b < j < t ==> steps[j].p in run[j].pubs
    ensures !InTx(run[t + 1].pubs[p].phase) <==>
            exists j :: b < j < t && steps[j].p != p && (steps[j].Commit? || steps[j].Lose?)
                        && run[j].pubs[steps[j].p].inbox == run[t].pubs[p].inbox
  {
    AttemptSnap(world, run, steps, b, t, p);
    ConflictMeans(world, run, steps, b, t, run[t].pubs[p].inbox);
    RunStep(world, run, steps, t);
    forall j | b < j < t
      ensures steps[j].p in run[j].pubs && steps[j] != Commit(p) && steps[j] != Lose(p)
    {
      RunStep(world, run, steps, j);
      StillOpen(world, run, steps, b, t, j, p);
    }
    var inbox := run[t].pubs[p].inbox;
    forall j | b < j < t
      ensures CommitsTo(run, steps, j, inbox) <==>
              (steps[j].p != p && (steps[j].Commit? || steps[j].Lose?) && run[j].pubs[steps[j].p].inbox == inbox)
    {
    }
    hide Run, Of, Ids, Updates, Conflicts, Seen;
  }

  /** An attempt that reaches its Touch has not ended on the way. */
  lemma {:induction false} StillOpen(world: World, run: seq<Db>, steps: seq<Step>, b: nat, t: nat, j: nat, p: nat)
    requires Run(world, run, steps) && OneAttempt(steps, b, t, p) && b < j < t
    requires p in run[t].pubs && InTx(run[t].pubs[p].phase)
    ensures steps[j] != Commit(p) && steps[j] != Lose(p)
  {
    if steps[j] == Commit(p) || steps[j] == Lose(p) {
      RunStep(world, run, steps, j);
      assert !InTx(run[j + 1].pubs[p].phase) by { hide Run, Of, Ids, Updates, Conflicts, Seen; }
      StaysOut(world, run, steps, b, j + 1, t, p);
    }
  }

  lemma {:induction false} StaysOut(world: World, run: seq<Db>, steps: seq<Step>, b: nat, j: nat, t: nat, p: nat)
    requires Run(world, run, steps) && OneAttempt(steps, b, t, p) && b < j <= t
    requires p in run[j].pubs && !InTx(run[j].pubs[p].phase)
    ensures p in run[t].pubs && !InTx(run[t].pubs[p].phase)
    decreases t - j
  {
    if j < t {
      RunStep(world, run, steps, j);
      assert !InTx(run[j + 1].pubs[p].phase) by { hide Run, Of, Ids, Updates, Conflicts, Seen; }
      StaysOut(world, run, steps, b, j + 1, t, p);
    }
  }

  /** An attempt is undone at its Insert if and only if the log at its Begin holds 256 entries of
      the inbox or the validation refuses the update after them. */
  lemma UndoneAtInsert(world: World, run: seq<Db>, steps: seq<Step>, b: nat, t: nat, p: nat)
    requires Run(world, run, steps) && OneAttempt(steps, b, t, p) && steps[t] == Insert(p)
    ensures p in run[b].pubs && p in run[t + 1].pubs
    ensures var pub := run[b].pubs[p];
            var seen := Of(run[b].log, pub.inbox);
            !InTx(run[t + 1].pubs[p].phase) <==>
            |seen| >= 256 || !world.accepts(seq(|seen|, j requires 0 <= j < |seen| => seen[j].update), pub.update)
  {
    AttemptSnap(world, run, steps, b, t, p);
    RunStep(world, run, steps, t);
    LogGrows(world, run, steps, b, t);
    var seen := Of(run[b].log, run[b].pubs[p].inbox);
    assert run[t].log[..|run[b].log|] == run[b].log;
    assert Updates(seen) == seq(|seen|, j requires 0 <= j < |seen| => seen[j].update);
    hide Run, Of, Ids, Updates, Conflicts;
  }

  /** Any statement of an open transaction may fail, and that undoes exactly the attempt: nothing
      has been committed, its lock is free again, no other publisher has moved, and the publisher
      can begin again unless it was its third attempt. */
  lemma FailureUndoes(world: World, run: seq<Db>, steps: seq<Step>, p: nat)
    requires Run(world, run, steps) && p in run[|steps|].pubs && InTx(run[|steps|].pubs[p].phase)
    ensures var db := run[|steps|];
            && Enabled(world, db, Break(p))
            && var db' := Apply(world, db, Break(p));
               && db'.log == db.log && db'.nextSeq == db.nextSeq && db'.pubs.Keys == db.pubs.Keys
               && (forall q :: q in db.pubs && q != p ==> db'.pubs[q] == db.pubs[q])
               && db'.pubs[p] == db.pubs[p].(attempts := db.pubs[p].attempts + 1,
                    phase := if db.pubs[p].attempts + 1 < 3 then Idle else Done(false))
               && (forall key :: key in db'.locks <==> key in db.locks && db.locks[key] != p)
               && (forall key :: key in db'.locks ==> db'.locks[key] == db.locks[key])
  {
    RunKeeps(world, run, steps, |steps|);
    var db := run[|steps|];
    assert LocksOk(world, db);
    hide Of, Ids, Updates, Conflicts, Seen, LogOk, PendingOk, AttemptsOk, Run;
  }

  // ----- an admissible publish commits -----

  /** The five statements of an undisturbed attempt. */
  function Attempt(p: nat): seq<Step> { [Begin(p), Lock(p), Insert(p), Touch(p), Commit(p)] }

  /** The database with p elsewhere, other locks held and another id next. */
  function At(db: Db, p: nat, phase: Phase, locks: map<nat, nat>, nextSeq: nat): Db
    requires p in db.pubs
  {
    db.(pubs := db.pubs[p := db.pubs[p].(phase := phase)], locks := locks, nextSeq := nextSeq)
  }

  /** The database after p's update has gone in at the end of its inbox's log. */
  ghost predicate Published(db: Db, db': Db, p: nat)
    requires p in db.pubs
  {
    && |db'.log| == |db.log| + 1 && db'.log[..|db.log|] == db.log
    && var e := db'.log[|db.log|];
       && e.inbox == db.pubs[p].inbox && e.update == db.pubs[p].update && e.publisher == p
       && (forall x :: x in db.log ==> x.seqId < e.seqId)
       && db'.pubs == db.pubs[p := db.pubs[p].(phase := Done(true))] && db'.locks == db.locks
  }

  ghost predicate Leads(world: World, db: Db, step: Step, db': Db) {
    Enabled(world, db, step) && db' == Apply(world, db, step)
  }

  /** The states `more` are what the steps lead to from `db`, each of them enabled. */
  ghost predicate Chained(world: World, db: Db, more: seq<Db>, steps: seq<Step>) {
    && |more| == |steps|
    && forall i :: 0 <= i < |steps| ==> Leads(world, ([db] + more)[i], steps[i], more[i])
  }

  lemma UndisturbedLocks(world: World, db: Db, p: nat)
    requires p in db.pubs && db.pubs[p].phase == Idle && world.lockKey(db.pubs[p].inbox) !in db.locks
    ensures var d1 := At(db, p, Waiting(|db.log|), db.locks, db.nextSeq);
            && Enabled(world, db, Begin(p)) && d1 == Apply(world, db, Begin(p)) && Enabled(world, d1, Lock(p))
            && Apply(world, d1, Lock(p))
               == At(db, p, Locked(|db.log|), db.locks[world.lockKey(db.pubs[p].inbox) := p], db.nextSeq)
  {
    hide Of, Updates, Ids, Conflicts;
  }

  lemma UndisturbedInsert(world: World, db: Db, p: nat)
    requires p in db.pubs && db.pubs[p].phase == Idle
    requires var log := Of(db.log, db.pubs[p].inbox);
             |log| < 256 && world.accepts(Updates(log), db.pubs[p].update)
    ensures var held := db.locks[world.lockKey(db.pubs[p].inbox) := p];
            var d2 := At(db, p, Locked(|db.log|), held, db.nextSeq);
            && Enabled(world, d2, Insert(p))
            && Apply(world, d2, Insert(p)) == At(db, p, Inserted(|db.log|, db.nextSeq), held, db.nextSeq + 1)
  {
    assert db.log[..|db.log|] == db.log;
    hide Of, Updates, Ids, Conflicts;
  }

  lemma UndisturbedTouch(world: World, db: Db, p: nat, held: map<nat, nat>)
    requires p in db.pubs
    ensures var d3 := At(db, p, Inserted(|db.log|, db.nextSeq), held, db.nextSeq + 1);
            && Enabled(world, d3, Touch(p))
            && Apply(world, d3, Touch(p)) == At(db, p, Touched(|db.log|, db.nextSeq), held, db.nextSeq + 1)
  {
    hide Of, Updates, Ids;
  }

  lemma UndisturbedCommit(world: World, db: Db, p: nat)
    requires Inv(world, db) && p in db.pubs && db.pubs[p].phase == Idle
    requires world.lockKey(db.pubs[p].inbox) !in db.locks
    ensures var held := db.locks[world.lockKey(db.pubs[p].inbox) := p];
            var d4 := At(db, p, Touched(|db.log|, db.nextSeq), held, db.nextSeq + 1);
            Enabled(world, d4, Commit(p)) && Published(db, Apply(world, d4, Commit(p)), p)
  {
    hide Inv, Of, Updates, Ids, Conflicts, Committed, NewEntry;
    var key := world.lockKey(db.pubs[p].inbox);
    var held := db.locks[key := p];
    var d4 := At(db, p, Touched(|db.log|, db.nextSeq), held, db.nextSeq + 1);
    IdsBelow(world, db);
    CommitEffect(world, d4, p, d4.pubs[p].(phase := Done(true)));
    NewEntryIs(d4, p);
    var d5 := Apply(world, d4, Commit(p));
    assert d5.pubs == db.pubs[p := db.pubs[p].(phase := Done(true))];
    assert d5.locks == held - {key} == db.locks;
  }

  lemma IdsBelow(world: World, db: Db)
    requires Inv(world, db)
    ensures forall x :: x in db.log ==> x.seqId < db.nextSeq
  {
    forall x | x in db.log ensures x.seqId < db.nextSeq {
      var k :| 0 <= k < |db.log| && db.log[k] == x;
    }
  }

  lemma NewEntryIs(db: Db, p: nat)
    requires p in db.pubs && db.pubs[p].phase.Touched?
    ensures var e := NewEntry(db, p);
            && e.seqId == db.pubs[p].phase.seqId && e.inbox == db.pubs[p].inbox && e.update == db.pubs[p].update
            && e.publisher == p
  {
  }

  /** The states an undisturbed attempt goes through. */
  lemma Undisturbed(world: World, db: Db, p: nat) returns (more: seq<Db>)
    requires Inv(world, db) && p in db.pubs && db.pubs[p].phase == Idle
    requires world.lockKey(db.pubs[p].inbox) !in db.locks
    requires var log := Of(db.log, db.pubs[p].inbox);
             |log| < 256 && world.accepts(Updates(log), db.pubs[p].update)
    ensures |more| == 5 && Published(db, more[4], p)
    ensures Chained(world, db, more, Attempt(p))
  {
    hide Inv, Of, Updates, Ids, Apply, Enabled, Published, At, Conflicts;
    var key, n := world.lockKey(db.pubs[p].inbox), |db.log|;
    var held := db.locks[key := p];
    var d1 := At(db, p, Waiting(n), db.locks, db.nextSeq);
    var d2 := At(db, p, Locked(n), held, db.nextSeq);
    var d3 := At(db, p, Inserted(n, db.nextSeq), held, db.nextSeq + 1);
    var d4 := At(db, p, Touched(n, db.nextSeq), held, db.nextSeq + 1);
    UndisturbedLocks(world, db, p);
    UndisturbedInsert(world, db, p);
    UndisturbedTouch(world, db, p, held);
    UndisturbedCommit(world, db, p);
    more := [d1, d2, d3, d4, Apply(world, d4, Commit(p))];
  }

  lemma ExtendRun(world: World, run: seq<Db>, steps: seq<Step>, more: seq<Db>, steps': seq<Step>)
    requires Run(world, run, steps) && Chained(world, run[|steps|], more, steps')
    ensures Run(world, run + more, steps + steps') && (run + more)[..|run|] == run
  {
    hide Apply, Enabled, Initial, Chained;
    assert |more| == |steps'| by { ChainedSize(world, run[|steps|], more, steps'); }
    assert (run + more)[0] == run[0];
    forall i | 0 <= i < |steps + steps'|
      ensures Enabled(world, (run + more)[i], (steps + steps')[i])
      ensures (run + more)[i + 1] == Apply(world, (run + more)[i], (steps + steps')[i])
    {
      ExtendedAt(run, steps, more, steps', i);
      if i < |steps| {
        assert Leads(world, run[i], steps[i], run[i + 1]);
      } else {
        ChainedAt(world, run[|steps|], more, steps', i - |steps|);
      }
    }
  }

  lemma ChainedSize(world: World, db: Db, more: seq<Db>, steps: seq<Step>)
    requires Chained(world, db, more, steps)
    ensures |more| == |steps|
  {
  }

  lemma ChainedAt(world: World, db: Db, more: seq<Db>, steps: seq<Step>, k: nat)
    requires Chained(world, db, more, steps) && k < |steps| == |more|
    ensures Leads(world, if k == 0 then db else more[k - 1], steps[k], more[k])
  {
    hide Leads;
    assert ([db] + more)[k] == if k == 0 then db else more[k - 1];
  }

  lemma ExtendedAt(run: seq<Db>, steps: seq<Step>, more: seq<Db>, steps': seq<Step>, i: nat)
    requires |run| == |steps| + 1 && |more| == |steps'| && i < |steps + steps'|
    ensures (steps + steps')[i] == if i < |steps| then steps[i] else steps'[i - |steps|]
    ensures (run + more)[i] == if i <= |steps| then run[i] else more[i - |steps| - 1]
    ensures (run + more)[i + 1] == if i < |steps| then run[i + 1] else more[i - |steps|]
  {
  }

  /** From any reachable state in which the inbox's lock is free, the inbox has fewer than 256
      entries and the validation accepts the update, an attempt that is not interrupted goes
      through: each of its steps is enabled, it ends in success, and the log has one more entry,
      this update at a sequence id above all others of the inbox. */
  lemma AdmissibleCommits(world: World, run: seq<Db>, steps: seq<Step>, p: nat)
    requires Run(world, run, steps)
    requires var db := run[|steps|];
             && p in db.pubs && db.pubs[p].phase == Idle && world.lockKey(db.pubs[p].inbox) !in db.locks
             && var log := Of(db.log, db.pubs[p].inbox);
                && |log| < 256
                && world.accepts(seq(|log|, j requires 0 <= j < |log| => log[j].update), db.pubs[p].update)
    ensures exists run' :: Run(world, run', steps + Attempt(p)) && run'[..|run|] == run
                           && Published(run[|steps|], run'[|steps| + 5], p)
  {
    hide Inv, Of, Ids, Apply, Enabled, Published, Initial, At, Chained;
    var log := Of(run[|steps|].log, run[|steps|].pubs[p].inbox);
    assert Updates(log) == seq(|log|, j requires 0 <= j < |log| => log[j].update);
    hide Updates;
    RunKeeps(world, run, steps, |steps|);
    var more := Undisturbed(world, run[|steps|], p);
    ExtendRun(world, run, steps, more, Attempt(p));
    assert (run + more)[|steps| + 5] == more[4];
  }

  // ----- giving up -----

  /** How many of a publisher's attempts have failed: its steps that leave it outside a transaction
      without success. */
  ghost function Failures(run: seq<Db>, steps: seq<Step>, i: nat, p: nat): nat
    requires i <= |steps| && i < |run| && forall j :: 0 <= j <= i ==> p in run[j].pubs
  {
    if i == 0 then 0
    else
      var phase := run[i].pubs[p].phase;
      Failures(run, steps, i - 1, p) + if steps[i - 1].p == p && !InTx(phase) && phase != Done(true) then 1 else 0
  }

  lemma {:induction false} RunPublishers(world: World, run: seq<Db>, steps: seq<Step>, i: nat)
    requires Run(world, run, steps) && i <= |steps|
    ensures run[i].pubs.Keys == run[0].pubs.Keys
  {
    if i > 0 {
      RunPublishers(world, run, steps, i - 1);
      RunStep(world, run, steps, i - 1);
    }
  }

  lemma {:induction false} AttemptsAreFailures(world: World, run: seq<Db>, steps: seq<Step>, i: nat, p: nat)
    requires Run(world, run, steps) && i <= |steps| && forall j :: 0 <= j <= i ==> p in run[j].pubs
    ensures run[i].pubs[p].attempts == Failures(run, steps, i, p)
    ensures run[i].pubs[p].phase == Done(false) <==> run[i].pubs[p].attempts == 3
  {
    if i > 0 {
      hide Apply, Enabled, Initial, Inv;
      AttemptsAreFailures(world, run, steps, i - 1, p);
      RunStep(world, run, steps, i - 1);
      RunKeeps(world, run, steps, i - 1);
      AttemptsInv(world, run[i - 1], p);
      StepAttempts(world, run[i - 1], steps[i - 1], p);
    }
  }

  lemma AttemptsInv(world: World, db: Db, p: nat)
    requires Inv(world, db) && p in db.pubs
    ensures AttemptsOk(db, p)
  {
    hide LocksOk, SnapsOk, LogOk, PendingOk;
  }

  lemma StepAttempts(world: World, db: Db, step: Step, p: nat)
    requires Enabled(world, db, step) && p in db.pubs && AttemptsOk(db, p)
    requires db.pubs[p].phase == Done(false) <==> db.pubs[p].attempts == 3
    ensures var d := Apply(world, db, step);
            && p in d.pubs && (d.pubs[p].phase == Done(false) <==> d.pubs[p].attempts == 3)
            && d.pubs[p].attempts == db.pubs[p].attempts
                 + if step.p == p && !InTx(d.pubs[p].phase) && d.pubs[p].phase != Done(true) then 1 else 0
  {
    hide Of, Ids, Updates, Conflicts, Seen;
  }

  /** A publish gives up exactly when its third attempt has failed. */
  lemma GivesUpExactly(world: World, run: seq<Db>, steps: seq<Step>, i: nat, p: nat)
    requires Run(world, run, steps) && i <= |steps| && p in run[0].pubs
    ensures forall j :: 0 <= j <= i ==> p in run[j].pubs
    ensures run[i].pubs[p].phase == Done(false) <==> Failures(run, steps, i, p) == 3
  {
    forall j | 0 <= j <= i ensures p in run[j].pubs {
      RunPublishers(world, run, steps, j);
      assert p in run[j].pubs.Keys;
    }
    AttemptsAreFailures(world, run, steps, i, p);
  }

  // ----- the retry loop -----

  /** The loop around a transaction: at most `numRetries` attempts, stopping at the first that
      succeeds; the error of the last attempt otherwise. `attempt(i)` is the i-th one's error. */
  method RunInRepeatableReadTx(numRetries: int, ctxErr: nat -> Option<string>, attempt: nat -> Option<string>)
    returns (err: Option<string>, ran: nat)
    ensures ran == 0 || ran <= numRetries
    ensures forall i :: 0 <= i < ran ==> ctxErr(i).None? && (i < ran - 1 ==> attempt(i).Some?)
    ensures err.None? <==> numRetries <= 0 || (ran > 0 && attempt(ran - 1).None?)
    ensures err.Some? && ran == numRetries ==> err == attempt(ran - 1)
    ensures err.Some? && ran < numRetries ==> err == ctxErr(ran) && (ran > 0 ==> attempt(ran - 1).Some?)
  {
    err, ran := None, 0;
    while ran < numRetries
      invariant ran == 0 || ran <= numRetries
      invariant forall i :: 0 <= i < ran ==> ctxErr(i).None? && attempt(i).Some?
      invariant err == if ran == 0 then None else attempt(ran - 1)
    {
      if ctxErr(ran).Some? {
        return ctxErr(ran), ran;
      }
      err := attempt(ran);
      ran := ran + 1;
      if err.None? {
        return;
      }
    }
  }
}
