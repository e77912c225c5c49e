/** The sync hub under interleaved transactions (qcue-rs/app-server/src/sync/emit.rs, materialize.rs,
    routes.rs), for one tenant: server-side emitters that take the tenant's advisory lock, device pushes
    that do not and return a cursor of their own, and pulls that read the cursor first and the ops after.

    A statement sees what was committed when it runs, and its own transaction's rows. Sequence numbers are
    handed out at insertion. */
module SyncHub {
  import opened Common

  type SeqNo = n: nat | 0 < n witness 1

  /** An op as far as ordering goes: its sequence number, and the device, site and lamport that identify it. */
  datatype Row = Row(seqNo: SeqNo, device: nat, site: nat, lamport: int)

  /** The device that server-side ops are filed under, and its reserved site. */
  const SERVER: nat := 0
  const SERVER_SITE: nat := 0

  /** An open transaction: its uncommitted rows, the lamport it has read, and how often it has emitted. */
  datatype Tx = Tx(pending: seq<Row>, top: Option<int>, emits: nat)

  /** What a client waits for, and the cursor it will be given: the ops of a pull, or the answer to a push. It
      has one request at a time, and drops the old one when it starts another. */
  datatype Request = Idle | Pulling(next: nat) | Pushing(tx: nat, next: nat)

  /** A client's cursor and the sequence numbers of the ops it has the effect of. */
  datatype Client = Client(cursor: nat, received: set<nat>, request: Request)

  /** `ended` says of the transactions that are over whether they committed. */
  datatype State = State(nextSeq: SeqNo, log: seq<Row>, open: map<nat, Tx>, ended: map<nat, bool>, lock: Option<nat>,
                         clients: map<nat, Client>, emitted: nat)

  datatype Step =
    | Begin(tx: nat)
    | Lock(tx: nat)
    | ReadMax(tx: nat)
    | EmitInsert(tx: nat)
    | PushInsert(tx: nat, device: nat, site: nat, lamport: int)
    | Commit(tx: nat)
    | Abort(tx: nat)
    | PullCursor(client: nat)
    | PullOps(client: nat)
    | PushCursor(client: nat, tx: nat)
    | PushAck(client: nat)

  const START := State(1, [], map[], map[], None, map[], 0)

  const NEW_CLIENT := Client(0, {}, Idle)

  /** The greatest lamport, even a negative one; 0 where there is none. */
  function MaxLamport(rows: seq<Row>): int {
    if rows == [] then 0
    else
      var n := |rows| - 1;
      if n == 0 then rows[n].lamport else Max(MaxLamport(rows[..n]), rows[n].lamport)
  }

  lemma {:induction false} MaxLamportBounds(rows: seq<Row>)
    ensures forall i :: 0 <= i < |rows| ==> rows[i].lamport <= MaxLamport(rows)
  {
    if rows != [] {
      MaxLamportBounds(rows[..|rows| - 1]);
    }
  }

  lemma MaxOfBoth(a: seq<Row>, b: seq<Row>)
    ensures forall i :: 0 <= i < |a| ==> a[i].lamport <= MaxLamport(a + b)
    ensures forall i :: 0 <= i < |b| ==> b[i].lamport <= MaxLamport(a + b)
  {
    MaxLamportBounds(a + b);
    assert forall i :: 0 <= i < |a| ==> a[i] == (a + b)[i];
    assert forall i :: 0 <= i < |b| ==> b[i] == (a + b)[|a| + i];
  }

  /** The pull cursor: the greatest sequence number, or 0. */
  function MaxSeq(rows: seq<Row>): nat {
    if rows == [] then 0 else Max(MaxSeq(rows[..|rows| - 1]), rows[|rows| - 1].seqNo)
  }

  lemma {:induction false} MaxSeqBounds(rows: seq<Row>)
    ensures forall i :: 0 <= i < |rows| ==> rows[i].seqNo <= MaxSeq(rows)
  {
    if rows != [] {
      MaxSeqBounds(rows[..|rows| - 1]);
    }
  }

  lemma {:induction false} MaxSeqAppend(a: seq<Row>, b: seq<Row>)
    ensures MaxSeq(a + b) == Max(MaxSeq(a), MaxSeq(b))
    decreases |b|
  {
    if b == [] {
      assert a + b == a;
    } else {
      assert (a + b)[..|a + b| - 1] == a + b[..|b| - 1];
      MaxSeqAppend(a, b[..|b| - 1]);
    }
  }

  lemma {:induction false} MaxSeqBelow(rows: seq<Row>, next: nat)
    requires next > 0 && forall i :: 0 <= i < |rows| ==> rows[i].seqNo < next
    ensures MaxSeq(rows) < next
  {
    if rows != [] {
      MaxSeqBelow(rows[..|rows| - 1], next);
    }
  }

  predicate SameOp(r: Row, device: nat, site: nat, lamport: int) {
    r.device == device && r.site == site && r.lamport == lamport
  }

  predicate Taken(rows: seq<Row>, device: nat, site: nat, lamport: int) {
    exists i :: 0 <= i < |rows| && SameOp(rows[i], device, site, lamport)
  }

  /** Another open transaction is about to commit the same op: the insert waits for it. */
  predicate Contended(s: State, w: nat, device: nat, site: nat, lamport: int) {
    exists v :: v in s.open && v != w && Taken(s.open[v].pending, device, site, lamport)
  }

  /** INSERT … ON CONFLICT DO NOTHING: a taken op is dropped, though its sequence number is used up. */
  function Inserted(s: State, tx: Tx, device: nat, site: nat, lamport: int): Tx {
    if Taken(s.log, device, site, lamport) || Taken(tx.pending, device, site, lamport) then tx
    else tx.(pending := tx.pending + [Row(s.nextSeq, device, site, lamport)])
  }

  predicate IsCommitted(s: State, w: nat) { w !in s.open && w in s.ended && s.ended[w] }

  function ClientAt(s: State, c: nat): Client { if c in s.clients then s.clients[c] else NEW_CLIENT }

  /** The sequence numbers of the committed ops past a cursor. */
  function Since(rows: seq<Row>, cursor: nat): set<nat> {
    set i | 0 <= i < |rows| && rows[i].seqNo > cursor :: rows[i].seqNo
  }

  function Close(s: State, w: nat, committed: bool): State {
    s.(open := s.open - {w}, ended := s.ended[w := committed], lock := if s.lock == Some(w) then None else s.lock)
  }

  /** The cursor as a push reads it before its commit. */
  function CursorIn(s: State, w: nat): nat
    requires w in s.open
  {
    Max(MaxSeq(s.log), MaxSeq(s.open[w].pending))
  }

  /** A step that cannot be taken, or has to wait, changes nothing. */
  function Take(s: State, e: Step): State {
    match e
    case Begin(w) => if w in s.open || w in s.ended then s else s.(open := s.open[w := Tx([], None, 0)])
    case Lock(w) => if w in s.open && s.lock.None? then s.(lock := Some(w)) else s
    case ReadMax(w) =>
      if w in s.open && s.lock == Some(w) then
        var tx := s.open[w];
        s.(open := s.open[w := tx.(top := Some(MaxLamport(s.log + tx.pending)))])
      else s
    case EmitInsert(w) =>
      if w in s.open && s.lock == Some(w) && s.open[w].top.Some?
         && !Contended(s, w, SERVER, SERVER_SITE, s.open[w].top.value + 1)
      then
        var tx := s.open[w];
        var tx' := Inserted(s, tx, SERVER, SERVER_SITE, tx.top.value + 1);
        s.(nextSeq := s.nextSeq + 1, open := s.open[w := tx'.(top := None, emits := tx.emits + 1)])
      else s
    case PushInsert(w, device, site, lamport) =>
      if w in s.open && !Contended(s, w, device, site, lamport) then
        s.(nextSeq := s.nextSeq + 1, open := s.open[w := Inserted(s, s.open[w], device, site, lamport)])
      else s
    case Commit(w) =>
      if w in s.open then
        Close(s, w, true).(log := s.log + s.open[w].pending, emitted := s.emitted + s.open[w].emits)
      else s
    case Abort(w) => if w in s.open then Close(s, w, false) else s
    case PullCursor(c) => s.(clients := s.clients[c := ClientAt(s, c).(request := Pulling(MaxSeq(s.log)))])
    case PullOps(c) =>
      var client := ClientAt(s, c);
      // A cold pull gets a snapshot, which shows every committed op; a warm one the ops past its cursor.
      if client.request.Pulling? then
        s.(clients := s.clients[c := Client(client.request.next, client.received + Since(s.log, client.cursor), Idle)])
      else s
    case PushCursor(c, w) =>
      // What the client has pushed itself it need not be sent.
      if w in s.open then
        var client := ClientAt(s, c);
        var received := client.received + Since(s.open[w].pending, 0);
        s.(clients := s.clients[c := Client(client.cursor, received, Pushing(w, CursorIn(s, w)))])
      else s
    case PushAck(c) =>
      var client := ClientAt(s, c);
      if client.request.Pushing? && IsCommitted(s, client.request.tx) then
        s.(clients := s.clients[c := Client(client.request.next, client.received, Idle)])
      else s
  }

  function Run(s: State, steps: seq<Step>): State {
    if steps == [] then s else Take(Run(s, steps[..|steps| - 1]), steps[|steps| - 1])
  }

  // ---------------------------------------------------------------------------------------------
  // Commits in sequence order skip nobody
  // ---------------------------------------------------------------------------------------------

  /** What this transaction would commit comes after everything committed so far. */
  predicate InOrder(log: seq<Row>, pending: seq<Row>) {
    forall i :: 0 <= i < |pending| ==> pending[i].seqNo > MaxSeq(log)
  }

  /** The client has every committed op between its cursor and the one it is about to adopt. */
  predicate Complete(log: seq<Row>, c: Client, next: nat) {
    forall i :: 0 <= i < |log| && c.cursor < log[i].seqNo <= next ==> log[i].seqNo in c.received
  }

  predicate Orderly(s: State, e: Step) {
    && (e.Commit? && e.tx in s.open ==> InOrder(s.log, s.open[e.tx].pending))
    && (e.PushAck? && ClientAt(s, e.client).request.Pushing? ==>
          Complete(s.log, ClientAt(s, e.client), ClientAt(s, e.client).request.next))
  }

  predicate AllOrderly(s: State, steps: seq<Step>) {
    steps == [] || (AllOrderly(s, steps[..|steps| - 1]) && Orderly(Run(s, steps[..|steps| - 1]), steps[|steps| - 1]))
  }

  /** The client has every committed op up to its cursor. */
  predicate UpToDate(log: seq<Row>, c: Client) {
    forall i :: 0 <= i < |log| && log[i].seqNo <= c.cursor ==> log[i].seqNo in c.received
  }

  /** The cursors a client has and will be given are of committed ops, or of those of its own push. */
  predicate Behind(s: State, c: Client) {
    && c.cursor <= MaxSeq(s.log)
    && match c.request
       case Idle => true
       case Pulling(next) => next <= MaxSeq(s.log)
       case Pushing(w, next) =>
         if w in s.open then next <= CursorIn(s, w)
         else w in s.ended && (s.ended[w] ==> next <= MaxSeq(s.log))
  }

  predicate NoneSkipped(s: State) {
    forall c :: c in s.clients ==> UpToDate(s.log, s.clients[c]) && Behind(s, s.clients[c])
  }

  lemma CommitSkipsNone(log: seq<Row>, pending: seq<Row>, c: Client)
    requires UpToDate(log, c) && c.cursor <= MaxSeq(log) && InOrder(log, pending)
    ensures UpToDate(log + pending, c)
  {
    var all := log + pending;
    forall i | 0 <= i < |all| && all[i].seqNo <= c.cursor
      ensures all[i].seqNo in c.received
    {
    }
  }

  lemma CommitStaysBehind(s: State, w: nat, c: Client)
    requires Behind(s, c) && w in s.open
    ensures Behind(Take(s, Commit(w)), c)
  {
    MaxSeqAppend(s.log, s.open[w].pending);
  }

  lemma CommitsSkipNone(s: State, w: nat)
    requires NoneSkipped(s) && w in s.open && InOrder(s.log, s.open[w].pending)
    ensures NoneSkipped(Take(s, Commit(w)))
  {
    var s' := Take(s, Commit(w));
    forall c | c in s'.clients
      ensures UpToDate(s'.log, s'.clients[c]) && Behind(s', s'.clients[c])
    {
      CommitSkipsNone(s.log, s.open[w].pending, s.clients[c]);
      CommitStaysBehind(s, w, s.clients[c]);
    }
  }

  /** Inserting only moves the cursor that a push will read. */
  lemma InsertStaysBehind(s: State, w: nat, tx: Tx, row: Row, c: Client)
    requires Behind(s, c) && w in s.open && (tx.pending == s.open[w].pending || tx.pending == s.open[w].pending + [row])
    ensures Behind(s.(nextSeq := s.nextSeq + 1, open := s.open[w := tx]), c)
  {
    MaxSeqAppend(s.open[w].pending, [row]);
  }

  lemma InsertsSkipNone(s: State, e: Step)
    requires NoneSkipped(s) && (e.EmitInsert? || e.PushInsert?)
    ensures NoneSkipped(Take(s, e))
  {
    var s' := Take(s, e);
    forall c | c in s'.clients
      ensures UpToDate(s'.log, s'.clients[c]) && Behind(s', s'.clients[c])
    {
      if s' != s {
        var row := if e.EmitInsert? then Row(s.nextSeq, SERVER, SERVER_SITE, s.open[e.tx].top.value + 1)
                   else Row(s.nextSeq, e.device, e.site, e.lamport);
        InsertStaysBehind(s, e.tx, s'.open[e.tx], row, s.clients[c]);
      }
    }
  }

  /** Whatever has been committed by the time the ops are read is received. */
  lemma PullCatchesUp(log: seq<Row>, c: Client, cursor: nat)
    requires UpToDate(log, c)
    ensures UpToDate(log, Client(cursor, c.received + Since(log, c.cursor), Idle))
  {
    forall i | 0 <= i < |log|
      ensures log[i].seqNo in c.received + Since(log, c.cursor)
    {
      if log[i].seqNo > c.cursor {
        assert log[i].seqNo in Since(log, c.cursor);
      }
    }
  }

  /** A client may adopt the cursor of its push exactly if it has every committed op up to there. */
  lemma AdoptsExactlyIf(log: seq<Row>, c: Client, next: nat)
    requires UpToDate(log, c)
    ensures UpToDate(log, Client(next, c.received, Idle)) <==> Complete(log, c, next)
  {
  }

  lemma OthersSkipNone(s: State, e: Step)
    requires NoneSkipped(s) && (e.Begin? || e.Lock? || e.ReadMax? || e.Abort?)
    ensures NoneSkipped(Take(s, e))
  {
    var s' := Take(s, e);
    forall c | c in s'.clients
      ensures UpToDate(s'.log, s'.clients[c]) && Behind(s', s'.clients[c])
    {
      assert Behind(s, s.clients[c]);
    }
  }

  lemma StepSkipsNone(s: State, e: Step)
    requires NoneSkipped(s) && Orderly(s, e)
    ensures NoneSkipped(Take(s, e))
  {
    match e
    case Commit(w) =>
      if w in s.open {
        CommitsSkipNone(s, w);
      }
    case EmitInsert(_) => InsertsSkipNone(s, e);
    case PushInsert(_, _, _, _) => InsertsSkipNone(s, e);
    case PullCursor(c) =>
    case PullOps(c) =>
      var client := ClientAt(s, c);
      if client.request.Pulling? {
        PullCatchesUp(s.log, client, client.request.next);
      }
    case PushCursor(c, w) =>
    case PushAck(c) =>
      var client := ClientAt(s, c);
      if client.request.Pushing? {
        AdoptsExactlyIf(s.log, client, client.request.next);
      }
    case _ => OthersSkipNone(s, e);
  }

  /** Where all commits are in order and a client adopts the cursor of a push only when it has everything up
      to there, a client that follows the returned cursors has every committed op up to its cursor, at every
      moment. */
  lemma {:induction false} OrderlyRunsSkipNone(s: State, steps: seq<Step>)
    requires NoneSkipped(s) && AllOrderly(s, steps)
    ensures NoneSkipped(Run(s, steps))
  {
    if steps != [] {
      OrderlyRunsSkipNone(s, steps[..|steps| - 1]);
      StepSkipsNone(Run(s, steps[..|steps| - 1]), steps[|steps| - 1]);
    }
  }

  // ---------------------------------------------------------------------------------------------
  // The advisory lock keeps commits in order
  // ---------------------------------------------------------------------------------------------

  /** A transaction's rows come after everything committed and before what is handed out next; without the
      lock it has none. */
  predicate TxOrdered(log: seq<Row>, tx: Tx, holds: bool, next: nat) {
    InOrder(log, tx.pending) && (forall i :: 0 <= i < |tx.pending| ==> tx.pending[i].seqNo < next)
    && (!holds ==> tx.pending == [])
  }

  predicate LockOrders(s: State) {
    && MaxSeq(s.log) < s.nextSeq
    && forall w :: w in s.open ==> TxOrdered(s.log, s.open[w], s.lock == Some(w), s.nextSeq)
  }

  lemma EmitStaysOrdered(s: State, w: nat)
    requires LockOrders(s)
    ensures LockOrders(Take(s, EmitInsert(w)))
  {
    var s' := Take(s, EmitInsert(w));
    forall v | v in s'.open
      ensures TxOrdered(s'.log, s'.open[v], s'.lock == Some(v), s'.nextSeq)
    {
      assert TxOrdered(s.log, s.open[v], s.lock == Some(v), s.nextSeq);
    }
  }

  lemma CommitStaysOrdered(s: State, w: nat)
    requires LockOrders(s) && w in s.open
    ensures LockOrders(Take(s, Commit(w))) && InOrder(s.log, s.open[w].pending)
  {
    var s' := Take(s, Commit(w));
    assert TxOrdered(s.log, s.open[w], s.lock == Some(w), s.nextSeq);
    MaxSeqAppend(s.log, s.open[w].pending);
    MaxSeqBelow(s.open[w].pending, s.nextSeq);
    forall v | v in s'.open
      ensures TxOrdered(s'.log, s'.open[v], s'.lock == Some(v), s'.nextSeq)
    {
      assert TxOrdered(s.log, s.open[v], s.lock == Some(v), s.nextSeq);
      assert s.open[w].pending == [] ==> s.log + s.open[w].pending == s.log;
    }
  }

  lemma LockedStep(s: State, e: Step)
    requires LockOrders(s) && !e.PushInsert? && !e.PushAck?
    ensures LockOrders(Take(s, e)) && Orderly(s, e)
  {
    match e
    case EmitInsert(w) => EmitStaysOrdered(s, w);
    case Commit(w) =>
      if w in s.open {
        CommitStaysOrdered(s, w);
      }
    case _ =>
  }

  predicate OnlyEmitters(steps: seq<Step>) {
    forall i :: 0 <= i < |steps| ==> !steps[i].PushInsert? && !steps[i].PushAck?
  }

  lemma {:induction false} LockedRun(steps: seq<Step>)
    requires OnlyEmitters(steps)
    ensures LockOrders(Run(START, steps)) && AllOrderly(START, steps)
  {
    if steps != [] {
      LockedRun(steps[..|steps| - 1]);
      LockedStep(Run(START, steps[..|steps| - 1]), steps[|steps| - 1]);
    }
  }

  /** With emitters and pulls only, in every interleaving, no client ever skips an op. */
  lemma EmittersSkipNone(steps: seq<Step>)
    requires OnlyEmitters(steps)
    ensures NoneSkipped(Run(START, steps))
  {
    LockedRun(steps);
    OrderlyRunsSkipNone(START, steps);
  }

  // ---------------------------------------------------------------------------------------------
  // A commit out of order can be skipped, for good
  // ---------------------------------------------------------------------------------------------

  predicate Numbers(rows: seq<Row>, q: nat) { exists i :: 0 <= i < |rows| && rows[i].seqNo == q }

  /** A committed op that the client does not have and, its cursor being past it, will not be sent. */
  predicate Skipped(s: State, c: nat, q: nat) {
    && c in s.clients && 0 < q <= s.clients[c].cursor && q !in s.clients[c].received
    && (!s.clients[c].request.Idle? ==> q <= s.clients[c].request.next)
    && Numbers(s.log, q) && q < s.nextSeq && forall w :: w in s.open ==> !Bears(s, w, q)
  }

  /** The sequence numbers of different transactions, and of the log, are different and have been handed out. */
  ghost predicate Numbered(s: State) {
    && (forall q: nat :: Numbers(s.log, q) ==> q < s.nextSeq)
    && (forall w, q: nat :: Bears(s, w, q) ==> q < s.nextSeq && !Numbers(s.log, q))
    && (forall v, w, q: nat :: Bears(s, v, q) && Bears(s, w, q) ==> v == w)
  }

  /** The open transaction w has inserted the op of this number. */
  predicate Bears(s: State, w: nat, q: nat) { w in s.open && Numbers(s.open[w].pending, q) }

  lemma NumbersAppend(a: seq<Row>, b: seq<Row>, q: nat)
    ensures Numbers(a + b, q) <==> Numbers(a, q) || Numbers(b, q)
  {
    var all := a + b;
    if Numbers(a, q) {
      var i :| 0 <= i < |a| && a[i].seqNo == q;
      assert all[i].seqNo == q;
    } else if Numbers(b, q) {
      var i :| 0 <= i < |b| && b[i].seqNo == q;
      assert all[|a| + i].seqNo == q;
    }
  }

  lemma InsertNumbers(s: State, tx: Tx, device: nat, site: nat, lamport: int, q: nat)
    ensures Numbers(Inserted(s, tx, device, site, lamport).pending, q) ==> Numbers(tx.pending, q) || q == s.nextSeq
  {
    NumbersAppend(tx.pending, [Row(s.nextSeq, device, site, lamport)], q);
  }

  lemma InsertStaysNumbered(s: State, w: nat, s': State)
    requires Numbered(s) && s'.log == s.log && s'.nextSeq == s.nextSeq + 1
    requires forall v, q: nat :: Bears(s', v, q) ==> Bears(s, v, q) || (v == w && q == s.nextSeq)
    ensures Numbered(s')
  {
  }

  lemma EmitStaysNumbered(s: State, w: nat)
    requires Numbered(s)
    ensures Numbered(Take(s, EmitInsert(w)))
  {
    var s' := Take(s, EmitInsert(w));
    if s' != s {
      forall v, q: nat | Bears(s', v, q)
        ensures Bears(s, v, q) || (v == w && q == s.nextSeq)
      {
        InsertNumbers(s, s.open[w], SERVER, SERVER_SITE, s.open[w].top.value + 1, q);
      }
      InsertStaysNumbered(s, w, s');
    }
  }

  lemma PushStaysNumbered(s: State, w: nat, device: nat, site: nat, lamport: int)
    requires Numbered(s)
    ensures Numbered(Take(s, PushInsert(w, device, site, lamport)))
  {
    var s' := Take(s, PushInsert(w, device, site, lamport));
    if s' != s {
      forall v, q: nat | Bears(s', v, q)
        ensures Bears(s, v, q) || (v == w && q == s.nextSeq)
      {
        InsertNumbers(s, s.open[w], device, site, lamport, q);
      }
      InsertStaysNumbered(s, w, s');
    }
  }

  lemma CommitStaysNumbered(s: State, w: nat)
    requires Numbered(s) && w in s.open
    ensures Numbered(Take(s, Commit(w)))
  {
    var s' := Take(s, Commit(w));
    forall q: nat
      ensures Numbers(s'.log, q) <==> Numbers(s.log, q) || Bears(s, w, q)
    {
      NumbersAppend(s.log, s.open[w].pending, q);
    }
    assert forall v, q: nat :: Bears(s', v, q) ==> Bears(s, v, q) && v != w;
  }

  /** A step that inserts and commits nothing. */
  lemma OtherStaysNumbered(s: State, e: Step)
    requires Numbered(s) && !e.EmitInsert? && !e.PushInsert? && !e.Commit?
    ensures Numbered(Take(s, e))
  {
    var s' := Take(s, e);
    forall v, q: nat | Bears(s', v, q)
      ensures Bears(s, v, q)
    {
    }
  }

  lemma TakeStaysNumbered(s: State, e: Step)
    requires Numbered(s)
    ensures Numbered(Take(s, e))
  {
    match e
    case EmitInsert(w) => EmitStaysNumbered(s, w);
    case PushInsert(w, device, site, lamport) => PushStaysNumbered(s, w, device, site, lamport);
    case Commit(w) =>
      if w in s.open {
        CommitStaysNumbered(s, w);
      }
    case _ => OtherStaysNumbered(s, e);
  }

  lemma {:induction false} RunsAreNumbered(steps: seq<Step>)
    ensures Numbered(Run(START, steps))
  {
    if steps != [] {
      RunsAreNumbered(steps[..|steps| - 1]);
      TakeStaysNumbered(Run(START, steps[..|steps| - 1]), steps[|steps| - 1]);
    }
  }

  lemma NotSince(rows: seq<Row>, cursor: nat, q: nat)
    requires !Numbers(rows, q)
    ensures q !in Since(rows, cursor)
  {
  }

  lemma MaxSeqCovers(rows: seq<Row>, q: nat)
    requires Numbers(rows, q)
    ensures q <= MaxSeq(rows)
  {
    MaxSeqBounds(rows);
  }

  /** A new client that pulls just before the commit skips each of its rows that the log is already past. */
  lemma OutOfOrderSkips(s: State, w: nat, c: nat, i: nat)
    requires Numbered(s) && w in s.open && i < |s.open[w].pending| && c !in s.clients
    requires s.open[w].pending[i].seqNo <= MaxSeq(s.log)
    ensures Skipped(Take(Take(Take(s, PullCursor(c)), PullOps(c)), Commit(w)), c, s.open[w].pending[i].seqNo)
  {
    var q := s.open[w].pending[i].seqNo;
    var s1 := Take(s, PullCursor(c));
    var s2 := Take(s1, PullOps(c));
    var s3 := Take(s2, Commit(w));
    assert Bears(s, w, q);
    assert forall v :: Bears(s3, v, q) ==> Bears(s, v, q) && v != w;
    NotSince(s.log, 0, q);
    assert s2.clients[c] == Client(MaxSeq(s.log), NEW_CLIENT.received + Since(s.log, 0), Idle);
    NumbersAppend(s.log, s.open[w].pending, q);
  }

  lemma PushAlone(s: State, c: nat, w: nat, s': State)
    requires w in s.open && s' == Take(Take(Take(s, PushCursor(c, w)), Commit(w)), PushAck(c))
    ensures s'.log == s.log + s.open[w].pending && c in s'.clients
    ensures s'.clients[c] == Client(MaxSeq(s'.log), ClientAt(s, c).received + Since(s.open[w].pending, 0), Idle)
  {
    MaxSeqAppend(s.log, s.open[w].pending);
  }

  /** A device that adopts the cursor its push returns skips every committed op that it has not been sent. */
  lemma PushCursorSkips(s: State, c: nat, w: nat, q: nat, s': State)
    requires Numbered(s) && w in s.open && Numbers(s.log, q) && 0 < q && q !in ClientAt(s, c).received
    requires s' == Take(Take(Take(s, PushCursor(c, w)), Commit(w)), PushAck(c))
    ensures Skipped(s', c, q)
  {
    PushAlone(s, c, w, s');
    assert !Bears(s, w, q);
    NotSince(s.open[w].pending, 0, q);
    NumbersAppend(s.log, s.open[w].pending, q);
    MaxSeqCovers(s'.log, q);
    assert forall v :: Bears(s', v, q) ==> Bears(s, v, q);
  }

  lemma NotPushedTwice(s: State, w: nat)
    requires Numbered(s) && w in s.open
    ensures forall i :: 0 <= i < |s.log| ==> !Numbers(s.open[w].pending, s.log[i].seqNo)
  {
    forall i | 0 <= i < |s.log|
      ensures !Numbers(s.open[w].pending, s.log[i].seqNo)
    {
      assert Numbers(s.log, s.log[i].seqNo);
      assert !Bears(s, w, s.log[i].seqNo);
    }
  }

  /** A device that pushes, with nothing in between, is up to date with the cursor this returns exactly if it
      had every committed op before; being up to date with its own old cursor is not enough. */
  lemma PushIsSafeExactlyIf(s: State, c: nat, w: nat, s': State)
    requires Numbered(s) && w in s.open && s' == Take(Take(Take(s, PushCursor(c, w)), Commit(w)), PushAck(c))
    ensures c in s'.clients && s'.clients[c].cursor == MaxSeq(s'.log)
    ensures UpToDate(s'.log, s'.clients[c])
            <==> forall i :: 0 <= i < |s.log| ==> s.log[i].seqNo in ClientAt(s, c).received
  {
    PushAlone(s, c, w, s');
    MaxSeqBounds(s'.log);
    NotPushedTwice(s, w);
    AllReceived(s.log, s.open[w].pending, ClientAt(s, c).received);
  }

  lemma AllReceived(log: seq<Row>, pending: seq<Row>, received: set<nat>)
    requires forall i :: 0 <= i < |log| ==> !Numbers(pending, log[i].seqNo)
    ensures (forall i :: 0 <= i < |log + pending| ==> (log + pending)[i].seqNo in received + Since(pending, 0))
            <==> forall i :: 0 <= i < |log| ==> log[i].seqNo in received
  {
    var all, has := log + pending, received + Since(pending, 0);
    forall i | 0 <= i < |log|
      ensures log[i].seqNo in has <==> log[i].seqNo in received
      ensures all[i] == log[i]
    {
      NotSince(pending, 0, log[i].seqNo);
    }
    forall i | |log| <= i < |all|
      ensures all[i].seqNo in has
    {
      assert all[i] == pending[i - |log|] && pending[i - |log|].seqNo in Since(pending, 0);
    }
  }

  /** What is skipped once is never sent: a new cursor is never before an op that has been committed. */
  lemma SkippedStays(s: State, e: Step, c: nat, q: nat)
    requires Skipped(s, c, q)
    ensures Skipped(Take(s, e), c, q)
  {
    MaxSeqCovers(s.log, q);
    match e
    case Commit(w) =>
      if w in s.open {
        NumbersAppend(s.log, s.open[w].pending, q);
      }
    case EmitInsert(w) =>
      if w in s.open && s.open[w].top.Some? {
        InsertNumbers(s, s.open[w], SERVER, SERVER_SITE, s.open[w].top.value + 1, q);
      }
    case PushInsert(w, device, site, lamport) =>
      if w in s.open {
        InsertNumbers(s, s.open[w], device, site, lamport, q);
      }
    case PushCursor(_, w) =>
      if w in s.open {
        NotSince(s.open[w].pending, 0, q);
      }
    case _ =>
  }

  lemma {:induction false} SkippedForGood(s: State, steps: seq<Step>, c: nat, q: nat)
    requires Skipped(s, c, q)
    ensures Skipped(Run(s, steps), c, q)
  {
    if steps != [] {
      SkippedForGood(s, steps[..|steps| - 1], c, q);
      SkippedStays(Run(s, steps[..|steps| - 1]), steps[|steps| - 1], c, q);
    }
  }

  const PUSHED := Row(1, 5, 1, 7)
  const EMITTED := Row(2, SERVER, SERVER_SITE, 1)

  /** A push has inserted but not committed; an emitter has come later and done both. */
  const OVERTAKEN := State(3, [EMITTED], map[1 := Tx([PUSHED], None, 0)], map[2 := true], None, map[], 1)

  lemma PushBegins()
    ensures Take(Take(START, Begin(1)), PushInsert(1, 5, 1, 7))
         == START.(nextSeq := 2, open := map[1 := Tx([PUSHED], None, 0)])
  {
    var s := Take(START, Begin(1));
    assert s.open[1] == Tx([], None, 0);
    assert forall v :: v in s.open ==> v == 1;
    assert !Contended(s, 1, 5, 1, 7);
    assert Inserted(s, s.open[1], 5, 1, 7) == Tx([PUSHED], None, 0);
    assert s.open[1 := Tx([PUSHED], None, 0)] == map[1 := Tx([PUSHED], None, 0)];
  }

  lemma EmitterReads(s: State)
    requires s == START.(nextSeq := 2, open := map[1 := Tx([PUSHED], None, 0)])
    ensures Take(Take(Take(s, Begin(2)), Lock(2)), ReadMax(2))
         == s.(open := map[1 := Tx([PUSHED], None, 0), 2 := Tx([], Some(0), 0)], lock := Some(2))
  {
    var t := Take(Take(s, Begin(2)), Lock(2));
    assert t.open == map[1 := Tx([PUSHED], None, 0), 2 := Tx([], None, 0)];
    assert t.open[2 := Tx([], Some(0), 0)] == map[1 := Tx([PUSHED], None, 0), 2 := Tx([], Some(0), 0)];
  }

  lemma EmitterOvertakes(s: State)
    requires s == START.(nextSeq := 2, open := map[1 := Tx([PUSHED], None, 0), 2 := Tx([], Some(0), 0)],
                         lock := Some(2))
    ensures Take(Take(s, EmitInsert(2)), Commit(2)) == OVERTAKEN
  {
    assert forall v :: v in s.open ==> v == 1 || v == 2;
    assert !SameOp(s.open[1].pending[0], SERVER, SERVER_SITE, 1);
    assert !Contended(s, 2, SERVER, SERVER_SITE, 1);
    var sent := Take(s, EmitInsert(2));
    assert sent.open[2] == Tx([EMITTED], None, 1);
    assert sent.open - {2} == map[1 := Tx([PUSHED], None, 0)];
  }

  /** Seven steps lead there. */
  lemma OvertakenIsReached()
    ensures var pushed := Take(Take(START, Begin(1)), PushInsert(1, 5, 1, 7));
            Take(Take(Take(Take(Take(pushed, Begin(2)), Lock(2)), ReadMax(2)), EmitInsert(2)), Commit(2)) == OVERTAKEN
  {
    PushBegins();
    var pushed := START.(nextSeq := 2, open := map[1 := Tx([PUSHED], None, 0)]);
    EmitterReads(pushed);
    EmitterOvertakes(pushed.(open := map[1 := Tx([PUSHED], None, 0), 2 := Tx([], Some(0), 0)], lock := Some(2)));
  }

  /** So unlocked pushes can be skipped: a client that pulls between the two commits never gets the first op. */
  lemma {:induction false} PushesCanBeSkipped(more: seq<Step>)
    ensures Skipped(Run(Take(Take(Take(OVERTAKEN, PullCursor(9)), PullOps(9)), Commit(1)), more), 9, 1)
  {
    assert OVERTAKEN.log[0].seqNo == 2 && OVERTAKEN.open[1].pending[0] == PUSHED;
    MaxSeqBounds(OVERTAKEN.log);
    OutOfOrderSkips(OVERTAKEN, 1, 9, 0);
    SkippedForGood(Take(Take(Take(OVERTAKEN, PullCursor(9)), PullOps(9)), Commit(1)), more, 9, 1);
  }

  // ---------------------------------------------------------------------------------------------
  // No emitted op is dropped
  // ---------------------------------------------------------------------------------------------

  function ServerRows(rows: seq<Row>): nat {
    if rows == [] then 0
    else ServerRows(rows[..|rows| - 1]) + (if rows[|rows| - 1].device == SERVER then 1 else 0)
  }

  /** Server ops have growing lamports, in the order of the log. */
  predicate Growing(rows: seq<Row>) {
    forall i, j :: 0 <= i < j < |rows| && rows[i].device == SERVER && rows[j].device == SERVER ==>
      rows[i].lamport < rows[j].lamport
  }

  predicate BelowServer(rows: seq<Row>, m: int) {
    forall i :: 0 <= i < |rows| && rows[i].device == SERVER ==> rows[i].lamport <= m
  }

  predicate NoServer(rows: seq<Row>) { forall i :: 0 <= i < |rows| ==> rows[i].device != SERVER }

  /** A transaction has a row for every emit; only the lock's holder has emitted, and what it has read is
      above every server op. */
  predicate TxKept(log: seq<Row>, tx: Tx, holds: bool) {
    && ServerRows(tx.pending) == tx.emits && Growing(log + tx.pending)
    && (!holds ==> NoServer(tx.pending) && tx.top.None?)
    && (tx.top.Some? ==> BelowServer(log, tx.top.value) && BelowServer(tx.pending, tx.top.value))
  }

  predicate EmitsKept(s: State) {
    && Growing(s.log) && ServerRows(s.log) == s.emitted
    && forall w :: w in s.open ==> TxKept(s.log, s.open[w], s.lock == Some(w))
  }

  predicate ForeignPush(e: Step) { e.PushInsert? ==> e.device != SERVER }

  lemma OneMoreServerRow(rows: seq<Row>, r: Row)
    ensures ServerRows(rows + [r]) == ServerRows(rows) + (if r.device == SERVER then 1 else 0)
  {
    assert (rows + [r])[..|rows|] == rows;
  }

  lemma {:induction false} ServerRowsAppend(a: seq<Row>, b: seq<Row>)
    ensures ServerRows(a + b) == ServerRows(a) + ServerRows(b)
  {
    if b == [] {
      assert a + b == a;
    } else {
      var n := |b| - 1;
      assert (a + b)[..|a + b| - 1] == a + b[..n];
      ServerRowsAppend(a, b[..n]);
    }
  }

  lemma {:induction false} NoServerRows(rows: seq<Row>)
    requires NoServer(rows)
    ensures ServerRows(rows) == 0
  {
    if rows != [] {
      NoServerRows(rows[..|rows| - 1]);
    }
  }

  /** Rows of other devices do not disturb the order of the server's. */
  lemma GrowingWith(rows: seq<Row>, more: seq<Row>)
    requires Growing(rows) && NoServer(more)
    ensures Growing(rows + more)
  {
  }

  lemma GrowingOn(rows: seq<Row>, r: Row)
    requires Growing(rows) && (r.device == SERVER ==> BelowServer(rows, r.lamport - 1))
    ensures Growing(rows + [r])
  {
  }

  /** The lock's holder inserts every op it emits. */
  lemma EmitInserts(s: State, w: nat)
    requires EmitsKept(s) && w in s.open && s.lock == Some(w) && s.open[w].top.Some?
    ensures Inserted(s, s.open[w], SERVER, SERVER_SITE, s.open[w].top.value + 1)
         == s.open[w].(pending := s.open[w].pending + [Row(s.nextSeq, SERVER, SERVER_SITE, s.open[w].top.value + 1)])
  {
    assert TxKept(s.log, s.open[w], true);
  }

  lemma EmittedTxKept(log: seq<Row>, tx: Tx, row: Row)
    requires TxKept(log, tx, true) && tx.top.Some? && row.device == SERVER && row.lamport == tx.top.value + 1
    ensures TxKept(log, tx.(pending := tx.pending + [row], top := None, emits := tx.emits + 1), true)
  {
    OneMoreServerRow(tx.pending, row);
    Assoc(log, tx.pending, [row]);
    GrowingOn(log + tx.pending, row);
  }

  lemma PushedTxKept(log: seq<Row>, tx: Tx, holds: bool, row: Row)
    requires TxKept(log, tx, holds) && row.device != SERVER
    ensures TxKept(log, tx.(pending := tx.pending + [row]), holds)
  {
    OneMoreServerRow(tx.pending, row);
    Assoc(log, tx.pending, [row]);
    GrowingOn(log + tx.pending, row);
  }

  /** The state with one transaction changed. */
  function WithTx(s: State, w: nat, tx: Tx): State { s.(nextSeq := s.nextSeq + 1, open := s.open[w := tx]) }

  lemma TxReplaced(s: State, w: nat, tx: Tx)
    requires EmitsKept(s) && w in s.open && TxKept(s.log, tx, s.lock == Some(w))
    ensures EmitsKept(WithTx(s, w, tx))
  {
  }

  lemma EmitIs(s: State, w: nat, tx: Tx)
    requires w in s.open && s.lock == Some(w) && s.open[w].top.Some?
    requires var next := Inserted(s, s.open[w], SERVER, SERVER_SITE, s.open[w].top.value + 1);
             tx == next.(top := None, emits := s.open[w].emits + 1)
    ensures Take(s, EmitInsert(w)) == s || Take(s, EmitInsert(w)) == WithTx(s, w, tx)
  {
  }

  lemma PushIs(s: State, w: nat, device: nat, site: nat, lamport: int)
    requires w in s.open
    ensures var t := Take(s, PushInsert(w, device, site, lamport));
            t == s || t == WithTx(s, w, Inserted(s, s.open[w], device, site, lamport))
  {
  }

  lemma EmitKeeps(s: State, w: nat, tx: Tx, row: Row)
    requires EmitsKept(s) && w in s.open && s.lock == Some(w) && tx == s.open[w] && tx.top.Some?
    requires row == Row(s.nextSeq, SERVER, SERVER_SITE, tx.top.value + 1)
    ensures EmitsKept(Take(s, EmitInsert(w)))
  {
    var tx' := tx.(pending := tx.pending + [row], top := None, emits := tx.emits + 1);
    EmitInserts(s, w);
    assert TxKept(s.log, tx, true);
    EmittedTxKept(s.log, tx, row);
    TxReplaced(s, w, tx');
    EmitIs(s, w, tx');
  }

  lemma PushKeeps(s: State, w: nat, device: nat, site: nat, lamport: int)
    requires EmitsKept(s) && w in s.open && device != SERVER
    ensures EmitsKept(Take(s, PushInsert(w, device, site, lamport)))
  {
    PushedTxKept(s.log, s.open[w], s.lock == Some(w), Row(s.nextSeq, device, site, lamport));
    TxReplaced(s, w, Inserted(s, s.open[w], device, site, lamport));
    PushIs(s, w, device, site, lamport);
  }

  /** Of two open transactions at most one has emitted, so one's commit does not disturb the other. */
  lemma OtherTxKept(log: seq<Row>, mine: Tx, other: Tx, held: bool, holds: bool)
    requires TxKept(log, mine, held) && TxKept(log, other, holds) && !(held && holds)
    ensures TxKept(log + mine.pending, other, holds)
  {
    if holds {
      Interposed(log, mine.pending, other.pending);
    } else {
      GrowingWith(log + mine.pending, other.pending);
    }
  }

  lemma CommitKeeps(s: State, w: nat)
    requires EmitsKept(s) && w in s.open
    ensures EmitsKept(Take(s, Commit(w)))
  {
    var s' := Take(s, Commit(w));
    assert TxKept(s.log, s.open[w], s.lock == Some(w));
    ServerRowsAppend(s.log, s.open[w].pending);
    forall v | v in s'.open
      ensures TxKept(s'.log, s'.open[v], s'.lock == Some(v))
    {
      OtherTxKept(s.log, s.open[w], s.open[v], s.lock == Some(w), s.lock == Some(v));
    }
  }

  lemma Interposed(a: seq<Row>, b: seq<Row>, c: seq<Row>)
    requires Growing(a + c) && NoServer(b)
    ensures Growing(a + b + c)
  {
    var all, short := a + b + c, a + c;
    assert forall k :: |a| <= k < |a| + |b| ==> all[k] == b[k - |a|];
    forall i, j | 0 <= i < j < |all| && all[i].device == SERVER && all[j].device == SERVER
      ensures all[i].lamport < all[j].lamport
    {
      var i' := if i < |a| then i else i - |b|;
      var j' := if j < |a| then j else j - |b|;
      assert short[i'] == all[i] && short[j'] == all[j];
    }
  }

  lemma StepKeepsEmits(s: State, e: Step)
    requires EmitsKept(s) && ForeignPush(e)
    ensures EmitsKept(Take(s, e))
  {
    match e
    case EmitInsert(w) =>
      if w in s.open && s.lock == Some(w) && s.open[w].top.Some? {
        EmitKeeps(s, w, s.open[w], Row(s.nextSeq, SERVER, SERVER_SITE, s.open[w].top.value + 1));
      }
    case PushInsert(w, device, site, lamport) =>
      if w in s.open {
        PushKeeps(s, w, device, site, lamport);
      }
    case Commit(w) =>
      if w in s.open {
        CommitKeeps(s, w);
      }
    case Begin(w) => assert s.log + [] == s.log;
    case ReadMax(w) =>
      if w in s.open {
        MaxOfBoth(s.log, s.open[w].pending);
        assert TxKept(s.log, s.open[w], s.lock == Some(w));
      }
    case _ =>
  }

  /** With pushes from other devices only, in every interleaving: each committed emit has put exactly one op
      into the log, and the server's lamports grow strictly from commit to commit. */
  lemma {:induction false} EveryEmitIsKept(steps: seq<Step>)
    requires forall i :: 0 <= i < |steps| ==> ForeignPush(steps[i])
    ensures EmitsKept(Run(START, steps))
    ensures ServerRows(Run(START, steps).log) == Run(START, steps).emitted && Growing(Run(START, steps).log)
  {
    if steps != [] {
      EveryEmitIsKept(steps[..|steps| - 1]);
      StepKeepsEmits(Run(START, steps[..|steps| - 1]), steps[|steps| - 1]);
    }
  }

  /** A push that passes itself off as the server can take the lamport an emitter has read: its op is dropped. */
  lemma ForgedPushDrops(s: State, w: nat, v: nat)
    requires w in s.open && s.lock == Some(w) && s.open[w].top == Some(MaxLamport(s.log)) && s.open[w].pending == []
    requires v in s.open && v != w && s.open[v].pending == [] && forall u :: u in s.open ==> s.open[u].pending == []
    ensures var push := Take(Take(s, PushInsert(v, SERVER, SERVER_SITE, MaxLamport(s.log) + 1)), Commit(v));
            var emit := Take(push, EmitInsert(w));
            emit.open[w].emits == s.open[w].emits + 1 && emit.open[w].pending == []
  {
    var lamport := MaxLamport(s.log) + 1;
    assert !Contended(s, v, SERVER, SERVER_SITE, lamport);
    MaxLamportBounds(s.log);
    assert !Taken(s.log, SERVER, SERVER_SITE, lamport);
    var push := Take(Take(s, PushInsert(v, SERVER, SERVER_SITE, lamport)), Commit(v));
    assert push.log[|s.log|] == Row(s.nextSeq, SERVER, SERVER_SITE, lamport);
    assert Taken(push.log, SERVER, SERVER_SITE, lamport);
    assert !Contended(push, w, SERVER, SERVER_SITE, lamport);
  }
}
