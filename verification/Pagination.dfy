/**
 The primary catch-up path: paging through a wallet's own ledger, every settled entry through the
 notification pipeline.
 */
module Pagination {
  import opened Common
  import opened Encodings
  import opened EventStore
  import opened Hex
  import opened Journal
  import opened Payments
  import opened Notifications
  import C = Catchup

  const PAGE_LIMIT := 50
  const MAX_PAGES := 20

  /** An entry of the wallet's ledger, as `list_transactions` returns it. */
  datatype Transaction = Transaction(
    settled: bool, incoming: bool, paymentHash: string, preimage: Json, feesPaid: Json, settledAt: int, createdAt: int)

  function ToNotification(tx: Transaction): Notification {
    Notification(if tx.incoming then "payment_received" else "payment_sent",
                 tx.paymentHash, tx.preimage, tx.feesPaid, tx.settledAt, tx.createdAt)
  }

  /** The clock readings while one entry is handled, and how its two statements end. */
  datatype Instants = Instants(resolvedAt: int, checkedAt: int, storedAt: int, journalFault: Fault, insertFault: Fault)

  function ArrivalOf(walletId: string, tx: Transaction, at: Instants): Arrival {
    Arrival(walletId, ToNotification(tx), true, at.resolvedAt, at.checkedAt, at.storedAt, at.journalFault,
            at.insertFault, false)
  }

  function Visit(env: PipelineEnv, s: Pipeline, walletId: string, tx: Transaction, at: Instants): Pipeline {
    if tx.settled then Handle(env, s, ArrivalOf(walletId, tx, at)).1 else s
  }

  /** The pipeline reports an event as new exactly when it dispatches it. */
  lemma HandleDispatches(env: PipelineEnv, s: Pipeline, a: Arrival)
    ensures |Handle(env, s, a).1.dispatched| == |s.dispatched| + if Handle(env, s, a).0 == Returned(true) then 1 else 0
  {
    hide ToHex, ResolvedJournal, VerifyPreimage, EventKey;
  }

  /** Handling the entry throws out of the scan. */
  predicate ThrowsOut(env: PipelineEnv, walletId: string, tx: Transaction, at: Instants) {
    tx.settled && Throws(env, ArrivalOf(walletId, tx, at))
  }

  /** The first entry that throws, or the number of entries. */
  function FirstThrow(env: PipelineEnv, walletId: string, txs: seq<Transaction>, clock: nat -> Instants): (t: nat)
    ensures t <= |txs| && (forall i :: 0 <= i < t ==> !ThrowsOut(env, walletId, txs[i], clock(i)))
    ensures t < |txs| ==> ThrowsOut(env, walletId, txs[t], clock(t))
  {
    if txs == [] then 0
    else
      var n := |txs| - 1;
      var t := FirstThrow(env, walletId, txs[..n], clock);
      assert forall i :: 0 <= i < n ==> txs[..n][i] == txs[i];
      if t < n || ThrowsOut(env, walletId, txs[n], clock(n)) then t else n + 1
  }

  lemma {:induction false} FirstThrowIs(env: PipelineEnv, walletId: string, txs: seq<Transaction>,
          clock: nat -> Instants, t: nat)
    requires t <= |txs| && (forall i :: 0 <= i < t ==> !ThrowsOut(env, walletId, txs[i], clock(i)))
    requires t < |txs| ==> ThrowsOut(env, walletId, txs[t], clock(t))
    ensures FirstThrow(env, walletId, txs, clock) == t
  {
    hide ThrowsOut;
    if txs != [] {
      var n := |txs| - 1;
      FirstThrowIs(env, walletId, txs[..n], clock, Min(t, n));
    }
  }

  /** The entries in order, each once. */
  function VisitAll(env: PipelineEnv, s: Pipeline, walletId: string, txs: seq<Transaction>,
          clock: nat -> Instants): Pipeline {
    if txs == [] then s
    else
      var n := |txs| - 1;
      Visit(env, VisitAll(env, s, walletId, txs[..n], clock), walletId, txs[n], clock(n))
  }

  lemma VisitNext(env: PipelineEnv, s: Pipeline, walletId: string, ledger: seq<Transaction>, i: nat,
          clock: nat -> Instants)
    requires i < |ledger|
    ensures VisitAll(env, s, walletId, ledger[..i + 1], clock)
            == Visit(env, VisitAll(env, s, walletId, ledger[..i], clock), walletId, ledger[i], clock(i))
  {
    assert ledger[..i + 1][..i] == ledger[..i];
  }

  lemma VisitNothing(env: PipelineEnv, s: Pipeline, walletId: string, clock: nat -> Instants)
    ensures VisitAll(env, s, walletId, [], clock) == s
  {
  }

  // ---- Pages ----

  datatype PageReply = Answered | NotImplemented | Broken

  /** The pages a scan of `n` entries asks for when every page is answered. */
  function Pages(n: nat, countKnown: bool): nat {
    Min(MAX_PAGES, if countKnown then Max(1, (n + PAGE_LIMIT - 1) / PAGE_LIMIT) else n / PAGE_LIMIT + 1)
  }

  /** The pages answered before the first one that is not. */
  function AnsweredPages(replies: nat -> PageReply, pages: nat): (p: nat)
    ensures p <= pages && (forall q :: 0 <= q < p ==> replies(q).Answered?)
    ensures p < pages ==> !replies(p).Answered?
  {
    if pages == 0 then 0
    else
      var p := AnsweredPages(replies, pages - 1);
      if p < pages - 1 || !replies(p).Answered? then p else pages
  }

  lemma AnsweredAtLeast(replies: nat -> PageReply, pages: nat, p: nat)
    requires p <= pages && (forall q :: 0 <= q < p ==> replies(q).Answered?)
    ensures p <= AnsweredPages(replies, pages)
  {
  }

  lemma {:induction false} AnsweredIs(replies: nat -> PageReply, pages: nat, p: nat)
    requires p <= pages && (forall q :: 0 <= q < p ==> replies(q).Answered?) && (p < pages ==> !replies(p).Answered?)
    ensures AnsweredPages(replies, pages) == p
  {
    if pages > p {
      AnsweredIs(replies, pages - 1, p);
    } else if pages > 0 {
      AnsweredIs(replies, pages - 1, pages - 1);
    }
  }

  function Visited(n: nat, pages: nat): nat {
    Min(pages * PAGE_LIMIT, n)
  }

  /** The page after which the loop stops is the last one of the scan, and it completes the ledger. */
  lemma PagesEnd(n: nat, countKnown: bool, page: nat)
    requires page < MAX_PAGES && page * PAGE_LIMIT <= n && page < Pages(n, countKnown)
    requires n - page * PAGE_LIMIT < PAGE_LIMIT || (countKnown && (page + 1) * PAGE_LIMIT >= n)
    ensures Pages(n, countKnown) == page + 1 && Visited(n, page + 1) == n
  {
  }

  /** A page that does not stop the loop is followed by another, unless the cap is reached. */
  lemma PagesGoOn(n: nat, countKnown: bool, page: nat)
    requires page < MAX_PAGES && page < Pages(n, countKnown)
    requires (page + 1) * PAGE_LIMIT <= n && !(countKnown && (page + 1) * PAGE_LIMIT >= n)
    ensures page + 1 <= Pages(n, countKnown) && (page + 1 < MAX_PAGES ==> page + 1 < Pages(n, countKnown))
  {
  }

  lemma FullPages(n: nat, countKnown: bool, page: nat)
    ensures 0 < Pages(n, countKnown) <= MAX_PAGES
    ensures page * PAGE_LIMIT <= n ==> Visited(n, page) == page * PAGE_LIMIT
  {
  }

  /** With every page answered the whole ledger is visited, exactly when it has at most a thousand entries. */
  lemma CapIsExact(n: nat, countKnown: bool)
    ensures Visited(n, Pages(n, countKnown)) == Min(n, 1000)
    ensures Visited(n, Pages(n, countKnown)) == n <==> n <= 1000
  {
  }

  // ---- Recovery is idempotent ----

  /** Once handled, a settled entry is known or out of reach. */
  predicate Settles(env: PipelineEnv, s: Pipeline, walletId: string, tx: Transaction, checkedAt: int) {
    tx.settled ==>
      var n := ToNotification(tx);
      n.paymentHash == "" || TooOld(env, n, checkedAt) || EventKey(env, walletId, n) in s.events
  }

  lemma VisitFacts(env: PipelineEnv, s: Pipeline, walletId: string, tx: Transaction, at: Instants)
    ensures var q := Visit(env, s, walletId, tx, at);
            && s.events.Keys <= q.events.Keys && q.cursors == s.cursors
            && (!ThrowsOut(env, walletId, tx, at) ==> Settles(env, q, walletId, tx, at.checkedAt))
  {
    hide ToHex, ResolvedJournal, VerifyPreimage, EventKey;
  }

  lemma KnownVisit(env: PipelineEnv, s: Pipeline, walletId: string, tx: Transaction, at: Instants, checkedAt: int)
    requires Settles(env, s, walletId, tx, checkedAt) && checkedAt <= at.checkedAt
    ensures var q := Visit(env, s, walletId, tx, at);
            q.events == s.events && q.dispatched == s.dispatched
  {
    hide ToHex, ResolvedJournal, VerifyPreimage, EventKey;
  }

  lemma SettledStays(env: PipelineEnv, s: Pipeline, q: Pipeline, walletId: string, tx: Transaction, checkedAt: int)
    requires s.events.Keys <= q.events.Keys && Settles(env, s, walletId, tx, checkedAt)
    ensures Settles(env, q, walletId, tx, checkedAt)
  {
    hide EventKey;
  }

  lemma {:induction false} VisitedSettle(env: PipelineEnv, s: Pipeline, walletId: string, txs: seq<Transaction>,
          clock: nat -> Instants)
    ensures s.events.Keys <= VisitAll(env, s, walletId, txs, clock).events.Keys
    ensures forall i :: 0 <= i < |txs| && !ThrowsOut(env, walletId, txs[i], clock(i)) ==>
              Settles(env, VisitAll(env, s, walletId, txs, clock), walletId, txs[i], clock(i).checkedAt)
  {
    hide Visit, Settles, ThrowsOut;
    if txs != [] {
      var n := |txs| - 1;
      var before := VisitAll(env, s, walletId, txs[..n], clock);
      VisitedSettle(env, s, walletId, txs[..n], clock);
      VisitFacts(env, before, walletId, txs[n], clock(n));
      forall i | 0 <= i < n && !ThrowsOut(env, walletId, txs[i], clock(i))
        ensures Settles(env, VisitAll(env, s, walletId, txs, clock), walletId, txs[i], clock(i).checkedAt)
      {
        assert txs[i] == txs[..n][i];
        SettledStays(env, before, VisitAll(env, s, walletId, txs, clock), walletId, txs[i], clock(i).checkedAt);
      }
    }
  }

  lemma {:induction false} KnownVisitsAddNothing(env: PipelineEnv, s: Pipeline, walletId: string, txs: seq<Transaction>,
                                                 checked: nat -> int, clock: nat -> Instants)
    requires forall i :: 0 <= i < |txs| ==>
             Settles(env, s, walletId, txs[i], checked(i)) && checked(i) <= clock(i).checkedAt
    ensures var q := VisitAll(env, s, walletId, txs, clock); q.events == s.events && q.dispatched == s.dispatched
  {
    hide Visit, Settles;
    if txs != [] {
      var n := |txs| - 1;
      var before := VisitAll(env, s, walletId, txs[..n], clock);
      assert forall i :: 0 <= i < n ==> txs[..n][i] == txs[i];
      KnownVisitsAddNothing(env, s, walletId, txs[..n], checked, clock);
      SettledStays(env, s, before, walletId, txs[n], checked(n));
      KnownVisit(env, before, walletId, txs[n], clock(n), checked(n));
    }
  }

  /**
   Scanning again what a scan got through without an error stores and dispatches nothing new:
   overlapping windows are free.
   */
  lemma RescanIsFree(env: PipelineEnv, s: Pipeline, walletId: string, txs: seq<Transaction>,
                     first: nat -> Instants, second: nat -> Instants)
    requires forall i :: 0 <= i < |txs| ==>
               first(i).checkedAt <= second(i).checkedAt && !ThrowsOut(env, walletId, txs[i], first(i))
    ensures var once := VisitAll(env, s, walletId, txs, first);
            var twice := VisitAll(env, once, walletId, txs, second);
            twice.events == once.events && twice.dispatched == once.dispatched
  {
    VisitedSettle(env, s, walletId, txs, first);
    KnownVisitsAddNothing(env, VisitAll(env, s, walletId, txs, first), walletId, txs,
                          (i: nat) => first(i).checkedAt, second);
  }

  lemma {:induction false} VisitsKeepCursors(env: PipelineEnv, s: Pipeline, walletId: string, txs: seq<Transaction>,
          clock: nat -> Instants)
    ensures VisitAll(env, s, walletId, txs, clock).cursors == s.cursors
  {
    hide Visit;
    if txs != [] {
      var n := |txs| - 1;
      VisitsKeepCursors(env, s, walletId, txs[..n], clock);
      VisitFacts(env, VisitAll(env, s, walletId, txs[..n], clock), walletId, txs[n], clock(n));
    }
  }

  // ---- A whole scan ----

  /**
   What a run meets: the ledger within its window, the replies to its pages, the handling of each
   entry, the final cursor update.
   */
  datatype Conditions = Conditions(
    ledger: seq<Transaction>, countKnown: bool, replies: nat -> PageReply, clock: nat -> Instants, cursorFault: Fault)

  function ScanPages(c: Conditions): nat {
    AnsweredPages(c.replies, Pages(|c.ledger|, c.countKnown))
  }

  predicate Interrupted(c: Conditions) {
    ScanPages(c) < Pages(|c.ledger|, c.countKnown)
  }

  function Reached(c: Conditions): (n: nat)
    ensures n <= |c.ledger|
  {
    Visited(|c.ledger|, ScanPages(c))
  }

  datatype ScanEnd = ScanFinished | ScanUnsupported | ScanThrew

  /** How a scan ends and how many entries it has visited: up to the first that throws, or all on the pages answered. */
  function Outcome(env: PipelineEnv, walletId: string, c: Conditions): (r: (ScanEnd, nat))
    ensures r.1 <= |c.ledger|
  {
    var n := Reached(c);
    var t := FirstThrow(env, walletId, c.ledger[..n], c.clock);
    if t < n then (ScanThrew, t + 1)
    else if !Interrupted(c) then (ScanFinished, n)
    else (if c.replies(ScanPages(c)).Broken? then ScanThrew else ScanUnsupported, n)
  }

  /** A throw within an answered page ends the scan there. */
  lemma ThrowEndsScan(env: PipelineEnv, walletId: string, c: Conditions, page: nat, t: nat)
    requires page < Pages(|c.ledger|, c.countKnown) && (forall q :: 0 <= q <= page ==> c.replies(q).Answered?)
    requires t < |c.ledger| && t < (page + 1) * PAGE_LIMIT
    requires forall i :: 0 <= i < t ==> !ThrowsOut(env, walletId, c.ledger[i], c.clock(i))
    requires ThrowsOut(env, walletId, c.ledger[t], c.clock(t))
    ensures Outcome(env, walletId, c) == (ScanThrew, t + 1)
  {
    hide ThrowsOut, Pages, AnsweredPages;
    AnsweredAtLeast(c.replies, Pages(|c.ledger|, c.countKnown), page + 1);
    FirstThrowIs(env, walletId, c.ledger[..Reached(c)], c.clock, t);
  }

  /** Without a throw the scan ends by its pages. */
  lemma PagesEndScan(env: PipelineEnv, walletId: string, c: Conditions, pages: nat)
    requires pages <= Pages(|c.ledger|, c.countKnown) && (forall q :: 0 <= q < pages ==> c.replies(q).Answered?)
    requires pages < Pages(|c.ledger|, c.countKnown) ==> !c.replies(pages).Answered?
    requires forall i :: 0 <= i < Visited(|c.ledger|, pages) ==> !ThrowsOut(env, walletId, c.ledger[i], c.clock(i))
    ensures Outcome(env, walletId, c)
            == (if pages == Pages(|c.ledger|, c.countKnown) then ScanFinished
                else if c.replies(pages).Broken? then ScanThrew else ScanUnsupported,
                Visited(|c.ledger|, pages))
  {
    hide ThrowsOut, Pages, AnsweredPages;
    AnsweredIs(c.replies, Pages(|c.ledger|, c.countKnown), pages);
    FirstThrowIs(env, walletId, c.ledger[..Reached(c)], c.clock, Reached(c));
  }

  /** A scan that meets no error visits the whole ledger exactly when it has at most a thousand entries. */
  lemma QuietScanIsComplete(env: PipelineEnv, walletId: string, c: Conditions)
    requires forall q :: 0 <= q < MAX_PAGES ==> c.replies(q).Answered?
    requires forall i :: 0 <= i < |c.ledger| ==> !ThrowsOut(env, walletId, c.ledger[i], c.clock(i))
    ensures Outcome(env, walletId, c) == (ScanFinished, Min(|c.ledger|, 1000))
  {
    hide ThrowsOut, Pages, AnsweredPages, Visited;
    FullPages(|c.ledger|, c.countKnown, 0);
    CapIsExact(|c.ledger|, c.countKnown);
    PagesEndScan(env, walletId, c, Pages(|c.ledger|, c.countKnown));
  }

  // ---- What a scan recovers ----

  /** An entry reaches the pipeline as the notification the wallet would have sent for it. */
  lemma EntryAsNotification(tx: Transaction)
    ensures var n := ToNotification(tx);
            && n.kind == (if tx.incoming then "payment_received" else "payment_sent")
            && n.paymentHash == tx.paymentHash && n.preimage == tx.preimage && n.feesPaid == tx.feesPaid
            && Timestamp(n) == (if tx.settledAt != 0 then tx.settledAt else tx.createdAt)
            && Lacks(n.kind, '|')
  {
  }

  /** A settled outgoing entry with the preimage of an open request of the wallet. */
  predicate ProvesRequest(env: PipelineEnv, walletId: string, tx: Transaction, row: Row) {
    && tx.settled && !tx.incoming && tx.preimage.JText?
    && VerifyPreimage(env.payments, tx.preimage.text, tx.paymentHash)
    && row.request.walletId == walletId && row.request.paymentHash == ToLower(tx.paymentHash)
  }

  lemma VisitSettles(env: PipelineEnv, s: Pipeline, walletId: string, tx: Transaction, at: Instants, id: string)
    requires id in s.journal
    ensures var q := Visit(env, s, walletId, tx, at);
            && id in q.journal && q.journal[id].request == s.journal[id].request
            && (Terminal(s.journal[id].state) ==> q.journal[id] == s.journal[id])
            && (q.journal[id] != s.journal[id] ==> q.journal[id].state.Succeeded?)
            && (Unresolved(s.journal[id].state) && ProvesRequest(env, walletId, tx, s.journal[id])
                && !at.journalFault.LostBefore?
                ==> q.journal[id].state.Succeeded?)
  {
    hide ToHex, EventKey, VerifyPreimage;
    if tx.settled {
      if tx.paymentHash == "" {
        NoHashNoEvent(env, s, ArrivalOf(walletId, tx, at));
        assert !VerifyPreimage(env.payments, if tx.preimage.JText? then tx.preimage.text else "", "") by {
          EmptyHashProvesNothing(env.payments, if tx.preimage.JText? then tx.preimage.text else "");
        }
      } else if !at.journalFault.LostBefore? {
        ProofSettlesRequests(env, s, ArrivalOf(walletId, tx, at), id);
      } else {
        assert Handle(env, s, ArrivalOf(walletId, tx, at)).1.journal == s.journal;
      }
    }
  }

  lemma EmptyHashProvesNothing(env: Env, preimage: string)
    ensures !VerifyPreimage(env, preimage, "")
  {
  }

  /**
   Recovery settles payments: after a scan every open request of the wallet whose
   preimage stands in a settled outgoing entry is a success, unless the update
   itself was lost; requests without such an entry and final ones are untouched.
   */
  lemma {:induction false} ScanSettlesRequests(env: PipelineEnv, s: Pipeline, walletId: string, txs: seq<Transaction>,
          clock: nat -> Instants, id: string)
    requires id in s.journal
    ensures var q := VisitAll(env, s, walletId, txs, clock);
            && id in q.journal && q.journal[id].request == s.journal[id].request
            && (Terminal(s.journal[id].state) ==> q.journal[id] == s.journal[id])
            && (q.journal[id] != s.journal[id] ==> q.journal[id].state.Succeeded?)
            && (Unresolved(s.journal[id].state)
                && (exists i :: 0 <= i < |txs| && ProvesRequest(env, walletId, txs[i], s.journal[id])
                                && !clock(i).journalFault.LostBefore?)
                ==> q.journal[id].state.Succeeded?)
  {
    hide Visit, VerifyPreimage;
    if txs != [] {
      var n := |txs| - 1;
      var before := VisitAll(env, s, walletId, txs[..n], clock);
      ScanSettlesRequests(env, s, walletId, txs[..n], clock, id);
      VisitSettles(env, before, walletId, txs[n], clock(n), id);
      if Unresolved(s.journal[id].state)
         && exists i :: 0 <= i < |txs| && ProvesRequest(env, walletId, txs[i], s.journal[id])
                        && !clock(i).journalFault.LostBefore?
      {
        var i :| 0 <= i < |txs| && ProvesRequest(env, walletId, txs[i], s.journal[id])
                 && !clock(i).journalFault.LostBefore?;
        if i < n { assert txs[..n][i] == txs[i]; }
      }
    }
  }

  // ---- In place ----

  /** A wallet's cursor, as the catch-up protocol sees it between runs. */
  function CursorOf(cursors: Cursors, walletId: string): C.Tracking {
    C.Tracking(if walletId in cursors then Some(cursors[walletId]) else None, C.Idle, [], {})
  }

  class CatchupRunner {
    const env: PipelineEnv
    const windows: C.CatchupEnv
    var pipeline: Pipeline
    var inFlight: set<string>
    var unsupported: set<string>
    var lastCatchupAt: map<string, int>

    constructor (env: PipelineEnv, windows: C.CatchupEnv, pipeline: Pipeline)
      ensures this.env == env && this.windows == windows && this.pipeline == pipeline
      ensures inFlight == {} && unsupported == {} && lastCatchupAt == map[]
    {
      this.env, this.windows, this.pipeline := env, windows, pipeline;
      inFlight, unsupported, lastCatchupAt := {}, {}, map[];
    }

    /** Visits a prefix of the ledger in order; the result is the number of new events, or None when the scan throws. */
    method WalletCatchup(walletId: string, c: Conditions) returns (recovered: Option<nat>)
      modifies this`pipeline, this`unsupported
      ensures walletId in old(unsupported) ==>
              recovered == Some(0) && pipeline == old(pipeline) && unsupported == old(unsupported)
      ensures walletId !in old(unsupported) ==>
                var (end, visited) := Outcome(env, walletId, c);
                && pipeline == VisitAll(env, old(pipeline), walletId, c.ledger[..visited], c.clock)
                && recovered == (if end.ScanThrew? then None
                                 else Some(|pipeline.dispatched| - |old(pipeline).dispatched|))
                && unsupported == (if end.ScanUnsupported? then old(unsupported) + {walletId} else old(unsupported))
    {
      hide Pages, Visited, VisitAll, AnsweredPages, Handle, Outcome, ThrowsOut;
      if walletId in unsupported {
        return Some(0);
      }
      ghost var start := pipeline;
      var count: nat, offset := 0, 0;
      assert c.ledger[..0] == [];
      VisitNothing(env, start, walletId, c.clock);
      FullPages(|c.ledger|, c.countKnown, 0);
      for page := 0 to MAX_PAGES
        invariant offset == page * PAGE_LIMIT <= |c.ledger| && page <= Pages(|c.ledger|, c.countKnown)
        invariant forall q :: 0 <= q < page ==> c.replies(q).Answered?
        invariant page < MAX_PAGES ==> page < Pages(|c.ledger|, c.countKnown)
        invariant pipeline == VisitAll(env, start, walletId, c.ledger[..offset], c.clock)
        invariant forall i :: 0 <= i < offset ==> !ThrowsOut(env, walletId, c.ledger[i], c.clock(i))
        invariant |pipeline.dispatched| == |start.dispatched| + count
        invariant start == old(pipeline) && unsupported == old(unsupported)
      {
        var reply := c.replies(page);
        FullPages(|c.ledger|, c.countKnown, page);
        if !reply.Answered? {
          PagesEndScan(env, walletId, c, page);
          if reply.Broken? {
            return None;
          }
          unsupported := unsupported + {walletId};
          return Some(count);
        }
        var size := Min(PAGE_LIMIT, |c.ledger| - offset);
        ghost var stop;
        var found;
        found, stop := VisitPage(walletId, c, offset, size, start);
        if found.None? {
          ThrowEndsScan(env, walletId, c, page, stop);
          return None;
        }
        count := count + found.value;
        offset := offset + size;
        if size < PAGE_LIMIT || (c.countKnown && offset >= |c.ledger|) {
          PagesEnd(|c.ledger|, c.countKnown, page);
          PagesEndScan(env, walletId, c, page + 1);
          return Some(count);
        }
        PagesGoOn(|c.ledger|, c.countKnown, page);
      }
      FullPages(|c.ledger|, c.countKnown, MAX_PAGES);
      PagesEndScan(env, walletId, c, MAX_PAGES);
      return Some(count);
    }

    /** The entries of one page, through the pipeline, up to the first that throws. */
    method VisitPage(walletId: string, c: Conditions, offset: nat, size: nat, ghost start: Pipeline)
      returns (count: Option<nat>, ghost stop: nat)
      requires offset + size <= |c.ledger|
      requires pipeline == VisitAll(env, start, walletId, c.ledger[..offset], c.clock)
      modifies this`pipeline
      ensures offset <= stop <= offset + size
      ensures forall i :: offset <= i < stop ==> !ThrowsOut(env, walletId, c.ledger[i], c.clock(i))
      ensures count.None? ==>
                && stop < offset + size && ThrowsOut(env, walletId, c.ledger[stop], c.clock(stop))
                && pipeline == VisitAll(env, start, walletId, c.ledger[..stop + 1], c.clock)
      ensures count.Some? ==>
                && stop == offset + size
                && pipeline == VisitAll(env, start, walletId, c.ledger[..offset + size], c.clock)
                && |pipeline.dispatched| == |old(pipeline).dispatched| + count.value
    {
      hide Handle, VisitAll, Throws;
      var found: nat := 0;
      stop := offset;
      for i := 0 to size
        invariant stop == offset + i
        invariant pipeline == VisitAll(env, start, walletId, c.ledger[..offset + i], c.clock)
        invariant forall k :: offset <= k < offset + i ==> !ThrowsOut(env, walletId, c.ledger[k], c.clock(k))
        invariant |pipeline.dispatched| == |old(pipeline).dispatched| + found
      {
        VisitNext(env, start, walletId, c.ledger, offset + i, c.clock);
        var tx := c.ledger[offset + i];
        if tx.settled {
          ghost var arrival := ArrivalOf(walletId, tx, c.clock(offset + i));
          HandleDispatches(env, pipeline, arrival);
          RejectsOnFaults(env, pipeline, arrival);
          var (h, handled) := Handle(env, pipeline, ArrivalOf(walletId, tx, c.clock(offset + i)));
          pipeline := handled;
          if h.Threw? {
            return None, stop;
          }
          if h.isNew {
            found := found + 1;
          }
        }
        stop := stop + 1;
      }
      count := Some(found);
    }

    /** One run alone: its cursor is what the catch-up protocol says, and the run never stays in flight. */
    method RunForWallet(walletId: string, now: int, c: Conditions)
      modifies this
      ensures inFlight == old(inFlight)
      ensures walletId in old(inFlight) ==> pipeline == old(pipeline) && lastCatchupAt == old(lastCatchupAt)
      ensures walletId !in old(inFlight) ==>
                var threw := walletId !in old(unsupported) && Outcome(env, walletId, c).0.ScanThrew?;
                var end := C.Run(windows, CursorOf(old(pipeline.cursors), walletId),
                                 [C.ReadCursor, C.PlanRun(now), C.SeedEnds(c.cursorFault),
                                  if threw then C.ScanThrows else C.AdvanceEnds(c.cursorFault)]);
                && CursorOf(pipeline.cursors, walletId).cursor == end.cursor
                && lastCatchupAt == if end.scans != [] && c.cursorFault.NoFault?
                                    then old(lastCatchupAt)[walletId := now] else old(lastCatchupAt)
      ensures walletId !in old(inFlight) && walletId !in old(pipeline.cursors) ==>
                && unsupported == old(unsupported)
                && pipeline == old(pipeline).(cursors := if c.cursorFault.LostBefore? then old(pipeline.cursors)
                                                         else old(pipeline.cursors)[walletId := now])
      ensures walletId !in old(inFlight) && walletId in old(pipeline.cursors) ==>
                var cursor := old(pipeline.cursors[walletId]);
                var scans := Max(cursor - windows.overlapMs, now - windows.maxWindowMs) < now;
                var asks := scans && walletId !in old(unsupported);
                var (end, visited) := Outcome(env, walletId, c);
                var scanned := if asks then VisitAll(env, old(pipeline), walletId, c.ledger[..visited], c.clock)
                               else old(pipeline);
                var advances := scans && !(asks && end.ScanThrew?) && !c.cursorFault.LostBefore?;
                && unsupported == (if asks && end.ScanUnsupported? then old(unsupported) + {walletId}
                                   else old(unsupported))
                && pipeline
                   == scanned.(cursors := if advances
                                          then old(pipeline.cursors)[walletId := Max(cursor, C.CeilSec(now) * 1000)]
                                          else old(pipeline.cursors))
    {
      hide Outcome, VisitAll;
      if walletId in inFlight {
        return;
      }
      inFlight := inFlight + {walletId};
      ghost var before := CursorOf(pipeline.cursors, walletId);
      FourSteps(windows, before, C.ReadCursor, C.PlanRun(now), C.SeedEnds(c.cursorFault),
                if walletId !in unsupported && Outcome(env, walletId, c).0.ScanThrew?
                then C.ScanThrows else C.AdvanceEnds(c.cursorFault));
      if walletId !in pipeline.cursors {
        if TookEffect(c.cursorFault) {
          pipeline := pipeline.(cursors := SeedCursor(pipeline.cursors, walletId, now));
        }
      } else {
        var window := C.PlanWindow(windows, pipeline.cursors[walletId], now);
        if window.Some? {
          VisitsKeepCursors(env, pipeline, walletId, c.ledger[..Outcome(env, walletId, c).1], c.clock);
          var recovered := WalletCatchup(walletId, c);
          if recovered.Some? {
            if TookEffect(c.cursorFault) {
              pipeline := pipeline.(cursors := AdvanceCursor(pipeline.cursors, walletId, window.value.untilSec * 1000));
            }
            if c.cursorFault.NoFault? {
              lastCatchupAt := lastCatchupAt[walletId := now];
            }
          }
        }
      }
      inFlight := inFlight - {walletId};
    }
  }

  lemma FourSteps(env: C.CatchupEnv, s: C.Tracking, a1: C.Action, a2: C.Action, a3: C.Action, a4: C.Action)
    ensures C.Run(env, s, [a1, a2, a3, a4]) == C.Step(env, C.Step(env, C.Step(env, C.Step(env, s, a1), a2), a3), a4)
  {
    var s1 := C.Step(env, s, a1);
    var s2 := C.Step(env, s1, a2);
    var s3 := C.Step(env, s2, a3);
    assert [a1, a2, a3, a4][1..] == [a2, a3, a4] && [a2, a3, a4][1..] == [a3, a4] && [a3, a4][1..] == [a4];
    assert C.Run(env, s3, [a4]) == C.Run(env, C.Step(env, s3, a4), []);
    assert C.Run(env, s2, [a3, a4]) == C.Run(env, s3, [a4]);
    assert C.Run(env, s1, [a2, a3, a4]) == C.Run(env, s2, [a3, a4]);
  }
}
