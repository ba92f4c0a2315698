/** Quota-limited device registration: the statements of concurrent sign transactions, appends, and the
    day counters outside the transactions. */
module QuotaSigning {
  import opened Basics
  import opened SerialNumber

  datatype Quota = Quota(productKey: string, quota: nat, registered: nat, status: int)

  /** What a serial number was built from. */
  datatype Stamp = Stamp(productKey: string, day: string, line: string, n: nat)

  datatype Row = Row(sn: string, order: string, stamp: Stamp)

  /** seqs is the Redis counter of each day. */
  datatype Db = Db(quotas: map<string, Quota>, digests: map<string, Row>, seqs: map<string, nat>)

  datatype Reply = Signed(sn: string) | Existing(sn: string) | BadInput | NoQuota | Failed | SnConflict

  const EMPTY := Db(map[], map[], map[])

  predicate Eligible(db: Db, order: string) {
    order in db.quotas && db.quotas[order].status == 1 && db.quotas[order].registered < db.quotas[order].quota
  }

  predicate GoodInput(order: string, digest: string) {
    order != "" && |digest| == 64
  }

  function NextSeq(db: Db, day: string): nat {
    (if day in db.seqs then db.seqs[day] else 0) + 1
  }

  function Bump(db: Db, day: string): Db {
    db.(seqs := db.seqs[day := NextSeq(db, day)])
  }

  function TakeOne(q: Quota): Quota {
    q.(registered := q.registered + 1, status := if q.registered + 1 >= q.quota then 2 else q.status)
  }

  function SnOf(st: Stamp): string {
    BuildSN(st.productKey, st.day, st.line, st.n)
  }

  predicate SnTaken(db: Db, sn: string) {
    exists d :: d in db.digests && db.digests[d].sn == sn
  }

  function CreateStep(db: Db, order: string, supplier: string, productKey: string, quota: int): Db {
    if order == "" || supplier == "" || productKey == "" || quota < 0 || order in db.quotas then db
    else db.(quotas := db.quotas[order := Quota(productKey, quota, 0, 1)])
  }

  /** More quota reopens the order. */
  function Grown(q: Quota, delta: nat): Quota {
    q.(quota := q.quota + delta, status := 1)
  }

  function AppendStep(db: Db, order: string, delta: int): Db {
    if delta <= 0 || order !in db.quotas then db
    else db.(quotas := db.quotas[order := Grown(db.quotas[order], delta)])
  }

  /** The inserts and the commit of a sign: refused by a digest or serial number that is there, or failing. */
  function CommitStep(db: Db, order: string, digest: string, st: Stamp, fails: bool): (Db, Reply)
    requires order in db.quotas
  {
    if digest in db.digests then (db, Existing(db.digests[digest].sn))
    else if SnTaken(db, SnOf(st)) then (db, SnConflict)
    else if fails then (db, Failed)
    else (db.(quotas := db.quotas[order := TakeOne(db.quotas[order])],
              digests := db.digests[digest := Row(SnOf(st), order, st)]), Signed(SnOf(st)))
  }

  /** SignDigest with nobody else at work, except that raced stands for a digest that appeared after
      the first look. */
  function SignStep(db: Db, order: string, digest: string, line: string, day: string, raced: bool, fails: bool): (Db, Reply) {
    if !GoodInput(order, digest) then (db, BadInput)
    else if digest in db.digests && !raced then (db, Existing(db.digests[digest].sn))
    else if !Eligible(db, order) then (db, NoQuota)
    else CommitStep(Bump(db, day), order, digest, Stamp(db.quotas[order].productKey, day, line, NextSeq(db, day)), fails)
  }

  class Store {
    var quotas: map<string, Quota>
    var digests: map<string, Row>
    var seqs: map<string, nat>

    function State(): Db
      reads this
    {
      Db(quotas, digests, seqs)
    }

    constructor ()
      ensures State() == EMPTY
    {
      quotas, digests, seqs := map[], map[], map[];
    }

    method Append(order: string, delta: int) returns (ok: bool)
      modifies this
      ensures State() == AppendStep(old(State()), order, delta)
      ensures ok <==> delta > 0 && order in old(quotas)
    {
      if delta <= 0 || order !in quotas {
        return false;
      }
      quotas := quotas[order := quotas[order].(quota := quotas[order].quota + delta, status := 1)];
      return true;
    }

    method IncrSeq(day: string) returns (n: nat)
      modifies `seqs
      ensures State() == Bump(old(State()), day)
      ensures n == NextSeq(old(State()), day)
    {
      n := (if day in seqs then seqs[day] else 0) + 1;
      seqs := seqs[day := n];
    }

    method SignDigest(order: string, digest: string, line: string, day: string, raced: bool, fails: bool) returns (r: Reply)
      modifies this
      ensures (State(), r) == SignStep(old(State()), order, digest, line, day, raced, fails)
    {
      if order == "" || |digest| != 64 {
        return BadInput;
      }
      if digest in digests && !raced {
        return Existing(digests[digest].sn);
      }
      if order !in quotas || quotas[order].status != 1 || quotas[order].registered >= quotas[order].quota {
        return NoQuota;
      }
      var productKey := quotas[order].productKey;
      var taken := TakeOne(quotas[order]);
      var n := IncrSeq(day);
      var sn := BuildSN(productKey, day, line, n);
      if digest in digests {
        return Existing(digests[digest].sn);
      }
      if exists d :: d in digests && digests[d].sn == sn {
        return SnConflict;
      }
      if fails {
        return Failed;
      }
      quotas := quotas[order := taken];
      digests := digests[digest := Row(sn, order, Stamp(productKey, day, line, n))];
      return Signed(sn);
    }
  }

  // ---- concurrent transactions, statement by statement

  /** An open sign transaction: it has taken one of its order's quota, which nobody else sees, and holds
      the lock of that row; number is what the day counter gave it. */
  datatype Tx = Tx(order: string, digest: string, productKey: string, line: string, day: string, number: Option<nat>)

  datatype World = World(db: Db, txs: map<int, Tx>)

  const START := World(EMPTY, map[])

  datatype Action =
    | Create(order: string, supplier: string, productKey: string, quota: int)
    | AppendQuota(order: string, delta: int)
    | TakeQuota(t: int, order: string, digest: string, line: string, day: string)
    | TakeNumber(t: int)
    | Commit(t: int, fails: bool)
    | Abort(t: int)

  predicate Locked(w: World, order: string) {
    exists t :: t in w.txs && w.txs[t].order == order
  }

  function StampOf(tx: Tx): Stamp
    requires tx.number.Some?
  {
    Stamp(tx.productKey, tx.day, tx.line, tx.number.value)
  }

  /** Statements on a locked row wait. */
  function AppendWhenFree(w: World, order: string, delta: int): World {
    if Locked(w, order) then w else w.(db := AppendStep(w.db, order, delta))
  }

  function TakeQuotaStep(w: World, t: int, order: string, digest: string, line: string, day: string): World {
    if t in w.txs || !GoodInput(order, digest) || Locked(w, order) || !Eligible(w.db, order) then w
    else w.(txs := w.txs[t := Tx(order, digest, w.db.quotas[order].productKey, line, day, None)])
  }

  function TakeNumberStep(w: World, t: int): World {
    if t !in w.txs || w.txs[t].number.Some? then w
    else World(Bump(w.db, w.txs[t].day), w.txs[t := w.txs[t].(number := Some(NextSeq(w.db, w.txs[t].day)))])
  }

  function CommitTx(w: World, t: int, fails: bool): World {
    if t !in w.txs || w.txs[t].number.None? || w.txs[t].order !in w.db.quotas then w
    else World(CommitStep(w.db, w.txs[t].order, w.txs[t].digest, StampOf(w.txs[t]), fails).0, w.txs - {t})
  }

  /** Transactions end in any order, whatever order their numbers have. */
  function Step(w: World, a: Action): World {
    match a
    case Create(order, supplier, productKey, quota) => w.(db := CreateStep(w.db, order, supplier, productKey, quota))
    case AppendQuota(order, delta) => AppendWhenFree(w, order, delta)
    case TakeQuota(t, order, digest, line, day) => TakeQuotaStep(w, t, order, digest, line, day)
    case TakeNumber(t) => TakeNumberStep(w, t)
    case Commit(t, fails) => CommitTx(w, t, fails)
    case Abort(t) => w.(txs := w.txs - {t})
  }

  function RunFrom(w: World, actions: seq<Action>): World {
    if actions == [] then w else Step(RunFrom(w, actions[..|actions| - 1]), actions[|actions| - 1])
  }

  function Run(actions: seq<Action>): World {
    RunFrom(START, actions)
  }

  /** A sign with nobody else at work is these three statements. */
  lemma SignIsSteps(w: World, t: int, order: string, digest: string, line: string, day: string, fails: bool)
    requires t !in w.txs && !Locked(w, order) && GoodInput(order, digest) && Eligible(w.db, order)
    ensures CommitTx(TakeNumberStep(TakeQuotaStep(w, t, order, digest, line, day), t), t, fails)
         == w.(db := SignStep(w.db, order, digest, line, day, true, fails).0)
  {
    var w1 := TakeQuotaStep(w, t, order, digest, line, day);
    var w2 := TakeNumberStep(w1, t);
    NumberTaken(w1, t);
    assert w2.txs[t] == Tx(order, digest, w.db.quotas[order].productKey, line, day, Some(NextSeq(w.db, day)));
    assert w2.txs - {t} == w.txs;
    assert w2.db == Bump(w.db, day);
    CommittedAlone(w2, t, fails);
  }

  lemma NumberTaken(w: World, t: int)
    requires t in w.txs && w.txs[t].number.None?
    ensures var post := TakeNumberStep(w, t);
            && post.db == Bump(w.db, w.txs[t].day)
            && post.txs == w.txs[t := w.txs[t].(number := Some(NextSeq(w.db, w.txs[t].day)))]
  {
  }

  lemma CommittedAlone(w: World, t: int, fails: bool)
    requires t in w.txs && w.txs[t].number.Some? && w.txs[t].order in w.db.quotas
    ensures CommitTx(w, t, fails)
         == World(CommitStep(w.db, w.txs[t].order, w.txs[t].digest, StampOf(w.txs[t]), fails).0, w.txs - {t})
  {
  }

  // ---- invariants

  function DigestsOf(db: Db, order: string): set<string> {
    set d | d in db.digests && db.digests[d].order == order
  }

  ghost predicate QuotaOk(db: Db, order: string)
    requires order in db.quotas
  {
    var q := db.quotas[order];
    && q.registered <= q.quota
    && q.registered == |DigestsOf(db, order)|
    && (q.status == 1 || q.status == 2)
    && (q.status == 2 ==> q.registered == q.quota)
  }

  ghost predicate QuotasOk(db: Db) {
    forall o :: o in db.quotas ==> QuotaOk(db, o)
  }

  predicate StampOk(db: Db, st: Stamp) {
    st.day in db.seqs && 1 <= st.n <= db.seqs[st.day]
  }

  predicate RowOk(db: Db, row: Row) {
    row.order in db.quotas && row.sn == SnOf(row.stamp) && StampOk(db, row.stamp)
  }

  predicate TxOk(db: Db, tx: Tx) {
    Eligible(db, tx.order) && (tx.number.Some? ==> StampOk(db, StampOf(tx)))
  }

  predicate Apart(a: Stamp, b: Stamp) {
    a.day != b.day || a.n != b.n
  }

  ghost predicate RowsOk(db: Db) {
    && (forall d :: d in db.digests ==> RowOk(db, db.digests[d]))
    && (forall c, d :: c in db.digests && d in db.digests && c != d ==> Apart(db.digests[c].stamp, db.digests[d].stamp))
  }

  predicate TxPairOk(a: Tx, b: Tx) {
    a.order != b.order && (a.number.Some? && b.number.Some? ==> Apart(StampOf(a), StampOf(b)))
  }

  predicate TxRowOk(a: Tx, row: Row) {
    a.number.Some? ==> Apart(StampOf(a), row.stamp)
  }

  ghost predicate TxsOk(w: World) {
    && (forall t :: t in w.txs ==> TxOk(w.db, w.txs[t]))
    && (forall t, u :: t in w.txs && u in w.txs && t != u ==> TxPairOk(w.txs[t], w.txs[u]))
    && (forall t, d :: t in w.txs && d in w.db.digests ==> TxRowOk(w.txs[t], w.db.digests[d]))
  }

  ghost predicate Inv(w: World) {
    QuotasOk(w.db) && RowsOk(w.db) && TxsOk(w)
  }

  lemma SameDigests(db: Db, post: Db, o: string)
    requires post.digests == db.digests
    ensures DigestsOf(post, o) == DigestsOf(db, o)
  {
  }

  predicate SeqsGrow(db: Db, post: Db) {
    forall day :: day in db.seqs ==> day in post.seqs && db.seqs[day] <= post.seqs[day]
  }

  lemma RowCarries(db: Db, post: Db, row: Row)
    requires RowOk(db, row) && row.order in post.quotas && SeqsGrow(db, post)
    ensures RowOk(post, row)
  {
  }

  lemma RowsCarry(db: Db, post: Db)
    requires RowsOk(db) && post.digests == db.digests && db.quotas.Keys <= post.quotas.Keys && SeqsGrow(db, post)
    ensures RowsOk(post)
  {
    forall d | d in post.digests ensures RowOk(post, post.digests[d]) {
      assert RowOk(db, db.digests[d]);
      assert db.digests[d].order in db.quotas.Keys;
      RowCarries(db, post, db.digests[d]);
    }
  }

  lemma NoDigestsYet(db: Db, order: string)
    requires RowsOk(db) && order !in db.quotas
    ensures DigestsOf(db, order) == {}
  {
    forall d | d in db.digests ensures db.digests[d].order != order {
      assert RowOk(db, db.digests[d]);
    }
  }

  lemma QuotaChangeCounts(db: Db, order: string, q: Quota, o: string)
    requires RowsOk(db) && QuotasOk(db) && (o in db.quotas || o == order)
    requires if order in db.quotas then q.registered == db.quotas[order].registered else q.registered == 0
    requires q.registered <= q.quota && q.status == 1
    ensures QuotaOk(db.(quotas := db.quotas[order := q]), o)
  {
    SameDigests(db, db.(quotas := db.quotas[order := q]), o);
    if o in db.quotas {
      assert QuotaOk(db, o);
    } else {
      NoDigestsYet(db, o);
    }
  }

  lemma QuotaChangeTxs(w: World, order: string, q: Quota)
    requires TxsOk(w) && !Locked(w, order)
    ensures TxsOk(w.(db := w.db.(quotas := w.db.quotas[order := q])))
  {
    var post := w.(db := w.db.(quotas := w.db.quotas[order := q]));
    forall t | t in post.txs ensures TxOk(post.db, post.txs[t]) {
      assert TxOk(w.db, w.txs[t]) && w.txs[t].order != order;
    }
  }

  /** A change of one unlocked order that keeps its count, or adds a new order. */
  lemma QuotaChangeKeeps(w: World, order: string, q: Quota)
    requires Inv(w) && !Locked(w, order)
    requires if order in w.db.quotas then q.registered == w.db.quotas[order].registered else q.registered == 0
    requires q.registered <= q.quota && q.status == 1
    ensures Inv(w.(db := w.db.(quotas := w.db.quotas[order := q])))
  {
    var post := w.db.(quotas := w.db.quotas[order := q]);
    forall o | o in post.quotas ensures QuotaOk(post, o) {
      QuotaChangeCounts(w.db, order, q, o);
    }
    RowsCarry(w.db, post);
    QuotaChangeTxs(w, order, q);
  }

  lemma NewTx(w: World, t: int, tx: Tx)
    requires TxsOk(w) && t !in w.txs && Eligible(w.db, tx.order) && tx.number.None? && !Locked(w, tx.order)
    ensures TxsOk(w.(txs := w.txs[t := tx]))
  {
    var post := w.(txs := w.txs[t := tx]);
    forall u | u in post.txs ensures TxOk(post.db, post.txs[u]) {
      assert u in w.txs ==> TxOk(w.db, w.txs[u]);
    }
    forall u, x | u in post.txs && x in post.txs && u != x ensures TxPairOk(post.txs[u], post.txs[x]) {
      assert u in w.txs && x in w.txs ==> TxPairOk(w.txs[u], w.txs[x]);
    }
    forall u, d | u in post.txs && d in post.db.digests ensures TxRowOk(post.txs[u], post.db.digests[d]) {
      assert u in w.txs ==> TxRowOk(w.txs[u], w.db.digests[d]);
    }
  }

  lemma TakeQuotaKeeps(w: World, t: int, order: string, digest: string, line: string, day: string)
    requires Inv(w)
    ensures Inv(TakeQuotaStep(w, t, order, digest, line, day))
  {
    if t !in w.txs && !Locked(w, order) && Eligible(w.db, order) {
      NewTx(w, t, Tx(order, digest, w.db.quotas[order].productKey, line, day, None));
    }
  }

  lemma NewerThanAll(w: World, day: string)
    requires Inv(w)
    ensures forall d :: d in w.db.digests ==> w.db.digests[d].stamp.day != day || w.db.digests[d].stamp.n < NextSeq(w.db, day)
    ensures forall u :: u in w.txs && w.txs[u].number.Some? ==> w.txs[u].day != day || w.txs[u].number.value < NextSeq(w.db, day)
  {
    forall d | d in w.db.digests ensures w.db.digests[d].stamp.day != day || w.db.digests[d].stamp.n < NextSeq(w.db, day) {
      assert RowOk(w.db, w.db.digests[d]);
    }
    forall u | u in w.txs && w.txs[u].number.Some? ensures w.txs[u].day != day || w.txs[u].number.value < NextSeq(w.db, day) {
      assert TxOk(w.db, w.txs[u]);
    }
  }

  lemma BumpKeepsRows(w: World, day: string)
    requires Inv(w)
    ensures QuotasOk(Bump(w.db, day)) && RowsOk(Bump(w.db, day))
  {
    var post := Bump(w.db, day);
    forall o | o in post.quotas ensures QuotaOk(post, o) {
      assert QuotaOk(w.db, o);
      SameDigests(w.db, post, o);
    }
    RowsCarry(w.db, post);
  }

  lemma TakeNumberTxs(w: World, t: int)
    requires Inv(w) && t in w.txs && w.txs[t].number.None?
    ensures TxsOk(TakeNumberStep(w, t))
  {
    var post := TakeNumberStep(w, t);
    NumberTaken(w, t);
    NewerThanAll(w, w.txs[t].day);
    forall u | u in post.txs ensures TxOk(post.db, post.txs[u]) {
      assert TxOk(w.db, w.txs[u]);
    }
    forall u, x | u in post.txs && x in post.txs && u != x ensures TxPairOk(post.txs[u], post.txs[x]) {
      assert TxPairOk(w.txs[u], w.txs[x]);
    }
    forall u, d | u in post.txs && d in post.db.digests ensures TxRowOk(post.txs[u], post.db.digests[d]) {
      assert TxRowOk(w.txs[u], w.db.digests[d]);
    }
  }

  lemma TakeNumberKeeps(w: World, t: int)
    requires Inv(w)
    ensures Inv(TakeNumberStep(w, t))
  {
    if t in w.txs && w.txs[t].number.None? {
      BumpKeepsRows(w, w.txs[t].day);
      TakeNumberTxs(w, t);
    }
  }

  lemma CommitKeepsQuota(db: Db, post: Db, order: string, digest: string, row: Row, o: string)
    requires Eligible(db, order) && digest !in db.digests && row.order == order
    requires post.digests == db.digests[digest := row]
    requires post.quotas == db.quotas[order := TakeOne(db.quotas[order])]
    requires o in db.quotas && QuotaOk(db, o)
    ensures QuotaOk(post, o)
  {
    assert digest !in DigestsOf(db, o);
    if o == order {
      assert DigestsOf(post, o) == DigestsOf(db, o) + {digest};
    } else {
      assert DigestsOf(post, o) == DigestsOf(db, o);
    }
  }

  lemma RowAdds(db: Db, post: Db, digest: string, row: Row)
    requires RowsOk(db) && digest !in db.digests && RowOk(db, row)
    requires post.quotas.Keys == db.quotas.Keys && post.seqs == db.seqs && post.digests == db.digests[digest := row]
    requires forall d :: d in db.digests ==> Apart(row.stamp, db.digests[d].stamp)
    ensures RowsOk(post)
  {
    forall d | d in post.digests ensures RowOk(post, post.digests[d]) {
      assert RowOk(db, post.digests[d]);
      assert post.digests[d].order in db.quotas.Keys;
      RowCarries(db, post, post.digests[d]);
    }
  }

  lemma CommitKeepsRows(w: World, t: int, post: Db)
    requires Inv(w) && t in w.txs && w.txs[t].number.Some? && w.txs[t].digest !in w.db.digests
    requires post.quotas.Keys == w.db.quotas.Keys && post.seqs == w.db.seqs
    requires post.digests == w.db.digests[w.txs[t].digest := Row(SnOf(StampOf(w.txs[t])), w.txs[t].order, StampOf(w.txs[t]))]
    ensures RowsOk(post)
  {
    assert TxOk(w.db, w.txs[t]);
    forall d | d in w.db.digests ensures Apart(StampOf(w.txs[t]), w.db.digests[d].stamp) {
      assert TxRowOk(w.txs[t], w.db.digests[d]);
    }
    RowAdds(w.db, post, w.txs[t].digest, post.digests[w.txs[t].digest]);
  }

  lemma CommitKeepsTxs(w: World, t: int, post: World)
    requires Inv(w) && t in w.txs && w.txs[t].number.Some? && w.txs[t].digest !in w.db.digests
    requires post.txs == w.txs - {t} && post.db.seqs == w.db.seqs && w.txs[t].order in w.db.quotas
    requires post.db.quotas == w.db.quotas[w.txs[t].order := TakeOne(w.db.quotas[w.txs[t].order])]
    requires post.db.digests == w.db.digests[w.txs[t].digest := Row(SnOf(StampOf(w.txs[t])), w.txs[t].order, StampOf(w.txs[t]))]
    ensures TxsOk(post)
  {
    forall u | u in post.txs ensures TxOk(post.db, post.txs[u]) {
      assert TxOk(w.db, w.txs[u]) && TxPairOk(w.txs[u], w.txs[t]);
    }
    forall u, d | u in post.txs && d in post.db.digests ensures TxRowOk(post.txs[u], post.db.digests[d]) {
      assert TxPairOk(w.txs[u], w.txs[t]);
      assert d in w.db.digests ==> TxRowOk(w.txs[u], w.db.digests[d]);
    }
  }

  lemma EndKeeps(w: World, t: int)
    requires Inv(w)
    ensures Inv(w.(txs := w.txs - {t}))
  {
    forall u | u in w.txs - {t} ensures TxOk(w.db, w.txs[u]) {
    }
  }

  lemma CommitKeeps(w: World, t: int, fails: bool)
    requires Inv(w)
    ensures Inv(CommitTx(w, t, fails))
  {
    var post := CommitTx(w, t, fails);
    if post.db == w.db {
      EndKeeps(w, t);
    } else {
      var tx := w.txs[t];
      assert TxOk(w.db, tx);
      CommitKeepsRows(w, t, post.db);
      CommitKeepsTxs(w, t, post);
      forall o | o in post.db.quotas ensures QuotaOk(post.db, o) {
        assert QuotaOk(w.db, o);
        CommitKeepsQuota(w.db, post.db, tx.order, tx.digest, post.db.digests[tx.digest], o);
      }
    }
  }

  lemma AppendKeeps(w: World, order: string, delta: int)
    requires Inv(w)
    ensures Inv(AppendWhenFree(w, order, delta))
  {
    if !Locked(w, order) && delta > 0 && order in w.db.quotas {
      assert QuotaOk(w.db, order);
      QuotaChangeKeeps(w, order, Grown(w.db.quotas[order], delta));
    }
  }

  lemma CreateKeeps(w: World, order: string, supplier: string, productKey: string, quota: int)
    requires Inv(w)
    ensures Inv(w.(db := CreateStep(w.db, order, supplier, productKey, quota)))
  {
    if quota >= 0 && order !in w.db.quotas {
      forall t | t in w.txs ensures w.txs[t].order != order {
        assert TxOk(w.db, w.txs[t]);
      }
      QuotaChangeKeeps(w, order, Quota(productKey, quota, 0, 1));
    }
  }

  lemma StepKeeps(w: World, a: Action)
    requires Inv(w)
    ensures Inv(Step(w, a))
  {
    match a
    case Create(order, supplier, productKey, quota) => CreateKeeps(w, order, supplier, productKey, quota);
    case AppendQuota(order, delta) => AppendKeeps(w, order, delta);
    case TakeQuota(t, order, digest, line, day) => TakeQuotaKeeps(w, t, order, digest, line, day);
    case TakeNumber(t) => TakeNumberKeeps(w, t);
    case Commit(t, fails) => CommitKeeps(w, t, fails);
    case Abort(t) => EndKeeps(w, t);
  }

  lemma {:induction false} RunInv(actions: seq<Action>)
    ensures Inv(Run(actions))
  {
    if actions != [] {
      RunInv(actions[..|actions| - 1]);
      StepKeeps(Run(actions[..|actions| - 1]), actions[|actions| - 1]);
    }
  }

  // ---- results over every interleaving

  /** registered counts the order's digests, stays within quota, and fills it at status 2. */
  lemma QuotaHolds(actions: seq<Action>, order: string)
    ensures var db := Run(actions).db;
            order in db.quotas ==>
              && db.quotas[order].registered == |DigestsOf(db, order)|
              && db.quotas[order].registered <= db.quotas[order].quota
              && (db.quotas[order].status == 2 ==> db.quotas[order].registered == db.quotas[order].quota)
  {
    RunInv(actions);
    if order in Run(actions).db.quotas {
      assert QuotaOk(Run(actions).db, order);
    }
  }

  /** A digest keeps its first serial number for ever. */
  lemma {:induction false} DigestKeepsSN(w: World, actions: seq<Action>, digest: string)
    requires digest in w.db.digests
    ensures digest in RunFrom(w, actions).db.digests
    ensures RunFrom(w, actions).db.digests[digest] == w.db.digests[digest]
  {
    if actions != [] {
      DigestKeepsSN(w, actions[..|actions| - 1], digest);
    }
  }

  /** Every day that signs uses a six-character date and fewer than 10^9 numbers. */
  ghost predicate DaysInRange(db: Db) {
    forall day :: day in db.seqs ==> |day| == 6 && db.seqs[day] < SEQ_MOD
  }

  lemma ApartSns(db: Db, a: Stamp, b: Stamp)
    requires DaysInRange(db) && StampOk(db, a) && StampOk(db, b) && Apart(a, b)
    ensures SnOf(a) != SnOf(b)
  {
    BuiltDistinct(a.productKey, a.day, a.line, a.n, b.productKey, b.day, b.line, b.n);
  }

  /** Issued serial numbers are well formed, valid and pairwise distinct, whatever the order of commits. */
  lemma IssuedDistinct(actions: seq<Action>, c: string, d: string)
    requires DaysInRange(Run(actions).db) && c in Run(actions).db.digests && d in Run(actions).db.digests
    ensures var db := Run(actions).db;
            && |db.digests[d].sn| == SN_LEN && ValidSN(db.digests[d].sn)
            && (c != d ==> db.digests[c].sn != db.digests[d].sn)
  {
    var db := Run(actions).db;
    RunInv(actions);
    assert RowOk(db, db.digests[c]) && RowOk(db, db.digests[d]);
    var st := db.digests[d].stamp;
    BuiltIsValid(st.productKey, st.day, st.line, st.n);
    if c != d {
      ApartSns(db, db.digests[c].stamp, st);
    }
  }

  /** A transaction with its number never meets its serial number among the committed ones. */
  lemma NextIsFresh(actions: seq<Action>, t: int)
    requires DaysInRange(Run(actions).db) && t in Run(actions).txs && Run(actions).txs[t].number.Some?
    ensures !SnTaken(Run(actions).db, SnOf(StampOf(Run(actions).txs[t])))
  {
    var w := Run(actions);
    RunInv(actions);
    assert TxOk(w.db, w.txs[t]);
    forall d | d in w.db.digests ensures w.db.digests[d].sn != SnOf(StampOf(w.txs[t])) {
      assert RowOk(w.db, w.db.digests[d]);
      ApartSns(w.db, w.db.digests[d].stamp, StampOf(w.txs[t]));
    }
  }

  // ---- the tables and replies of each statement, column by column

  /** Only the row of this order, if any, differs. */
  predicate OtherOrdersKept(db: Db, post: Db, order: string) {
    && post.quotas.Keys == db.quotas.Keys + {order}
    && forall o :: o in db.quotas && o != order ==> post.quotas[o] == db.quotas[o]
  }

  /** An order starts open and with nothing registered; a known one stays as it is. */
  lemma CreateMeans(db: Db, order: string, supplier: string, productKey: string, quota: int)
    ensures var post := CreateStep(db, order, supplier, productKey, quota);
            if order != "" && supplier != "" && productKey != "" && quota >= 0 && order !in db.quotas
            then
              && OtherOrdersKept(db, post, order) && post.digests == db.digests && post.seqs == db.seqs
              && post.quotas[order].productKey == productKey && post.quotas[order].quota == quota
              && post.quotas[order].registered == 0 && post.quotas[order].status == 1
            else post == db
  {
  }

  /** An append adds to the quota and reopens the order. */
  lemma AppendMeans(db: Db, order: string, delta: int)
    ensures var post := AppendStep(db, order, delta);
            if delta > 0 && order in db.quotas
            then
              && OtherOrdersKept(db, post, order) && post.digests == db.digests && post.seqs == db.seqs
              && post.quotas[order].productKey == db.quotas[order].productKey
              && post.quotas[order].quota == db.quotas[order].quota + delta
              && post.quotas[order].registered == db.quotas[order].registered && post.quotas[order].status == 1
            else post == db
  {
  }

  /** One more of this order is registered, and the order is full at its quota. */
  predicate OneMore(q: Quota, post: Quota) {
    && post.productKey == q.productKey && post.quota == q.quota
    && post.registered == q.registered + 1
    && post.status == if q.registered + 1 >= q.quota then 2 else q.status
  }

  /** The commit, by what is there: the digest, the serial number, a failure, or none of them. */
  lemma CommitMeans(db: Db, order: string, digest: string, st: Stamp, fails: bool)
    requires order in db.quotas
    ensures var sn := BuildSN(st.productKey, st.day, st.line, st.n);
            var post := CommitStep(db, order, digest, st, fails);
            && (digest in db.digests ==> post == (db, Existing(db.digests[digest].sn)))
            && (digest !in db.digests && (exists d :: d in db.digests && db.digests[d].sn == sn) ==> post == (db, SnConflict))
            && (digest !in db.digests && (forall d :: d in db.digests ==> db.digests[d].sn != sn) ==>
                  && (fails ==> post == (db, Failed))
                  && (!fails ==>
                        && post.1 == Signed(sn) && post.0.seqs == db.seqs
                        && OtherOrdersKept(db, post.0, order) && OneMore(db.quotas[order], post.0.quotas[order])
                        && post.0.digests == db.digests[digest := Row(sn, order, st)]))
  {
  }

  /** A sign refuses bad input first, then answers a digest known before, then wants quota left. */
  lemma SignRefuses(db: Db, order: string, digest: string, line: string, day: string, raced: bool, fails: bool)
    ensures var post := SignStep(db, order, digest, line, day, raced, fails);
            && (order == "" || |digest| != 64 ==> post == (db, BadInput))
            && (order != "" && |digest| == 64 && digest in db.digests && !raced ==>
                  post == (db, Existing(db.digests[digest].sn)))
            && (order != "" && |digest| == 64 && (digest !in db.digests || raced) && !QuotaLeft(db, order) ==>
                  post == (db, NoQuota))
  {
  }

  predicate QuotaLeft(db: Db, order: string) {
    order in db.quotas && db.quotas[order].status == 1 && db.quotas[order].registered < db.quotas[order].quota
  }

  /** Else the day's next number is used up, whatever becomes of the commit. */
  lemma SignTakesNumber(db: Db, order: string, digest: string, line: string, day: string, raced: bool, fails: bool, n: nat)
    requires order != "" && |digest| == 64 && (digest !in db.digests || raced) && QuotaLeft(db, order)
    requires n == if day in db.seqs then db.seqs[day] + 1 else 1
    ensures SignStep(db, order, digest, line, day, raced, fails)
         == CommitStep(Db(db.quotas, db.digests, db.seqs[day := n]), order, digest,
                       Stamp(db.quotas[order].productKey, day, line, n), fails)
  {
    assert Bump(db, day) == Db(db.quotas, db.digests, db.seqs[day := n]);
    assert NextSeq(db, day) == n;
  }

  /** What a transaction takes and reads before its commit. */
  lemma TakeMeans(w: World, t: int, order: string, digest: string, line: string, day: string)
    requires t !in w.txs
    ensures var free := forall u :: u in w.txs ==> w.txs[u].order != order;
            var post := TakeQuotaStep(w, t, order, digest, line, day);
            if order != "" && |digest| == 64 && free && order in w.db.quotas
               && w.db.quotas[order].status == 1 && w.db.quotas[order].registered < w.db.quotas[order].quota
            then post == World(w.db, w.txs[t := Tx(order, digest, w.db.quotas[order].productKey, line, day, None)])
            else post == w
  {
  }
}
