/**
 * The streaming pass of Track_EDGAR.py (lines 71-138): one left-to-right walk
 * over time-ordered (ip, time) rows that keeps one open session per ip, closes
 * the sessions whose gap exceeds the inactivity period, and writes each closed
 * batch in first-seen order.
 */
module Sessionizer {
  import opened Wrappers
  import opened Config
  import opened Sessions
  import opened Bookkeeping
  import opened Sorting
  import opened Output

  /** The output line of a closed session. */
  function LineOf(c: Closed): string {
    CreateLine(c.ip, c.s.first, c.s.last, c.s.dur, c.s.count)
  }

  /** The lines written for a sequence of closed sessions, in the same order. */
  function Lines(cs: seq<Closed>): (ls: seq<string>)
    ensures |ls| == |cs|
    ensures forall i :: 0 <= i < |cs| ==> ls[i] == LineOf(cs[i])
  {
    seq(|cs|, i requires 0 <= i < |cs| => LineOf(cs[i]))
  }

  lemma PrefixStep(c: seq<Closed>, s: seq<Closed>, i: nat)
    requires i < |s|
    ensures c + s[..i] + [s[i]] == c + s[..i + 1]
  {
    assert s[..i + 1] == s[..i] + [s[i]];
  }

  /**
   * `b` is the batch written for the sessions in `closing`: each of them once,
   * in ascending rank.
   */
  ghost predicate IsBatch(b: seq<Closed>, closing: set<Closed>) {
    SortedByRank(b) && multiset(b) == multiset(closing)
  }

  /** The expired sessions of `m` whose ip has already been visited. */
  ghost function ExpiredOutside(m: Table, pending: set<string>, now: int, period: int): set<Closed> {
    set ip | ip in m && ip !in pending && Stale(m[ip], now, period) :: Closed(ip, m[ip])
  }

  /** The table part way through an expiry pass: pending ips untouched, visited ones kept only if live. */
  ghost function SurvivorsOutside(m: Table, pending: set<string>, now: int, period: int): Table {
    map ip | ip in m && (ip in pending || !Stale(m[ip], now, period)) :: m[ip]
  }

  /** Visiting one more pending ip of an expiry pass. */
  lemma ExpireVisit(m: Table, pending: set<string>, ip: string, now: int, period: int)
    requires ip in pending && pending <= m.Keys
    ensures Stale(m[ip], now, period) ==>
      && SurvivorsOutside(m, pending - {ip}, now, period) == SurvivorsOutside(m, pending, now, period) - {ip}
      && multiset(ExpiredOutside(m, pending - {ip}, now, period))
         == multiset(ExpiredOutside(m, pending, now, period)) + multiset{Closed(ip, m[ip])}
    ensures !Stale(m[ip], now, period) ==>
      && SurvivorsOutside(m, pending - {ip}, now, period) == SurvivorsOutside(m, pending, now, period)
      && ExpiredOutside(m, pending - {ip}, now, period) == ExpiredOutside(m, pending, now, period)
  {
    var c := Closed(ip, m[ip]);
    if Stale(m[ip], now, period) {
      assert c !in ExpiredOutside(m, pending, now, period);
      assert ExpiredOutside(m, pending - {ip}, now, period) == ExpiredOutside(m, pending, now, period) + {c};
    }
  }

  /**
   * The state part way through an expiry pass over `m0` at `now`: the ips in
   * `pending` are still to be visited, `m` is the table and `batch` the stale
   * sessions collected so far.
   */
  ghost predicate Visiting(m0: Table, pending: set<string>, done: seq<Closed>, batch: seq<Closed>, m: Table,
                           obs: nat, events: nat, now: int, period: int) {
    && pending <= m0.Keys
    && m == SurvivorsOutside(m0, pending, now, period)
    && multiset(batch) == multiset(ExpiredOutside(m0, pending, now, period))
    && Accounted(done + batch, m, obs, events)
  }

  /** Visiting one pending ip: a stale session moves from the table to the batch. */
  lemma VisitStep(m0: Table, pending: set<string>, done: seq<Closed>, batch: seq<Closed>, m: Table,
                  obs: nat, events: nat, now: int, period: int, ip: string)
    requires Visiting(m0, pending, done, batch, m, obs, events, now, period) && ip in pending
    ensures ip in m && m[ip] == m0[ip]
    ensures Stale(m[ip], now, period) ==>
      Visiting(m0, pending - {ip}, done, batch + [Closed(ip, m[ip])], m - {ip}, obs, events, now, period)
    ensures !Stale(m[ip], now, period) ==>
      Visiting(m0, pending - {ip}, done, batch, m, obs, events, now, period)
  {
    ExpireVisit(m0, pending, ip, now, period);
    if Stale(m[ip], now, period) {
      AccountedClose(done, batch, m, obs, events, ip);
    }
  }

  /** Before the pass nothing is visited; after it, the visited parts are the whole pass. */
  lemma ExpireEnds(m: Table, now: int, period: int)
    ensures SurvivorsOutside(m, m.Keys, now, period) == m
    ensures ExpiredOutside(m, m.Keys, now, period) == {}
    ensures SurvivorsOutside(m, {}, now, period) == Survivors(m, now, period)
    ensures ExpiredOutside(m, {}, now, period) == Expired(m, now, period)
  {
  }

  /** The sessions of `m` whose ip has already been visited. */
  ghost function EntriesOutside(m: Table, pending: set<string>): set<Closed> {
    set ip | ip in m && ip !in pending :: Closed(ip, m[ip])
  }

  /**
   * The accounts the pass keeps: every session well formed, ranks 1..obs each
   * held by one session (written or open), and the request counts of all
   * sessions adding up to the valid rows folded in.
   */
  ghost predicate Accounted(done: seq<Closed>, m: Table, obs: nat, events: nat) {
    && (forall ip :: ip in m ==> WellFormed(m[ip]))
    && (forall i :: 0 <= i < |done| ==> WellFormed(done[i].s))
    && Tally(AllSessions(done, m), obs, events)
  }

  lemma AccountedStart()
    ensures Accounted([], map[], 0, 0)
  {
    assert AllSessions([], map[]) == multiset{};
  }

  /** Opening a session for a new ip keeps the accounts, with one more rank and row. */
  lemma AccountedOpen(done: seq<Closed>, m: Table, obs: nat, events: nat, ip: string, t: nat)
    requires Accounted(done, m, obs, events) && ip !in m
    ensures Folded(m, ip, t, obs) == m[ip := Session(t, t, 1, 1, obs + 1)]
    ensures Accounted(done, m[ip := Session(t, t, 1, 1, obs + 1)], obs + 1, events + 1)
  {
    var c := Closed(ip, Open(t, obs));
    EntriesAdd(m, ip, c.s);
    assert AllSessions(done, m[ip := c.s]) == AllSessions(done, m) + multiset{c};
    TallyOpen(AllSessions(done, m), obs, events, c);
  }

  /** Extending the open session of a known ip keeps the accounts, with one more row. */
  lemma AccountedExtend(done: seq<Closed>, m: Table, obs: nat, events: nat, ip: string, t: nat)
    requires Accounted(done, m, obs, events) && ip in m
    ensures Folded(m, ip, t, obs) == m[ip := Extend(m[ip], t)]
    ensures Accounted(done, m[ip := Extend(m[ip], t)], obs, events + 1)
  {
    var was, now := Closed(ip, m[ip]), Closed(ip, Extend(m[ip], t));
    var rest := m - {ip};
    var others := multiset(done) + multiset(Entries(rest));
    EntriesRemove(m, ip);
    assert AllSessions(done, m) == others + multiset{was};
    assert m[ip := now.s] == rest[ip := now.s];
    EntriesAdd(rest, ip, now.s);
    assert AllSessions(done, m[ip := now.s]) == others + multiset{now};
    TallyExtend(others, obs, events, was, now);
  }

  /** Folding a valid row keeps the accounts, counting one more row. */
  lemma AccountedFold(done: seq<Closed>, m: Table, obs: nat, events: nat, ip: string, t: nat)
    requires Accounted(done, m, obs, events)
    ensures Accounted(done, Folded(m, ip, t, obs), NextCounter(m, ip, obs), events + 1)
  {
    if ip in m {
      AccountedExtend(done, m, obs, events, ip, t);
    } else {
      AccountedOpen(done, m, obs, events, ip, t);
    }
  }

  /** Closing one open session moves it from the table to the written sessions: nothing is lost. */
  lemma AccountedMove(done: seq<Closed>, m: Table, obs: nat, events: nat, ip: string)
    requires Accounted(done, m, obs, events) && ip in m
    ensures AllSessions(done + [Closed(ip, m[ip])], m - {ip}) == AllSessions(done, m)
    ensures Accounted(done + [Closed(ip, m[ip])], m - {ip}, obs, events)
  {
    EntriesRemove(m, ip);
    assert multiset(done + [Closed(ip, m[ip])]) == multiset(done) + multiset{Closed(ip, m[ip])};
  }

  /** Closing one more open session into the batch being collected keeps the accounts. */
  lemma AccountedClose(done: seq<Closed>, batch: seq<Closed>, m: Table, obs: nat, events: nat, ip: string)
    requires Accounted(done + batch, m, obs, events) && ip in m
    ensures Accounted(done + (batch + [Closed(ip, m[ip])]), m - {ip}, obs, events)
  {
    AccountedMove(done + batch, m, obs, events, ip);
    assert done + batch + [Closed(ip, m[ip])] == done + (batch + [Closed(ip, m[ip])]);
  }

  /** Writing a batch in another order keeps the accounts. */
  lemma AccountedReorder(done: seq<Closed>, batch: seq<Closed>, sorted: seq<Closed>, m: Table, obs: nat, events: nat)
    requires Accounted(done + batch, m, obs, events) && multiset(sorted) == multiset(batch)
    ensures Accounted(done + sorted, m, obs, events)
  {
    assert multiset(done + sorted) == multiset(done + batch);
    assert AllSessions(done + sorted, m) == AllSessions(done + batch, m);
    forall i | 0 <= i < |done + sorted| ensures WellFormed((done + sorted)[i].s) {
      var x := (done + sorted)[i];
      assert x in multiset(done + batch);
      var k :| 0 <= k < |done + batch| && (done + batch)[k] == x;
    }
  }

  /**
   * What the output holds once nothing is open: one well-formed session per
   * rank 1..obs, and request counts that add up to the rows folded in.
   */
  ghost predicate AllWritten(written: seq<Closed>, obs: nat, events: nat) {
    && |written| == obs
    && (forall i :: 0 <= i < |written| ==> 1 <= written[i].s.obs <= obs)
    && (forall i, j :: 0 <= i < j < |written| ==> written[i].s.obs != written[j].s.obs)
    && SeqSum(written) == events
    && (forall i :: 0 <= i < |written| ==> WellFormed(written[i].s))
  }

  /**
   * Once every open session is written (in any order), the written sessions
   * are all the sessions ever opened: one per rank 1..obs, and their counts
   * add up to the rows folded in.
   */
  lemma AccountedDrained(collected: seq<Closed>, written: seq<Closed>, obs: nat, events: nat)
    requires Accounted(collected, map[], obs, events) && multiset(written) == multiset(collected)
    ensures AllWritten(written, obs, events)
  {
    assert AllSessions(collected, map[]) == multiset(written);
    TallyDrained(written, obs, events);
    forall i | 0 <= i < |written| ensures WellFormed(written[i].s) {
      assert written[i] in multiset(collected);
      var k :| 0 <= k < |collected| && collected[k] == written[i];
    }
  }

  /**
   * What time-ordered input keeps: no session, open or written, ends before
   * it starts, and no open session ends after the clock.
   */
  ghost predicate InOrder(done: seq<Closed>, m: Table, clock: nat) {
    && (forall ip :: ip in m ==> m[ip].first <= m[ip].last <= clock)
    && (forall i :: 0 <= i < |done| ==> done[i].s.first <= done[i].s.last)
  }

  /** Folding a row no earlier than the clock keeps the order, with the clock moved to the row's time. */
  lemma FoldInOrder(done: seq<Closed>, m: Table, ip: string, t: nat, counter: nat, clock: nat)
    ensures InOrder(done, m, clock) && clock <= t ==> InOrder(done, Folded(m, ip, t, counter), t)
  {
    if InOrder(done, m, clock) && clock <= t {
      FoldKeepsOrder(m, ip, t, counter, clock);
    }
  }

  /** An expiry pass keeps the order: the sessions it writes come from the ordered table. */
  lemma ExpireKeepsOrder(done: seq<Closed>, sorted: seq<Closed>, m: Table, now: int, period: int, clock: nat)
    requires InOrder(done, m, clock)
    requires multiset(sorted) == multiset(Expired(m, now, period))
    ensures InOrder(done + sorted, Survivors(m, now, period), clock)
  {
    var d := done + sorted;
    forall i | 0 <= i < |d| ensures d[i].s.first <= d[i].s.last {
      if i >= |done| {
        assert sorted[i - |done|] == d[i];
        assert d[i] in multiset(Expired(m, now, period));
      }
    }
  }

  /** Writing every open session keeps the order of the written ones. */
  lemma DrainKeepsOrder(done: seq<Closed>, sorted: seq<Closed>, m: Table, clock: nat)
    requires InOrder(done, m, clock)
    requires multiset(sorted) == multiset(Entries(m))
    ensures InOrder(done + sorted, map[], clock)
  {
    var d := done + sorted;
    forall i | 0 <= i < |d| ensures d[i].s.first <= d[i].s.last {
      if i >= |done| {
        assert sorted[i - |done|] == d[i];
        assert d[i] in multiset(Entries(m));
      }
    }
  }

  /**
   * The final drain writes, after `done`, the open sessions of `m` in rank
   * order; then every session ever opened is written, and an ordered pass
   * writes only ordered sessions.
   */
  lemma DrainOutcome(done: seq<Closed>, m: Table, obs: nat, events: nat, batch: seq<Closed>, sorted: seq<Closed>, clock: nat)
    requires DistinctRanks(Entries(m))
    requires Accounted(done + batch, map[], obs, events) && multiset(batch) == multiset(Entries(m))
    requires SortedByRank(sorted) && multiset(sorted) == multiset(batch)
    ensures sorted == SortedBatch(Entries(m))
    ensures AllWritten(done + sorted, obs, events)
    ensures InOrder(done, m, clock) ==> forall i :: 0 <= i < |done + sorted| ==> (done + sorted)[i].s.first <= (done + sorted)[i].s.last
  {
    SortedBatchUnique(sorted, Entries(m));
    AccountedDrained(done + batch, done + sorted, obs, events);
    if InOrder(done, m, clock) {
      DrainKeepsOrder(done, sorted, m, clock);
    }
  }

  /** The open sessions of `m` whose ip is still pending. */
  ghost function Pending(m: Table, pending: set<string>): Table {
    map ip | ip in m && ip in pending :: m[ip]
  }

  /**
   * The state part way through the final drain of `m0`: the ips in `pending`
   * are still to be copied, `batch` holds the sessions copied so far.
   */
  ghost predicate Collecting(m0: Table, pending: set<string>, done: seq<Closed>, batch: seq<Closed>,
                             obs: nat, events: nat) {
    && pending <= m0.Keys
    && multiset(batch) == multiset(EntriesOutside(m0, pending))
    && Accounted(done + batch, Pending(m0, pending), obs, events)
  }

  /** Copying one more pending session into the drain's batch. */
  lemma CollectStep(m0: Table, pending: set<string>, done: seq<Closed>, batch: seq<Closed>,
                    obs: nat, events: nat, ip: string)
    requires Collecting(m0, pending, done, batch, obs, events) && ip in pending
    ensures Collecting(m0, pending - {ip}, done, batch + [Closed(ip, m0[ip])], obs, events)
  {
    PendingVisit(m0, pending, ip);
    AccountedClose(done, batch, Pending(m0, pending), obs, events, ip);
  }

  lemma PendingVisit(m0: Table, pending: set<string>, ip: string)
    requires ip in pending && pending <= m0.Keys
    ensures ip in Pending(m0, pending) && Pending(m0, pending)[ip] == m0[ip]
    ensures Pending(m0, pending) - {ip} == Pending(m0, pending - {ip})
    ensures multiset(EntriesOutside(m0, pending - {ip}))
      == multiset(EntriesOutside(m0, pending)) + multiset{Closed(ip, m0[ip])}
  {
    var c := Closed(ip, m0[ip]);
    assert c !in EntriesOutside(m0, pending);
    assert EntriesOutside(m0, pending - {ip}) == EntriesOutside(m0, pending) + {c};
  }

  /** The drain starts with every session pending and ends with none. */
  lemma CollectEnds(m0: Table)
    ensures Pending(m0, m0.Keys) == m0 && EntriesOutside(m0, m0.Keys) == {}
    ensures Pending(m0, {}) == map[] && EntriesOutside(m0, {}) == Entries(m0)
  {
  }

  /** The accounts give every open session its own rank. */
  lemma AccountedDistinct(done: seq<Closed>, m: Table, obs: nat, events: nat)
    requires Accounted(done, m, obs, events)
    ensures DistinctRanks(Entries(m))
  {
    var b := AllSessions(done, m);
    forall x, y | x in Entries(m) && y in Entries(m) && x != y ensures x.s.obs != y.s.obs {
      assert x in b && y in b;
      InRest(b, x, y);
      TallyDistinct(b, obs, events, x, y);
    }
  }

  /** The accounts keep every rank handed out, open or written, at most the counter. */
  lemma RanksBelow(done: seq<Closed>, m: Table, obs: nat, events: nat)
    requires Accounted(done, m, obs, events)
    ensures forall ip :: ip in m ==> m[ip].obs <= obs
    ensures forall i :: 0 <= i < |done| ==> done[i].s.obs <= obs
  {
    var b := AllSessions(done, m);
    forall ip | ip in m ensures m[ip].obs <= obs {
      var c := Closed(ip, m[ip]);
      assert c in Entries(m) && c in b;
      TallyRank(b, obs, events, c);
    }
    forall i | 0 <= i < |done| ensures done[i].s.obs <= obs {
      assert done[i] in multiset(done) && done[i] in b;
      TallyRank(b, obs, events, done[i]);
    }
  }

  /** A session opened for a new ip outranks every session opened before it, open or written. */
  lemma FoldOutranks(done: seq<Closed>, m: Table, obs: nat, events: nat, ip: string, t: nat)
    requires Accounted(done, m, obs, events)
    ensures ip !in m ==>
      && (forall k :: k in m ==> m[k].obs < Folded(m, ip, t, obs)[ip].obs)
      && (forall i :: 0 <= i < |done| ==> done[i].s.obs < Folded(m, ip, t, obs)[ip].obs)
  {
    RanksBelow(done, m, obs, events);
  }

  /** The sessions an expiry pass closes are open ones, so their ranks differ too. */
  lemma ExpiredDistinct(m: Table, now: int, period: int)
    requires DistinctRanks(Entries(m))
    ensures DistinctRanks(Expired(m, now, period))
  {
    assert Expired(m, now, period) <= Entries(m);
  }

  class Sessionizer {
    /** The inactivity period, in seconds. */
    const period: int
    /** The open sessions, one per ip (`dic_ips`). */
    var table: Table
    /** The last rank handed out (`obs`). */
    var obs: nat
    /** Time of the last valid row; 0 is the source's start value datetime(1,1,1). */
    var lastTime: nat
    /** The sessions written to the output file so far, one line each, in order. */
    var out: seq<Closed>
    /** The valid rows folded in so far. */
    ghost var events: nat

    ghost predicate Valid()
      reads this
    {
      && ValidPeriod(period)
      && Accounted(out, table, obs, events)
    }

    /** What non-decreasing input keeps: no session ends before it starts or after the clock. */
    ghost predicate Ordered()
      reads this
    {
      InOrder(out, table, lastTime)
    }

    /** No open session is stale at the clock. */
    ghost predicate NothingStale()
      reads this
    {
      NoneStale(PassState(table, obs, lastTime), period)
    }

    /** The state before the first row (lines 71, 83, 85). */
    constructor (period: int)
      requires ValidPeriod(period)
      ensures Valid() && Ordered() && NothingStale()
      ensures this.period == period && table == map[] && obs == 0 && lastTime == 0
      ensures out == [] && events == 0
    {
      this.period := period;
      table := map[];
      obs := 0;
      lastTime := 0;
      out := [];
      events := 0;
      new;
      AccountedStart();
    }

    /** Sorts a batch by rank and writes its lines (WriteToFile, lines 55-63). */
    method WriteToFile(batch: seq<Closed>)
      modifies this
      ensures table == old(table) && obs == old(obs) && lastTime == old(lastTime) && events == old(events)
      ensures |out| == |old(out)| + |batch| && out[..|old(out)|] == old(out)
      ensures SortedByRank(out[|old(out)|..])
      ensures multiset(out[|old(out)|..]) == multiset(batch)
    {
      var a := new Closed[|batch|](k requires 0 <= k < |batch| => batch[k]);
      assert a[..] == batch;
      SortByRank(a);
      WriteLines(a[..]);
    }

    /** Writes the lines of a sorted batch one by one (lines 62-63). */
    method WriteLines(sorted: seq<Closed>)
      modifies this
      ensures table == old(table) && obs == old(obs) && lastTime == old(lastTime) && events == old(events)
      ensures out == old(out) + sorted
    {
      var i := 0;
      while i < |sorted|
        invariant 0 <= i <= |sorted|
        invariant out == old(out) + sorted[..i]
        invariant table == old(table) && obs == old(obs) && lastTime == old(lastTime) && events == old(events)
      {
        out := out + [sorted[i]];
        PrefixStep(old(out), sorted, i);
        i := i + 1;
      }
      assert sorted[..i] == sorted;
    }

    /**
     * Folds a valid row into the table (lines 117-126): a new ip opens a
     * session with the next rank; a known ip extends its open session.
     */
    method Fold(ip: string, t: nat)
      requires Valid()
      modifies this
      ensures Valid()
      ensures table == Folded(old(table), ip, t, old(obs))
      ensures obs == NextCounter(old(table), ip, old(obs))
      ensures events == old(events) + 1
      ensures lastTime == old(lastTime) && out == old(out)
      ensures old(Ordered()) && old(lastTime) <= t ==> InOrder(out, table, t)
      ensures obs >= old(obs)
      ensures ip !in old(table) ==>
        && (forall k :: k in old(table) ==> old(table)[k].obs < table[ip].obs)
        && (forall i :: 0 <= i < |out| ==> out[i].s.obs < table[ip].obs)
    {
      var m, counter := table, obs;
      ghost var folded := events;
      FoldInOrder(out, m, ip, t, obs, lastTime);
      FoldOutranks(out, m, counter, folded, ip, t);
      table := Folded(m, ip, t, counter);
      obs := NextCounter(m, ip, counter);
      events := events + 1;
      AccountedFold(out, m, counter, folded, ip, t);
    }

    /**
     * The expiry pass at `now` (lines 104-113): closes the stale sessions and
     * writes them sorted by rank.
     */
    method Expire(now: nat)
      requires Valid()
      modifies this
      ensures Valid()
      ensures table == Survivors(old(table), now, period)
      ensures |out| >= |old(out)| && out[..|old(out)|] == old(out)
      ensures IsBatch(out[|old(out)|..], Expired(old(table), now, period))
      ensures obs == old(obs) && lastTime == old(lastTime) && events == old(events)
      ensures old(Ordered()) ==> Ordered()
      ensures out == old(out) + SortedBatch(Expired(old(table), now, period))
    {
      ghost var m := table;
      AccountedDistinct(out, m, obs, events);
      ExpiredDistinct(m, now, period);
      var batch := CloseStale(now);
      WriteToFile(batch);
      assert out == old(out) + out[|old(out)|..];
      AccountedReorder(old(out), batch, out[|old(out)|..], table, obs, events);
      SortedBatchUnique(out[|old(out)|..], Expired(m, now, period));
      if old(Ordered()) {
        ExpireKeepsOrder(old(out), out[|old(out)|..], old(table), now, period, lastTime);
      }
    }

    /**
     * The loop of the expiry pass (lines 107-112): visits every open ip once,
     * deleting each stale session from the table and collecting it.
     */
    method CloseStale(now: nat) returns (batch: seq<Closed>)
      requires Accounted(out, table, obs, events)
      modifies this
      ensures table == Survivors(old(table), now, period)
      ensures multiset(batch) == multiset(Expired(old(table), now, period))
      ensures Accounted(out + batch, table, obs, events)
      ensures out == old(out)
      ensures obs == old(obs) && lastTime == old(lastTime) && events == old(events)
    {
      batch := [];
      var pending := table.Keys;
      ExpireEnds(table, now, period);
      assert out + batch == out;
      while pending != {}
        invariant Visiting(old(table), pending, out, batch, table, obs, events, now, period)
        invariant out == old(out)
        invariant obs == old(obs) && lastTime == old(lastTime) && events == old(events)
        decreases pending
      {
        var ip :| ip in pending;
        VisitStep(old(table), pending, out, batch, table, obs, events, now, period, ip);
        if Stale(table[ip], now, period) {
          batch := batch + [Closed(ip, table[ip])];
          table := table - {ip};
        }
        pending := pending - {ip};
      }
    }

    /**
     * One input row (one pass of the loop body, lines 88-129). An invalid row
     * (`None`, a date or time strptime rejects, lines 94-98) changes nothing;
     * a valid one is handed to Advance.
     */
    method Step(ip: string, time: Option<nat>)
      requires Valid()
      modifies this
      ensures Valid()
      ensures events == old(events) + if time.Some? then 1 else 0
      ensures old(Ordered()) && (time.Some? ==> old(lastTime) <= time.value) ==> Ordered()
      ensures PassState(table, obs, lastTime) == StepState(PassState(old(table), old(obs), old(lastTime)), period, Row(ip, time))
      ensures out == old(out) + StepOutput(PassState(old(table), old(obs), old(lastTime)), period, Row(ip, time))
    {
      if time.Some? {
        Advance(ip, time.value);
      }
    }

    /**
     * A valid row at `t` (lines 103-129): first expire the stale sessions,
     * but only if `t` differs from the last valid time, then fold the row in
     * and move the clock to `t`.
     */
    method Advance(ip: string, t: nat)
      requires Valid()
      modifies this
      ensures Valid()
      ensures table == Folded(Live(old(table), t, old(lastTime), period), ip, t, old(obs))
      ensures obs == NextCounter(Live(old(table), t, old(lastTime), period), ip, old(obs))
      ensures lastTime == t && events == old(events) + 1
      ensures old(Ordered()) && old(lastTime) <= t ==> Ordered()
      ensures out == old(out) + if t != old(lastTime) then SortedBatch(Expired(old(table), t, period)) else []
      ensures old(NothingStale()) ==> NothingStale()
      ensures old(NothingStale()) ==>
        table[ip] == if ip in old(table) && t - old(table)[ip].last <= period then Extend(old(table)[ip], t) else Open(t, old(obs))
    {
      FoldWithinPeriod(table, obs, lastTime, period, ip, t);
      if t != lastTime {
        Expire(t);
      }
      Fold(ip, t);
      lastTime := t;
    }

    /** The loop over the input rows (lines 87-129): every row, in order, through Step. */
    method Feed(rows: seq<Row>)
      requires Valid()
      modifies this
      ensures Valid()
      ensures events == old(events) + ValidCount(rows)
      ensures old(Ordered()) && NonDecreasing(rows) && AtOrAfter(rows, old(lastTime)) ==> Ordered()
      ensures PassState(table, obs, lastTime) == PassAfter(PassState(old(table), old(obs), old(lastTime)), period, rows)
      ensures out == old(out) + PassOutput(PassState(old(table), old(obs), old(lastTime)), period, rows)
      ensures old(NothingStale()) ==> NothingStale()
    {
      ghost var ordered := old(Ordered()) && NonDecreasing(rows) && AtOrAfter(rows, old(lastTime));
      ghost var start := PassState(table, obs, lastTime);
      var k := 0;
      ghost var valid := 0;
      assert rows[k..] == rows;
      while k < |rows|
        invariant 0 <= k <= |rows|
        invariant Valid()
        invariant valid == ValidCount(rows[..k])
        invariant events == old(events) + valid
        invariant ordered ==> Ordered()
        invariant ordered ==> AtOrAfter(rows[k..], lastTime)
        invariant PassState(table, obs, lastTime) == PassAfter(start, period, rows[..k])
        invariant out == old(out) + PassOutput(start, period, rows[..k])
      {
        ghost var out0, st := out, PassState(table, obs, lastTime);
        if ordered {
          ClockStep(rows, k, lastTime);
        }
        Step(rows[k].ip, rows[k].time);
        FeedStep(old(out), start, period, rows, k, st, out0, PassState(table, obs, lastTime), out);
        ValidCountStep(rows, k);
        valid := valid + if rows[k].time.Some? then 1 else 0;
        k := k + 1;
      }
      assert rows[..k] == rows;
      if old(NothingStale()) {
        PassNoneStale(start, period, rows);
      }
    }

    /**
     * The final drain (lines 133-138): every session still open is copied
     * into one batch and written sorted by rank. The table itself is left as
     * it is, as in the source; after the drain every session ever opened has
     * been written exactly once.
     */
    method Drain()
      requires Valid()
      modifies this
      ensures table == old(table) && obs == old(obs) && lastTime == old(lastTime) && events == old(events)
      ensures out == old(out) + SortedBatch(Entries(old(table)))
      ensures AllWritten(out, obs, events)
      ensures old(Ordered()) ==> forall i :: 0 <= i < |out| ==> out[i].s.first <= out[i].s.last
    {
      ghost var done, m := out, table;
      AccountedDistinct(done, m, obs, events);
      var batch := CollectAll();
      WriteToFile(batch);
      ghost var sorted := out[|done|..];
      assert out == done + sorted;
      DrainOutcome(done, m, obs, events, batch, sorted, lastTime);
    }

    /** The loop of the drain (lines 134-137): copies every open session into a batch. */
    method CollectAll() returns (batch: seq<Closed>)
      requires Accounted(out, table, obs, events)
      ensures multiset(batch) == multiset(Entries(table))
      ensures Accounted(out + batch, map[], obs, events)
    {
      batch := [];
      var pending := table.Keys;
      CollectEnds(table);
      assert out + batch == out;
      while pending != {}
        invariant Collecting(table, pending, out, batch, obs, events)
        decreases pending
      {
        var ip :| ip in pending;
        CollectStep(table, pending, out, batch, obs, events, ip);
        batch := batch + [Closed(ip, table[ip])];
        pending := pending - {ip};
      }
    }
  }

  /** One input row as the pass sees it: the ip and the parsed time, None when it does not parse. */
  datatype Row = Row(ip: string, time: Option<nat>)

  /** The number of valid rows. */
  function ValidCount(rows: seq<Row>): (n: nat)
    ensures n <= |rows|
  {
    if rows == [] then 0
    else ValidCount(rows[..|rows| - 1]) + (if rows[|rows| - 1].time.Some? then 1 else 0)
  }

  lemma ValidCountStep(rows: seq<Row>, k: nat)
    requires k < |rows|
    ensures ValidCount(rows[..k + 1]) == ValidCount(rows[..k]) + if rows[k].time.Some? then 1 else 0
  {
    assert rows[..k + 1][..k] == rows[..k];
  }

  /** The state the pass carries from row to row: `dic_ips`, `obs` and `lastTime`. */
  datatype PassState = PassState(table: Table, obs: nat, clock: nat)

  /** The state before the first row (lines 71, 83, 85). */
  const Start := PassState(map[], 0, 0)

  /**
   * What one row does to the state (lines 94-129): a row whose time does not
   * parse leaves it alone; a valid row at t is folded into the live table, and
   * the clock moves to t.
   */
  function StepState(st: PassState, period: int, r: Row): (st': PassState)
    ensures r.time.None? ==> st' == st
    ensures r.time.Some? ==> st'.clock == r.time.value && r.ip in st'.table && st'.table[r.ip].last == r.time.value
    ensures st.obs <= st'.obs <= st.obs + (if r.time.Some? then 1 else 0)
  {
    match r.time
    case None => st
    case Some(t) =>
      var live := Live(st.table, t, st.clock, period);
      PassState(Folded(live, r.ip, t, st.obs), NextCounter(live, r.ip, st.obs), t)
  }

  /**
   * What the period means for the open sessions: none is stale at the clock,
   * so every open session's last request lies within the period of the last
   * valid time.
   */
  ghost predicate NoneStale(st: PassState, period: int) {
    forall ip :: ip in st.table ==> !Stale(st.table[ip], st.clock, period)
  }

  /**
   * Folding a valid row at t into the live table (lines 103-126), from a state
   * where nothing is stale: the row's ip continues its session exactly when
   * the row arrives within the period of that session's last request, and
   * starts a new session otherwise; afterwards nothing is stale at t.
   */
  lemma FoldWithinPeriod(m: Table, obs: nat, clock: nat, period: int, ip: string, t: nat)
    ensures NoneStale(PassState(m, obs, clock), period) && period >= 0 ==>
      var live := Live(m, t, clock, period);
      && Folded(live, ip, t, obs)[ip] == (if ip in m && t - m[ip].last <= period then Extend(m[ip], t) else Open(t, obs))
      && NoneStale(PassState(Folded(live, ip, t, obs), NextCounter(live, ip, obs), t), period)
  {
  }

  /** One row, valid or not, keeps every open session within the period of the clock. */
  lemma StepKeepsNoneStale(st: PassState, period: int, r: Row)
    requires NoneStale(st, period) && period >= 0
    ensures NoneStale(StepState(st, period, r), period)
  {
    if r.time.Some? {
      FoldWithinPeriod(st.table, st.obs, st.clock, period, r.ip, r.time.value);
    }
  }

  /**
   * After any sequence of rows, in any order, no open session is stale: a
   * session stays open only while its requests come within the period of
   * each other's clock.
   */
  lemma {:induction false} PassNoneStale(st: PassState, period: int, rows: seq<Row>)
    requires NoneStale(st, period) && period >= 0
    ensures NoneStale(PassAfter(st, period, rows), period)
    decreases |rows|
  {
    if rows != [] {
      PassNoneStale(st, period, rows[..|rows| - 1]);
      StepKeepsNoneStale(PassAfter(st, period, rows[..|rows| - 1]), period, rows[|rows| - 1]);
    }
  }

  /** The sessions one row writes: the expired batch, in rank order, when its time moves the clock (lines 103-113). */
  ghost function StepOutput(st: PassState, period: int, r: Row): seq<Closed> {
    if r.time.Some? && r.time.value != st.clock then SortedBatch(Expired(st.table, r.time.value, period)) else []
  }

  /** The state after a sequence of rows; the rank counter grows by at most one per valid row. */
  function PassAfter(st: PassState, period: int, rows: seq<Row>): (st': PassState)
    ensures st.obs <= st'.obs <= st.obs + ValidCount(rows)
    decreases |rows|
  {
    if rows == [] then st else StepState(PassAfter(st, period, rows[..|rows| - 1]), period, rows[|rows| - 1])
  }

  /** The sessions written while a sequence of rows is read, batch after batch. */
  ghost function PassOutput(st: PassState, period: int, rows: seq<Row>): seq<Closed>
    decreases |rows|
  {
    if rows == [] then []
    else
      var prefix := rows[..|rows| - 1];
      PassOutput(st, period, prefix) + StepOutput(PassAfter(st, period, prefix), period, rows[|rows| - 1])
  }

  lemma PassStep(st: PassState, period: int, rows: seq<Row>, k: nat)
    requires k < |rows|
    ensures PassAfter(st, period, rows[..k + 1]) == StepState(PassAfter(st, period, rows[..k]), period, rows[k])
    ensures PassOutput(st, period, rows[..k + 1])
      == PassOutput(st, period, rows[..k]) + StepOutput(PassAfter(st, period, rows[..k]), period, rows[k])
  {
    assert rows[..k + 1][..k] == rows[..k];
  }

  /** One more row of the loop over the rows: the state and the output follow the reference pass. */
  lemma FeedStep(base: seq<Closed>, start: PassState, period: int, rows: seq<Row>, k: nat,
                 st: PassState, out0: seq<Closed>, st': PassState, out1: seq<Closed>)
    requires k < |rows|
    requires st == PassAfter(start, period, rows[..k]) && out0 == base + PassOutput(start, period, rows[..k])
    requires st' == StepState(st, period, Row(rows[k].ip, rows[k].time))
    requires out1 == out0 + StepOutput(st, period, Row(rows[k].ip, rows[k].time))
    ensures st' == PassAfter(start, period, rows[..k + 1])
    ensures out1 == base + PassOutput(start, period, rows[..k + 1])
  {
    assert Row(rows[k].ip, rows[k].time) == rows[k];
    PassStep(start, period, rows, k);
    AppendAssoc(base, PassOutput(start, period, rows[..k]), StepOutput(st, period, rows[k]));
  }

  lemma AppendAssoc<T>(a: seq<T>, b: seq<T>, c: seq<T>)
    ensures (a + b) + c == a + (b + c)
  {
  }

  /** The ips of the input rows. */
  ghost function RowIps(rows: seq<Row>): set<string> {
    set j | 0 <= j < |rows| :: rows[j].ip
  }

  /** Every session of a rank-sorted batch is one of the set it arranges. */
  lemma InBatch(s: set<Closed>)
    ensures forall i :: 0 <= i < |SortedBatch(s)| ==> SortedBatch(s)[i] in s
  {
    var b := SortedBatch(s);
    forall i | 0 <= i < |b| ensures b[i] in s {
      assert b[i] in multiset(b);
    }
  }

  /**
   * A pass only ever opens sessions for the ips of its rows: if the starting
   * table's ips and the rows' ips all lie in `ips`, so do those of the final
   * table and of every session written.
   */
  lemma {:induction false} PassIps(st: PassState, period: int, rows: seq<Row>, ips: set<string>)
    requires forall ip :: ip in st.table ==> ip in ips
    requires forall j :: 0 <= j < |rows| ==> rows[j].ip in ips
    ensures forall ip :: ip in PassAfter(st, period, rows).table ==> ip in ips
    ensures forall i :: 0 <= i < |PassOutput(st, period, rows)| ==> PassOutput(st, period, rows)[i].ip in ips
    decreases |rows|
  {
    if rows != [] {
      var prefix, r := rows[..|rows| - 1], rows[|rows| - 1];
      PassIps(st, period, prefix, ips);
      var mid := PassAfter(st, period, prefix);
      if r.time.Some? && r.time.value != mid.clock {
        InBatch(Expired(mid.table, r.time.value, period));
      }
    }
  }

  /** What a whole run writes: the batches of the pass, then the drained table. */
  lemma RunWritten(period: int, rows: seq<Row>, fed: seq<Closed>, st: PassState, written: seq<Closed>)
    requires fed == [] + PassOutput(PassState(map[], 0, 0), period, rows)
    requires st == PassAfter(PassState(map[], 0, 0), period, rows)
    requires written == fed + SortedBatch(Entries(st.table))
    ensures written == PassOutput(Start, period, rows) + SortedBatch(Entries(PassAfter(Start, period, rows).table))
  {
    assert fed == PassOutput(Start, period, rows);
  }

  /**
   * The sessions of a whole run belong to the rows' ips, and their lines read
   * back as the sessions when no ip holds a comma.
   */
  lemma RunReadsBack(period: int, rows: seq<Row>, written: seq<Closed>)
    requires written == PassOutput(Start, period, rows) + SortedBatch(Entries(PassAfter(Start, period, rows).table))
    ensures forall i :: 0 <= i < |written| ==> written[i].ip in RowIps(rows)
    ensures (forall j :: 0 <= j < |rows| ==> ',' !in rows[j].ip) ==> forall i :: 0 <= i < |written| ==>
      ParseLine(Lines(written)[i]) == Some(Fields(written[i].ip, written[i].s.first, written[i].s.last, written[i].s.dur, written[i].s.count))
  {
    var fed, st := PassOutput(Start, period, rows), PassAfter(Start, period, rows);
    PassIps(Start, period, rows, RowIps(rows));
    InBatch(Entries(st.table));
    assert forall i :: 0 <= i < |written| ==> written[i].ip in RowIps(rows) by {
      forall i | 0 <= i < |written| ensures written[i].ip in RowIps(rows) {
        if i >= |fed| {
          assert written[i] == SortedBatch(Entries(st.table))[i - |fed|];
        } else {
          assert written[i] == fed[i];
        }
      }
    }
    if forall j :: 0 <= j < |rows| ==> ',' !in rows[j].ip {
      forall i | 0 <= i < |written| ensures ',' !in written[i].ip {
        var j :| 0 <= j < |rows| && rows[j].ip == written[i].ip;
      }
      LinesParse(written);
    }
  }

  /** Every written line reads back as its session's five values when no ip holds a comma. */
  lemma LinesParse(written: seq<Closed>)
    requires forall i :: 0 <= i < |written| ==> ',' !in written[i].ip
    ensures forall i :: 0 <= i < |written| ==>
      ParseLine(Lines(written)[i]) == Some(Fields(written[i].ip, written[i].s.first, written[i].s.last, written[i].s.dur, written[i].s.count))
  {
    forall i | 0 <= i < |written|
      ensures ParseLine(Lines(written)[i]) == Some(Fields(written[i].ip, written[i].s.first, written[i].s.last, written[i].s.dur, written[i].s.count))
    {
      var c := written[i];
      CreateLineRoundTrip(c.ip, c.s.first, c.s.last, c.s.dur, c.s.count);
    }
  }

  /** The valid rows come in time order, as the input is promised to. */
  ghost predicate NonDecreasing(rows: seq<Row>) {
    forall i, j :: 0 <= i < j < |rows| && rows[i].time.Some? && rows[j].time.Some? ==>
      rows[i].time.value <= rows[j].time.value
  }

  /** Every valid row is at or after `clock`. */
  ghost predicate AtOrAfter(rows: seq<Row>, clock: nat) {
    forall j :: 0 <= j < |rows| && rows[j].time.Some? ==> clock <= rows[j].time.value
  }

  /** After row k the clock is that row's time if it is valid, and the later valid rows are still at or after it. */
  lemma ClockStep(rows: seq<Row>, k: nat, clock: nat)
    requires NonDecreasing(rows) && k < |rows| && AtOrAfter(rows[k..], clock)
    ensures rows[k].time.Some? ==> clock <= rows[k].time.value && AtOrAfter(rows[k + 1..], rows[k].time.value)
    ensures AtOrAfter(rows[k + 1..], clock)
  {
    var rest, tail := rows[k..], rows[k + 1..];
    assert rest[0] == rows[k];
    forall j | 0 <= j < |tail| && tail[j].time.Some?
      ensures clock <= tail[j].time.value
      ensures rows[k].time.Some? ==> rows[k].time.value <= tail[j].time.value
    {
      assert tail[j] == rest[j + 1] == rows[k + 1 + j];
    }
  }

  /** Each written session holds at least one request, so there are no more sessions than requests. */
  lemma {:induction false} SeqSumCovers(cs: seq<Closed>)
    requires forall i :: 0 <= i < |cs| ==> WellFormed(cs[i].s)
    ensures SeqSum(cs) >= |cs|
    decreases |cs|
  {
    if cs != [] {
      SeqSumCovers(cs[..|cs| - 1]);
    }
  }

  /** What the written sessions of a whole run amount to, once every session is written. */
  lemma RunOutcome(written: seq<Closed>, rows: seq<Row>, obs: nat)
    requires AllWritten(written, obs, ValidCount(rows))
    ensures |Lines(written)| <= ValidCount(rows) && (Lines(written) == [] <==> ValidCount(rows) == 0)
    ensures forall i :: 0 <= i < |written| ==> WellFormed(written[i].s) && 1 <= written[i].s.obs <= |written|
    ensures forall i, j :: 0 <= i < j < |written| ==> written[i].s.obs != written[j].s.obs
  {
    SeqSumCovers(written);
  }

  /**
   * The pass over the rows and the final drain (lines 71-138) for a checked
   * period: the sessions written, and the last rank handed out.
   */
  method Sessionize(period: int, rows: seq<Row>) returns (written: seq<Closed>, obs: nat)
    requires ValidPeriod(period)
    ensures written == PassOutput(Start, period, rows) + SortedBatch(Entries(PassAfter(Start, period, rows).table))
    ensures AllWritten(written, obs, ValidCount(rows))
    ensures NonDecreasing(rows) ==> forall i :: 0 <= i < |written| ==> written[i].s.first <= written[i].s.last
  {
    var p := new Sessionizer(period);
    assert AtOrAfter(rows, 0);
    p.Feed(rows);
    ghost var fed, st := p.out, PassState(p.table, p.obs, p.lastTime);
    p.Drain();
    written, obs := p.out, p.obs;
    RunWritten(period, rows, fed, st, written);
  }

  /**
   * The whole program on already-parsed rows (lines 37-43 and 71-138): check
   * the period, run every row through the pass, drain, and return the lines
   * written together with the sessions they describe.
   */
  method Run(period: int, rows: seq<Row>) returns (r: Result<seq<string>, ConfigError>, written: seq<Closed>)
    ensures r.Failure? <==> !(1 <= period <= 86400)
    ensures r.Failure? ==> r.error == PeriodOutOfRange(period) && written == []
    ensures r.Success? ==> r.value == Lines(written)
    ensures r.Success? ==> SeqSum(written) == ValidCount(rows)
    ensures r.Success? ==> |r.value| <= ValidCount(rows) && (r.value == [] <==> ValidCount(rows) == 0)
    ensures forall i :: 0 <= i < |written| ==> WellFormed(written[i].s) && 1 <= written[i].s.obs <= |written|
    ensures forall i, j :: 0 <= i < j < |written| ==> written[i].s.obs != written[j].s.obs
    ensures NonDecreasing(rows) ==> forall i :: 0 <= i < |written| ==> written[i].s.first <= written[i].s.last
    ensures r.Success? ==> written == PassOutput(Start, period, rows) + SortedBatch(Entries(PassAfter(Start, period, rows).table))
    ensures forall i :: 0 <= i < |written| ==> written[i].ip in RowIps(rows)
    ensures r.Success? && (forall j :: 0 <= j < |rows| ==> ',' !in rows[j].ip) ==> forall i :: 0 <= i < |r.value| ==>
      ParseLine(r.value[i]) == Some(Fields(written[i].ip, written[i].s.first, written[i].s.last, written[i].s.dur, written[i].s.count))
  {
    var checked := CheckPeriod(period);
    if checked.Failure? {
      return Failure(checked.error), [];
    }
    var obs;
    written, obs := Sessionize(period, rows);
    RunOutcome(written, rows, obs);
    RunReadsBack(period, rows, written);
    r := Success(Lines(written));
  }
}
