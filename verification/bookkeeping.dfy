/**
 * What the pass keeps account of across the open table and the sessions it has
 * already written: the requests folded in (the sum of the `count`s) and the
 * first-seen ranks handed out (each rank 1..obs belongs to exactly one
 * session). Both are taken over the bag of every session opened so far, so
 * that writing a session, or writing a batch in another order, leaves them as
 * they are.
 */
module Bookkeeping {
  import opened Sessions

  /** Total of the request counts of written sessions. */
  function SeqSum(cs: seq<Closed>): nat {
    if cs == [] then 0 else SeqSum(cs[..|cs| - 1]) + cs[|cs| - 1].s.count
  }

  /** Every session opened so far: the written ones and the open ones. */
  ghost function AllSessions(done: seq<Closed>, m: Table): multiset<Closed> {
    multiset(done) + multiset(Entries(m))
  }

  /** Some session of a non-empty bag. */
  ghost function Pick(b: multiset<Closed>): (x: Closed)
    requires |b| > 0
    ensures x in b
  {
    var x :| x in b; x
  }

  /** Total of the request counts of a bag of sessions. */
  ghost function BagSum(b: multiset<Closed>): nat
    decreases |b|
  {
    if |b| == 0 then 0 else BagSum(b - multiset{Pick(b)}) + Pick(b).s.count
  }

  lemma BagRemoveBoth(b: multiset<Closed>, x: Closed, y: Closed)
    requires x in b && y in b - multiset{x}
    ensures y in b && x in b - multiset{y}
    ensures b - multiset{x} - multiset{y} == b - multiset{y} - multiset{x}
  {
  }

  /** Taking any one session out of the bag lowers the total by its count. */
  lemma {:induction false} BagSumRemove(b: multiset<Closed>, x: Closed)
    requires x in b
    ensures BagSum(b) == BagSum(b - multiset{x}) + x.s.count
    decreases |b|, 1
  {
    var y := Pick(b);
    if y != x {
      BagSumRemoveOther(b, y, x);
    }
  }

  /** The step of BagSumRemove when the definition took another session `y` first. */
  lemma {:induction false} BagSumRemoveOther(b: multiset<Closed>, y: Closed, x: Closed)
    requires y in b && x in b && y != x
    requires BagSum(b) == BagSum(b - multiset{y}) + y.s.count
    ensures BagSum(b) == BagSum(b - multiset{x}) + x.s.count
    decreases |b|, 0
  {
    BagRemoveBoth(b, y, x);
    BagSumRemove(b - multiset{y}, x);
    BagSumRemove(b - multiset{x}, y);
  }

  /** Adding a session to the bag adds its count to the total. */
  lemma BagSumAdd(b: multiset<Closed>, x: Closed)
    ensures BagSum(b + multiset{x}) == BagSum(b) + x.s.count
  {
    BagSumRemove(b + multiset{x}, x);
    assert b + multiset{x} - multiset{x} == b;
  }

  /** The total over the written sessions, in any order, is the total over their bag. */
  lemma {:induction false} SeqSumBag(cs: seq<Closed>)
    ensures SeqSum(cs) == BagSum(multiset(cs))
    decreases |cs|
  {
    if cs != [] {
      var p, x := cs[..|cs| - 1], cs[|cs| - 1];
      assert cs == p + [x];
      SeqSumBag(p);
      BagSumAdd(multiset(p), x);
    }
  }

  /**
   * The tally of a bag of sessions against the pass's counters: its sessions
   * hold the ranks 1..n, one each, and their request counts add up to
   * `events`. Read from the top: some session holds rank n, and the rest
   * tally to n - 1.
   */
  ghost predicate Tally(b: multiset<Closed>, n: nat, events: nat)
    decreases n, 1
  {
    if n == 0 then b == multiset{} && events == 0 else TopHeld(b, n, events)
  }

  /** Some session of the bag holds rank n, and the rest tally to n - 1. */
  ghost predicate TopHeld(b: multiset<Closed>, n: nat, events: nat)
    requires n > 0
    decreases n, 0
  {
    exists x :: x in b && x.s.obs == n && x.s.count <= events && Tally(b - multiset{x}, n - 1, events - x.s.count)
  }

  /** The session holding the top rank n of a tally, and the tally of the rest. */
  lemma TallyTop(b: multiset<Closed>, n: nat, events: nat) returns (w: Closed)
    requires Tally(b, n, events) && n > 0
    ensures w in b && w.s.obs == n && w.s.count <= events
    ensures Tally(b - multiset{w}, n - 1, events - w.s.count)
  {
    w :| w in b && w.s.obs == n && w.s.count <= events && Tally(b - multiset{w}, n - 1, events - w.s.count);
  }

  /** A session holding rank n on top of a tally of n - 1 ranks makes a tally of n. */
  lemma TallyBuild(b: multiset<Closed>, n: nat, events: nat, w: Closed)
    requires n > 0 && w in b && w.s.obs == n && w.s.count <= events
    requires Tally(b - multiset{w}, n - 1, events - w.s.count)
    ensures Tally(b, n, events)
  {
  }

  lemma InRest<T>(b: multiset<T>, w: T, x: T)
    requires x in b && x != w
    ensures x in b - multiset{w}
  {
    assert (b - multiset{w})[x] == b[x];
  }

  /** A tally of n ranks counts n sessions. */
  lemma {:induction false} TallySize(b: multiset<Closed>, n: nat, events: nat)
    requires Tally(b, n, events)
    ensures |b| == n
    decreases n
  {
    if n > 0 {
      var w := TallyTop(b, n, events);
      TallySize(b - multiset{w}, n - 1, events - w.s.count);
    }
  }

  /** Every session of a tally of n ranks holds a rank in 1..n. */
  lemma {:induction false} TallyRank(b: multiset<Closed>, n: nat, events: nat, x: Closed)
    requires Tally(b, n, events) && x in b
    ensures 1 <= x.s.obs <= n
    decreases n
  {
    var w := TallyTop(b, n, events);
    if x != w {
      InRest(b, w, x);
      TallyRank(b - multiset{w}, n - 1, events - w.s.count, x);
    }
  }

  /** No two sessions of a tallied bag share a rank. */
  lemma {:induction false} TallyDistinct(b: multiset<Closed>, n: nat, events: nat, x: Closed, y: Closed)
    requires Tally(b, n, events) && x in b && y in b - multiset{x}
    ensures x.s.obs != y.s.obs
    decreases n
  {
    var w := TallyTop(b, n, events);
    var rest := b - multiset{w};
    if x == w {
      TallyRank(rest, n - 1, events - w.s.count, y);
    } else if y == w {
      InRest(b, w, x);
      TallyRank(rest, n - 1, events - w.s.count, x);
    } else {
      InRest(b, w, x);
      assert rest - multiset{x} == b - multiset{x} - multiset{w};
      InRest(b - multiset{x}, w, y);
      TallyDistinct(rest, n - 1, events - w.s.count, x, y);
    }
  }

  /** The counts a tally adds up are the total of the bag. */
  lemma {:induction false} TallySum(b: multiset<Closed>, n: nat, events: nat)
    requires Tally(b, n, events)
    ensures BagSum(b) == events
    decreases n
  {
    if n == 0 {
      assert |b| == 0;
    } else {
      var w := TallyTop(b, n, events);
      TallySum(b - multiset{w}, n - 1, events - w.s.count);
      BagSumRemove(b, w);
    }
  }

  /** A new session holding the next rank and one row keeps the tally. */
  lemma TallyOpen(b: multiset<Closed>, n: nat, events: nat, c: Closed)
    requires Tally(b, n, events) && c.s.obs == n + 1 && c.s.count == 1
    ensures Tally(b + multiset{c}, n + 1, events + 1)
  {
    assert b + multiset{c} - multiset{c} == b;
  }

  /** Replacing a session by one with the same rank and one more row keeps the tally. */
  lemma {:induction false} TallyExtend(others: multiset<Closed>, n: nat, events: nat, was: Closed, now: Closed)
    requires Tally(others + multiset{was}, n, events)
    requires now.s.obs == was.s.obs && now.s.count == was.s.count + 1
    ensures Tally(others + multiset{now}, n, events + 1)
    decreases n, 1
  {
    var w := TallyTop(others + multiset{was}, n, events);
    if w == was {
      assert others + multiset{was} - multiset{w} == others == others + multiset{now} - multiset{now};
      TallyBuild(others + multiset{now}, n, events + 1, now);
    } else {
      TallyExtendBelow(others, n, events, was, now, w);
    }
  }

  /** The step of TallyExtend when the top rank is held by another session `w`. */
  lemma {:induction false} TallyExtendBelow(others: multiset<Closed>, n: nat, events: nat, was: Closed, now: Closed, w: Closed)
    requires now.s.obs == was.s.obs && now.s.count == was.s.count + 1
    requires n > 0 && w in others + multiset{was} && w != was && w.s.obs == n && w.s.count <= events
    requires Tally(others + multiset{was} - multiset{w}, n - 1, events - w.s.count)
    ensures Tally(others + multiset{now}, n, events + 1)
    decreases n, 0
  {
    var less, e := others - multiset{w}, events - w.s.count;
    SwapOut(others, w, was, now);
    InRest(others + multiset{was}, w, was);
    TallyRank(less + multiset{was}, n - 1, e, was);
    TallyExtend(less, n - 1, e, was, now);
    TallyBuild(others + multiset{now}, n, events + 1, w);
  }

  /** Taking `w` out before or after swapping `was` for `now`, when `w` is another session. */
  lemma SwapOut(others: multiset<Closed>, w: Closed, was: Closed, now: Closed)
    requires w in others + multiset{was} && w != was
    ensures w in others + multiset{now}
    ensures others + multiset{was} - multiset{w} == others - multiset{w} + multiset{was}
    ensures others + multiset{now} - multiset{w} == others - multiset{w} + multiset{now}
  {
    assert w in others;
  }

  /** The open sessions, as a bag, with one ip's session taken out. */
  lemma EntriesRemove(m: Table, ip: string)
    requires ip in m
    ensures multiset(Entries(m)) == multiset(Entries(m - {ip})) + multiset{Closed(ip, m[ip])}
  {
    var c := Closed(ip, m[ip]);
    var rest := Entries(m - {ip});
    assert c !in rest;
    forall x | x in Entries(m) ensures x in rest + {c} {
      if x.ip != ip {
        assert x.ip in m - {ip};
      }
    }
    assert c in Entries(m);
    assert Entries(m) == rest + {c};
  }

  /** The open sessions, as a bag, after an ip with no session gets one. */
  lemma EntriesAdd(m: Table, ip: string, s: Session)
    requires ip !in m
    ensures multiset(Entries(m[ip := s])) == multiset(Entries(m)) + multiset{Closed(ip, s)}
  {
    EntriesRemove(m[ip := s], ip);
    assert m[ip := s] - {ip} == m;
  }

  /**
   * Once nothing is open, the written sessions are exactly the sessions ever
   * opened: n of them, with pairwise distinct ranks in 1..n (so every rank
   * 1..n is held by exactly one of them), whose counts add up to `events`.
   */
  lemma TallyDrained(done: seq<Closed>, n: nat, events: nat)
    requires Tally(multiset(done), n, events)
    ensures |done| == n
    ensures forall i :: 0 <= i < |done| ==> 1 <= done[i].s.obs <= n
    ensures forall i, j :: 0 <= i < j < |done| ==> done[i].s.obs != done[j].s.obs
    ensures SeqSum(done) == events
  {
    TallySize(multiset(done), n, events);
    TallySum(multiset(done), n, events);
    SeqSumBag(done);
    forall i | 0 <= i < |done| ensures 1 <= done[i].s.obs <= n {
      TallyRank(multiset(done), n, events, done[i]);
    }
    forall i, j | 0 <= i < j < |done| ensures done[i].s.obs != done[j].s.obs {
      TwoPositions(done, i, j);
      TallyDistinct(multiset(done), n, events, done[j], done[i]);
    }
  }

  /** Two positions of a sequence are two members of its bag, even when they hold equal values. */
  lemma TwoPositions<T>(cs: seq<T>, i: nat, j: nat)
    requires i < j < |cs|
    ensures cs[j] in multiset(cs) && cs[i] in multiset(cs) - multiset{cs[j]}
  {
    var p := cs[..j];
    assert cs == p + [cs[j]] + cs[j + 1..];
    assert cs[i] == p[i];
    assert multiset(cs) - multiset{cs[j]} == multiset(p) + multiset(cs[j + 1..]);
  }
}
