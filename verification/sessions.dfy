/**
 * Sessions and the table of open sessions, one per ip (`dic_ips`,
 * Track_EDGAR.py, line 71), as values. Times are whole seconds since
 * 0001-01-01 00:00:00, the earliest instant the source's date format can name.
 * These functions say what one expiry pass and one fold do to the table; the
 * class in sessionizer.dfy carries them out in place.
 */
module Sessions {

  /**
   * An open or closed session: first and last request time, number of
   * requests, inclusive duration in seconds and first-seen rank `obs`.
   */
  datatype Session = Session(first: nat, last: nat, count: nat, dur: int, obs: nat)

  /** A session together with the ip it belongs to, as it is handed to the output. */
  datatype Closed = Closed(ip: string, s: Session)

  type Table = map<string, Session>

  /** What every session satisfies: at least one request, duration inclusive of both ends. */
  predicate WellFormed(s: Session) {
    s.count >= 1 && s.dur == s.last - s.first + 1
  }

  /** A session is stale at `now` when its gap strictly exceeds the period (line 108). */
  predicate Stale(s: Session, now: int, period: int) {
    now - s.last > period
  }

  /** The table after an expiry pass at `now` (lines 107-112). */
  function Survivors(m: Table, now: int, period: int): (r: Table)
    ensures forall ip :: ip in r <==> ip in m && now - m[ip].last <= period
    ensures forall ip :: ip in r ==> r[ip] == m[ip]
  {
    map ip | ip in m && !Stale(m[ip], now, period) :: m[ip]
  }

  /**
   * The table a valid row at `now` is folded into: the survivors of an expiry
   * pass when `now` differs from the last valid time `clock`, the table as it
   * is otherwise (line 103).
   */
  function Live(m: Table, now: int, clock: int, period: int): Table {
    if now != clock then Survivors(m, now, period) else m
  }

  /** The sessions an expiry pass at `now` removes and hands to the output. */
  ghost function Expired(m: Table, now: int, period: int): set<Closed> {
    set ip | ip in m && Stale(m[ip], now, period) :: Closed(ip, m[ip])
  }

  /** Every open session, as the final drain hands them to the output (lines 133-137). */
  ghost function Entries(m: Table): set<Closed> {
    set ip | ip in m :: Closed(ip, m[ip])
  }

  /** The session a new ip starts at `t` with the next rank (lines 118-119). */
  function Open(t: nat, counter: nat): (s: Session)
    ensures WellFormed(s) && s.first == s.last == t && s.count == 1 && s.dur == 1
    ensures s.obs == counter + 1
  {
    Session(t, t, 1, 1, counter + 1)
  }

  /** An open session extended by one more request at `t` (lines 123-126). */
  function Extend(s: Session, t: nat): (s': Session)
    ensures WellFormed(s') && s'.last == t && s'.count == s.count + 1
    ensures s'.first == s.first && s'.obs == s.obs
    ensures s.first <= t ==> s'.first <= s'.last
  {
    Session(s.first, t, s.count + 1, t - s.first + 1, s.obs)
  }

  /** The table after folding the request (ip, t) into it (lines 117-126). */
  function Folded(m: Table, ip: string, t: nat, counter: nat): (r: Table)
    ensures r.Keys == m.Keys + {ip}
    ensures forall other :: other in m && other != ip ==> r[other] == m[other]
    ensures ip !in m ==> r[ip] == Open(t, counter)
    ensures ip in m ==> r[ip] == Extend(m[ip], t)
  {
    if ip in m then m[ip := Extend(m[ip], t)] else m[ip := Open(t, counter)]
  }

  /**
   * The rank counter after the fold (line 120): it grows by the number of ips
   * the fold adds to the table, so it counts the sessions created.
   */
  function NextCounter(m: Table, ip: string, counter: nat): (n: nat)
    ensures n == counter + |(m.Keys + {ip}) - m.Keys|
  {
    if ip in m then
      assert (m.Keys + {ip}) - m.Keys == {};
      counter
    else
      assert (m.Keys + {ip}) - m.Keys == {ip};
      counter + 1
  }

  /**
   * The expiry boundary: a gap equal to the period keeps the session, one
   * second more closes it.
   */
  lemma ExpiryBoundary(m: Table, ip: string, now: int, period: int)
    requires ip in m
    ensures now - m[ip].last == period ==> ip in Survivors(m, now, period) && Closed(ip, m[ip]) !in Expired(m, now, period)
    ensures now - m[ip].last == period + 1 ==> ip !in Survivors(m, now, period) && Closed(ip, m[ip]) in Expired(m, now, period)
  {
  }

  /** Each open session either survives the pass or is expired, never both. */
  lemma ExpirySplits(m: Table, now: int, period: int)
    ensures forall ip :: ip in m ==> (ip in Survivors(m, now, period) <==> Closed(ip, m[ip]) !in Expired(m, now, period))
    ensures forall c :: c in Expired(m, now, period) ==> c.ip in m && c.s == m[c.ip] && c.ip !in Survivors(m, now, period)
  {
  }

  /** A second expiry pass at the same instant removes nothing and changes nothing. */
  lemma ExpiryIdempotent(m: Table, now: int, period: int)
    ensures Survivors(Survivors(m, now, period), now, period) == Survivors(m, now, period)
    ensures Expired(Survivors(m, now, period), now, period) == {}
  {
  }

  /**
   * With time-ordered input the open sessions stay ordered: folding a request
   * no earlier than the previous one keeps every session's first <= last, and
   * no session ends after the new request.
   */
  lemma FoldKeepsOrder(m: Table, ip: string, t: nat, counter: nat, lastTime: nat)
    requires forall k :: k in m ==> m[k].first <= m[k].last <= lastTime
    requires lastTime <= t
    ensures forall k :: k in Folded(m, ip, t, counter) ==>
      Folded(m, ip, t, counter)[k].first <= Folded(m, ip, t, counter)[k].last <= t
  {
    var r := Folded(m, ip, t, counter);
    forall k | k in r ensures r[k].first <= r[k].last <= t {
      if k != ip {
        assert r[k] == m[k];
      }
    }
  }
}
