/**
  Two limits: the fixed-window counter in Redis, and the number of e-mail jobs per day.
 */
module RateLimit {
  import opened Basics
  import opened Wrappers

  type Time = int

  // ----- The Redis counter -------------------------------------------------------------

  /** History of an admitted request: when, in which life of the key, and as which increment. */
  datatype Entry = Entry(at: Time, period: nat, ordinal: nat)

  /**
    The key, whether the EXPIRE of its first increment is still to come, the history of the
    admitted requests, and when each life of the key began.
   */
  datatype State = State(
    now: Time,
    count: nat,
    expiresAt: Option<Time>,
    expireOwed: bool,
    admitted: seq<Entry>,
    starts: seq<Time>)

  /** INCR and EXPIRE are two commands; an answer that does not arrive admits no one. */
  datatype Event = Incr(at: Time, answered: bool) | Expire(at: Time)

  /** Time passes, and the key is gone once its time is up. */
  function At(s: State, at: Time): State {
    var t := s.(now := at);
    if s.expiresAt != None && s.expiresAt.value <= at then t.(count := 0, expiresAt := None, expireOwed := false) else t
  }

  /** INCR, before anyone is admitted: a new life of the key, or one more in the present one. */
  function Counted(t: State, at: Time): State {
    var u := if t.count == 0 then t.(starts := t.starts + [at], expireOwed := true) else t;
    u.(count := t.count + 1)
  }

  /** The request just counted is admitted if the count is within the limit. */
  function Admitted(u: State, at: Time, limit: int): State {
    if u.count <= limit && |u.starts| > 0
    then u.(admitted := u.admitted + [Entry(at, |u.starts| - 1, u.count)]) else u
  }

  function Step(s: State, e: Event, limit: int, window: nat): State {
    if e.at < s.now then s
    else
      var t := At(s, e.at);
      match e
      case Expire(at) => if t.expireOwed then t.(expiresAt := Some(at + window), expireOwed := false) else t
      case Incr(at, answered) => if answered then Admitted(Counted(t, at), at, limit) else Counted(t, at)
  }

  function Run(s: State, events: seq<Event>, limit: int, window: nat): State
    decreases |events|
  {
    if |events| == 0 then s
    else Step(Run(s, events[..|events| - 1], limit, window), events[|events| - 1], limit, window)
  }

  const NEVER_USED: State := State(0, 0, None, false, [], [])

  predicate EntryOk(s: State, e: Entry, limit: int) {
    && e.period < |s.starts| && 1 <= e.ordinal <= limit
    && s.starts[e.period] <= e.at <= s.now
    && (e.ordinal == 1 ==> e.at == s.starts[e.period])
    && (e.period + 1 < |s.starts| ==> e.at <= s.starts[e.period + 1])
    && (e.period + 1 == |s.starts| && s.count > 0 ==> e.ordinal <= s.count)
  }

  predicate Follows(a: Entry, b: Entry) {
    a.at <= b.at && (a.period < b.period || (a.period == b.period && a.ordinal < b.ordinal))
  }

  ghost predicate EntriesOk(s: State, limit: int) {
    forall e | e in s.admitted :: EntryOk(s, e, limit)
  }

  ghost predicate Ordered(admitted: seq<Entry>) {
    forall i | 0 <= i < |admitted| - 1 :: Follows(admitted[i], admitted[i + 1])
  }

  /** Lives of the key are at least a window apart, and the present one is not over early. */
  ghost predicate PeriodsOk(s: State, window: nat) {
    && (forall p | 0 <= p < |s.starts| :: s.starts[p] <= s.now)
    && (forall p {:trigger s.starts[p]} | 0 <= p < |s.starts| - 1 :: s.starts[p] + window <= s.starts[p + 1])
    && (s.count > 0 ==> |s.starts| > 0)
    && (s.count == 0 ==> s.expiresAt == None && !s.expireOwed)
    && (s.expireOwed ==> s.expiresAt == None)
    && (s.count > 0 && s.expiresAt == None ==> s.expireOwed)
    && (s.count == 0 && |s.starts| > 0 ==> s.starts[|s.starts| - 1] + window <= s.now)
    && (s.expiresAt != None ==> |s.starts| > 0 && s.starts[|s.starts| - 1] + window <= s.expiresAt.value)
  }

  ghost predicate Inv(s: State, limit: int, window: nat) {
    EntriesOk(s, limit) && Ordered(s.admitted) && PeriodsOk(s, window)
  }

  lemma AtKeepsInv(s: State, at: Time, limit: int, window: nat)
    requires Inv(s, limit, window) && s.now <= at
    ensures Inv(At(s, at), limit, window)
  {
    var t := At(s, at);
    forall e | e in t.admitted ensures EntryOk(t, e, limit) { assert EntryOk(s, e, limit); }
  }

  lemma CountedKeepsInv(t: State, at: Time, limit: int, window: nat)
    requires Inv(t, limit, window) && t.now == at
    ensures Inv(Counted(t, at), limit, window)
  {
    var u := Counted(t, at);
    forall e | e in u.admitted ensures EntryOk(u, e, limit) { assert EntryOk(t, e, limit); }
  }

  /** Nobody has yet been admitted as the increment that was just made. */
  lemma OrdinalIsNew(t: State, at: Time, limit: int, window: nat)
    requires Inv(t, limit, window)
    ensures forall e | e in t.admitted && e.period == |Counted(t, at).starts| - 1 :: e.ordinal < Counted(t, at).count
  {
    forall e | e in t.admitted ensures EntryOk(t, e, limit) { }
  }

  lemma AdmitOrdered(admitted: seq<Entry>, e: Entry)
    requires Ordered(admitted)
    requires |admitted| > 0 ==> Follows(admitted[|admitted| - 1], e)
    ensures Ordered(admitted + [e])
  {
    var all := admitted + [e];
    forall i | 0 <= i < |all| - 1 ensures Follows(all[i], all[i + 1]) {
      if i + 1 < |admitted| { assert Follows(admitted[i], admitted[i + 1]); }
    }
  }

  /** The increment just made may be admitted: it comes after every admission so far. */
  lemma AdmitKeepsInv(u: State, limit: int, window: nat)
    requires Inv(u, limit, window) && 0 < u.count <= limit
    requires u.count == 1 ==> u.starts[|u.starts| - 1] == u.now
    requires forall e | e in u.admitted && e.period == |u.starts| - 1 :: e.ordinal < u.count
    ensures Inv(u.(admitted := u.admitted + [Entry(u.now, |u.starts| - 1, u.count)]), limit, window)
  {
    var e := Entry(u.now, |u.starts| - 1, u.count);
    var end := u.(admitted := u.admitted + [e]);
    forall x | x in end.admitted ensures EntryOk(end, x, limit) {
      if x in u.admitted { assert EntryOk(u, x, limit); }
    }
    if |u.admitted| > 0 {
      var last := u.admitted[|u.admitted| - 1];
      assert last in u.admitted && EntryOk(u, last, limit);
    }
    AdmitOrdered(u.admitted, e);
  }

  lemma ExpireKeepsInv(t: State, limit: int, window: nat)
    requires Inv(t, limit, window) && t.expireOwed
    ensures Inv(t.(expiresAt := Some(t.now + window), expireOwed := false), limit, window)
  {
    var end := t.(expiresAt := Some(t.now + window), expireOwed := false);
    forall e | e in end.admitted ensures EntryOk(end, e, limit) { assert EntryOk(t, e, limit); }
  }

  lemma IncrKeepsInv(t: State, at: Time, limit: int, window: nat)
    requires Inv(t, limit, window) && t.now == at
    ensures Inv(Counted(t, at), limit, window) && Inv(Admitted(Counted(t, at), at, limit), limit, window)
  {
    CountedKeepsInv(t, at, limit, window);
    if t.count + 1 <= limit {
      OrdinalIsNew(t, at, limit, window);
      AdmitKeepsInv(Counted(t, at), limit, window);
    }
  }

  lemma StepKeepsInv(s: State, e: Event, limit: int, window: nat)
    requires Inv(s, limit, window)
    ensures Inv(Step(s, e, limit, window), limit, window)
  {
    if e.at >= s.now {
      AtKeepsInv(s, e.at, limit, window);
      var t := At(s, e.at);
      if e.Incr? {
        IncrKeepsInv(t, e.at, limit, window);
      } else if t.expireOwed {
        ExpireKeepsInv(t, limit, window);
      }
    }
  }

  lemma {:induction false} RunKeepsInv(events: seq<Event>, limit: int, window: nat)
    ensures Inv(Run(NEVER_USED, events, limit, window), limit, window)
    decreases |events|
  {
    if |events| > 0 {
      RunKeepsInv(events[..|events| - 1], limit, window);
      StepKeepsInv(Run(NEVER_USED, events[..|events| - 1], limit, window), events[|events| - 1], limit, window);
    }
  }

  /** Along the history, each entry takes at least one of the `limit` places of a period. */
  lemma {:induction false} PlacesUsed(s: State, limit: int, window: nat, i: nat, j: nat)
    requires Inv(s, limit, window) && i <= j < |s.admitted|
    ensures var a, b := s.admitted[i], s.admitted[j];
      a.at <= b.at && b.period * limit + b.ordinal >= a.period * limit + a.ordinal + (j - i) && limit > 0
    decreases j
  {
    assert s.admitted[j] in s.admitted;
    assert EntryOk(s, s.admitted[j], limit);
    if i < j {
      PlacesUsed(s, limit, window, i, j - 1);
      var a, b := s.admitted[j - 1], s.admitted[j];
      assert a in s.admitted && EntryOk(s, a, limit) && Follows(a, b);
      if a.period < b.period { MorePeriods(a.period, b.period, limit); }
    }
  }

  lemma MorePeriods(p: nat, q: nat, limit: int)
    requires p < q && limit > 0
    ensures q * limit >= p * limit + limit
  {
    assert (q - p - 1) * limit >= 0;
  }

  lemma FewPeriods(p: nat, q: nat, gap: int, limit: int)
    requires limit > 0 && q * limit >= p * limit + gap
    ensures gap >= limit ==> q >= p + 1
    ensures gap > limit ==> q >= p + 2
  {
    if q <= p { assert (p - q) * limit >= 0; }
    if q == p + 1 { assert q * limit == p * limit + limit; }
  }

  lemma {:induction false} StartsApart(s: State, limit: int, window: nat, p: nat, q: nat)
    requires Inv(s, limit, window) && p < q < |s.starts|
    ensures s.starts[p] + window <= s.starts[q]
    decreases q
  {
    if p + 1 < q { StartsApart(s, limit, window, p, q - 1); }
  }

  /** Any 2 * limit consecutive admissions take at least one window. */
  lemma SpanOfAdmissions(s: State, limit: int, window: nat, i: nat)
    requires Inv(s, limit, window) && limit > 0 && i + 2 * limit - 1 < |s.admitted|
    ensures s.admitted[i].at + window <= s.admitted[i + 2 * limit - 1].at
  {
    var j := i + 2 * limit - 1;
    var a, b := s.admitted[i], s.admitted[j];
    PlacesUsed(s, limit, window, i, j);
    assert a in s.admitted && b in s.admitted;
    assert EntryOk(s, a, limit) && EntryOk(s, b, limit);
    FewPeriods(a.period, b.period, limit + a.ordinal - 1, limit);
    if a.ordinal == 1 {
      StartsApart(s, limit, window, a.period, b.period);
    } else {
      StartsApart(s, limit, window, a.period + 1, b.period);
    }
  }

  /** The n numbers from `first` on. */
  function Range(first: nat, n: nat): (r: set<nat>)
    ensures |r| == n
    ensures forall i: nat :: i in r <==> first <= i < first + n
  {
    if n == 0 then {} else Range(first, n - 1) + {first + n - 1}
  }

  /** Indices of admissions in a half-open interval. */
  function Within(times: seq<Time>, from: Time, to: Time): set<nat> {
    set i: nat | i < |times| && from <= times[i] < to
  }

  function Times(s: State): seq<Time> {
    seq(|s.admitted|, i requires 0 <= i < |s.admitted| => s.admitted[i].at)
  }

  ghost predicate Sorted(times: seq<Time>) {
    forall i, j | 0 <= i <= j < |times| :: times[i] <= times[j]
  }

  /** If any n + 1 consecutive times span the interval's length, it holds at most n of them. */
  lemma AtMostInInterval(times: seq<Time>, n: nat, from: Time, to: Time)
    requires Sorted(times) && Spread(times, n, to - from) && n > 0
    ensures |Within(times, from, to)| <= n
  {
    var chosen := Within(times, from, to);
    if chosen != {} {
      var first := Least(chosen);
      forall i | first + n <= i < |times| ensures times[i] >= times[first] + (to - from) {
        assert times[first] + (to - from) <= times[first + n] <= times[i];
      }
      assert chosen <= Range(first, n);
      SubsetCount(chosen, Range(first, n));
    }
  }

  lemma {:induction false} Least(s: set<nat>) returns (m: nat)
    requires s != {}
    ensures m in s && forall i | i in s :: m <= i
  {
    var k :| k in s;
    m := k;
    if s - {k} != {} {
      var rest := Least(s - {k});
      m := if rest < k then rest else k;
      assert forall i | i in s :: i == k || i in s - {k};
    } else {
      assert s == {k};
    }
  }

  /** Any n + 1 consecutive times take at least this long. */
  ghost predicate Spread(times: seq<Time>, n: nat, length: int) {
    forall i, j | 0 <= i < j < |times| && j == i + n :: times[i] + length <= times[j]
  }

  lemma TimesAreSpread(s: State, limit: int, window: nat)
    requires Inv(s, limit, window) && limit > 0
    ensures Sorted(Times(s)) && Spread(Times(s), 2 * limit - 1, window)
  {
    var times := Times(s);
    forall i, j | 0 <= i <= j < |times| ensures times[i] <= times[j] { PlacesUsed(s, limit, window, i, j); }
    forall i, j | 0 <= i < j < |times| && j == i + (2 * limit - 1) ensures times[i] + window <= times[j] {
      SpanOfAdmissions(s, limit, window, i);
    }
  }

  /**
    At most 2 * limit - 1 requests are admitted in any half-open interval of one window's
    length, whatever the arrivals, however late EXPIRE comes, and even if it never comes.
   */
  lemma FixedWindowBound(events: seq<Event>, limit: int, window: nat, from: Time)
    requires limit > 0
    ensures |Within(Times(Run(NEVER_USED, events, limit, window)), from, from + window)| <= 2 * limit - 1
  {
    RunKeepsInv(events, limit, window);
    var s := Run(NEVER_USED, events, limit, window);
    TimesAreSpread(s, limit, window);
    AtMostInInterval(Times(s), 2 * limit - 1, from, from + window);
  }

  // ----- The bound is met --------------------------------------------------------------

  function Burst(at: Time, n: nat): seq<Event> {
    seq(n, _ => Incr(at, true))
  }

  /** Requests that all arrive at once are all admitted while the counter allows it. */
  lemma {:induction false} BurstAdmitted(before: seq<Event>, at: Time, n: nat, limit: int, window: nat)
    requires var s := Run(NEVER_USED, before, limit, window);
      s.now <= at && s.count > 0 && s.count + n <= limit && |s.starts| > 0
      && (s.expiresAt == None || s.expiresAt.value > at)
    ensures var s, t := Run(NEVER_USED, before, limit, window), Run(NEVER_USED, before + Burst(at, n), limit, window);
      && |t.admitted| == |s.admitted| + n && t.admitted[..|s.admitted|] == s.admitted
      && (forall i | |s.admitted| <= i < |t.admitted| :: t.admitted[i].at == at)
      && t.count == s.count + n && t.starts == s.starts && t.expiresAt == s.expiresAt
      && t.now == (if n == 0 then s.now else at)
  {
    if n == 0 {
      assert before + Burst(at, 0) == before;
    } else {
      BurstAdmitted(before, at, n - 1, limit, window);
      var all := before + Burst(at, n);
      assert all[..|all| - 1] == before + Burst(at, n - 1);
    }
  }

  lemma StepAfter(events: seq<Event>, e: Event, limit: int, window: nat)
    ensures Run(NEVER_USED, events + [e], limit, window)
         == Step(Run(NEVER_USED, events, limit, window), e, limit, window)
  {
    assert (events + [e])[..|events|] == events;
  }

  /** The first life of the key: one request at time 0, the others just before it expires. */
  lemma FirstLife(limit: int, window: nat) returns (events: seq<Event>)
    requires limit > 0 && window > 1
    ensures var s := Run(NEVER_USED, events, limit, window);
      && s.expiresAt == Some(window) && 0 <= s.now < window
      && |s.admitted| == limit
      && (forall i | 1 <= i < limit :: s.admitted[i].at == window - 1)
  {
    var opening := [Incr(0, true), Expire(0)];
    assert opening == [] + [Incr(0, true)] + [Expire(0)];
    StepAfter([], Incr(0, true), limit, window);
    StepAfter([] + [Incr(0, true)], Expire(0), limit, window);
    BurstAdmitted(opening, window - 1, limit - 1, limit, window);
    events := opening + Burst(window - 1, limit - 1);
  }

  /** The second life: as many requests as the limit allows, all at the moment it begins. */
  lemma SecondLife(limit: int, window: nat) returns (events: seq<Event>)
    requires limit > 0 && window > 1
    ensures var s := Run(NEVER_USED, events, limit, window);
      && |s.admitted| == 2 * limit
      && forall i | 1 <= i < 2 * limit :: s.admitted[i].at == if i < limit then window - 1 else window
  {
    var first := FirstLife(limit, window);
    var opening := first + [Incr(window, true)];
    StepAfter(first, Incr(window, true), limit, window);
    var begun := Run(NEVER_USED, opening, limit, window);
    assert begun.count == 1 && |begun.admitted| == limit + 1;
    BurstAdmitted(opening, window, limit - 1, limit, window);
    events := opening + Burst(window, limit - 1);
    var s := Run(NEVER_USED, events, limit, window);
    forall i | 1 <= i < 2 * limit ensures s.admitted[i].at == if i < limit then window - 1 else window {
      if i <= limit { assert s.admitted[i] == begun.admitted[i]; }
    }
  }

  /** For every limit and every window longer than one tick, some interval sees 2 * limit - 1 admissions. */
  lemma BoundIsMet(limit: int, window: nat) returns (events: seq<Event>)
    requires limit > 0 && window > 1
    ensures |Within(Times(Run(NEVER_USED, events, limit, window)), window - 1, 2 * window - 1)| == 2 * limit - 1
  {
    events := SecondLife(limit, window);
    var s := Run(NEVER_USED, events, limit, window);
    var range := Range(1, 2 * limit - 1);
    assert range <= Within(Times(s), window - 1, 2 * window - 1);
    SubsetCount(range, Within(Times(s), window - 1, 2 * window - 1));
    FixedWindowBound(events, limit, window, window - 1);
  }

  // ----- When EXPIRE is lost -----------------------------------------------------------

  predicate NoExpire(events: seq<Event>) {
    forall i | 0 <= i < |events| :: events[i].Incr?
  }

  /** A key without an expiry only counts up. */
  lemma {:induction false} OnlyCountsUp(s: State, events: seq<Event>, limit: int, window: nat)
    requires s.expiresAt == None && s.count > 0 && s.count >= limit && NoExpire(events)
    ensures var t := Run(s, events, limit, window);
      t.expiresAt == None && t.count >= s.count && t.admitted == s.admitted
    decreases |events|
  {
    if |events| > 0 {
      assert NoExpire(events[..|events| - 1]);
      OnlyCountsUp(s, events[..|events| - 1], limit, window);
    }
  }

  /**
    Once the limit is reached, every later request is refused for ever exactly when the
    key's EXPIRE is still owed and is never served: with an expiry set, a later request
    begins a new life of the key.
   */
  lemma RefusedForEverIff(s: State, limit: int, window: nat)
    requires Inv(s, limit, window) && 0 < limit <= s.count
    ensures s.expireOwed <==>
      forall later | NoExpire(later) :: Run(s, later, limit, window).admitted == s.admitted
  {
    if s.expireOwed {
      forall later | NoExpire(later) ensures Run(s, later, limit, window).admitted == s.admitted {
        OnlyCountsUp(s, later, limit, window);
      }
    } else {
      var at := if s.expiresAt.value >= s.now then s.expiresAt.value else s.now;
      var later := [Incr(at, true)];
      assert later[..0] == [] && NoExpire(later);
      assert Run(s, later, limit, window) == Step(s, Incr(at, true), limit, window);
      assert |Step(s, Incr(at, true), limit, window).admitted| == |s.admitted| + 1;
    }
  }

  /** If no EXPIRE ever arrives, no more than `limit` requests are admitted in the whole life of the limiter. */
  lemma {:induction false} WithoutExpiryOnlyTheLimit(events: seq<Event>, limit: int, window: nat)
    requires limit > 0 && NoExpire(events)
    ensures var s := Run(NEVER_USED, events, limit, window);
      s.expiresAt == None && |s.admitted| <= s.count && |s.admitted| <= limit
    decreases |events|
  {
    if |events| > 0 {
      assert NoExpire(events[..|events| - 1]);
      WithoutExpiryOnlyTheLimit(events[..|events| - 1], limit, window);
    }
  }

  // ----- E-mail jobs per day -----------------------------------------------------------

  /** The jobs enforceEmailDailyLimit counts: created no earlier than a day ago. */
  function Recent(sent: seq<Time>, now: Time, day: nat): nat {
    |Within(sent, now - day, now + 1)|
  }

  /** One transaction: refused when the last day already holds the limit; no limit when it is not positive. */
  function SendEmail(sent: seq<Time>, now: Time, limit: int, day: nat): seq<Time> {
    if |sent| > 0 && now < sent[|sent| - 1] then sent
    else if limit > 0 && Recent(sent, now, day) >= limit then sent
    else sent + [now]
  }

  function Sent(requests: seq<Time>, limit: int, day: nat): seq<Time>
    decreases |requests|
  {
    if |requests| == 0 then []
    else SendEmail(Sent(requests[..|requests| - 1], limit, day), requests[|requests| - 1], limit, day)
  }

  /** If the last n of the times are within the day, the count sees them all. */
  lemma RecentTail(sent: seq<Time>, n: nat, now: Time, day: nat)
    requires Sorted(sent) && n <= |sent| && (|sent| > 0 ==> sent[|sent| - 1] <= now)
    requires n > 0 ==> sent[|sent| - n] >= now - day
    ensures Recent(sent, now, day) >= n
  {
    var tail := Range(|sent| - n, n);
    assert tail <= Within(sent, now - day, now + 1);
    SubsetCount(tail, Within(sent, now - day, now + 1));
  }

  /** An e-mail job is created exactly when there is no limit or the last day has room; then it is the newest. */
  lemma EmailAcceptedIff(sent: seq<Time>, now: Time, limit: int, day: nat)
    requires |sent| > 0 ==> sent[|sent| - 1] <= now
    ensures var last := set i: nat | i < |sent| && now - day <= sent[i] <= now;
      SendEmail(sent, now, limit, day) == if limit <= 0 || |last| < limit then sent + [now] else sent
  {
    assert (set i: nat | i < |sent| && now - day <= sent[i] <= now) == Within(sent, now - day, now + 1);
  }

  lemma {:induction false} SentIsSpread(requests: seq<Time>, limit: int, day: nat)
    requires limit > 0
    ensures var sent := Sent(requests, limit, day); Sorted(sent) && Spread(sent, limit, day + 1)
    decreases |requests|
  {
    if |requests| > 0 {
      var before := Sent(requests[..|requests| - 1], limit, day);
      var now := requests[|requests| - 1];
      SentIsSpread(requests[..|requests| - 1], limit, day);
      var after := SendEmail(before, now, limit, day);
      if after != before && |before| >= limit && before[|before| - limit] >= now - day {
        RecentTail(before, limit, now, day);
      }
    }
  }

  /** In every closed interval of a day at most `limit` e-mail jobs are created. */
  lemma EmailDailyBound(requests: seq<Time>, limit: int, day: nat, from: Time)
    requires limit > 0
    ensures |Within(Sent(requests, limit, day), from, from + day + 1)| <= limit
  {
    SentIsSpread(requests, limit, day);
    AtMostInInterval(Sent(requests, limit, day), limit, from, from + day + 1);
  }

  // ----- The code ----------------------------------------------------------------------

  class RedisLimiter {
    const limit: int
    const window: nat
    var count: nat
    var expiresAt: Option<Time>
    ghost var state: State

    /** The key holds what the machine says once the time has been brought up to the machine's. */
    ghost predicate Valid()
      reads this
    {
      count == state.count && expiresAt == state.expiresAt && Inv(state, limit, window)
    }

    constructor (limit: int, window: nat)
      ensures Valid() && state == NEVER_USED && this.limit == limit && this.window == window
    {
      this.limit, this.window, count, expiresAt, state := limit, window, 0, None, NEVER_USED;
    }

    /** The INCR command; `answered` says whether the caller will get an answer. */
    method Increment(at: Time, ghost answered: bool) returns (n: nat)
      requires Valid() && state.now <= at
      modifies this
      ensures Valid() && state == Step(old(state), Incr(at, answered), limit, window) && n == state.count
      ensures n > 0 && (n == 1 ==> state.expireOwed && state.now == at)
      ensures n == count == if old(expiresAt).Some? && old(expiresAt).value <= at then 1 else old(count) + 1
    {
      StepKeepsInv(state, Incr(at, answered), limit, window);
      if expiresAt != None && expiresAt.value <= at { count, expiresAt := 0, None; }
      count := count + 1;
      n := count;
      state := Step(state, Incr(at, answered), limit, window);
    }

    /** The EXPIRE command. */
    method SetExpiry(at: Time)
      requires Valid() && state.now <= at && state.expireOwed
      modifies this
      ensures Valid() && state == Step(old(state), Expire(at), limit, window)
      ensures old(expiresAt).None? ==> expiresAt == Some(at + window) && count == old(count)
    {
      StepKeepsInv(state, Expire(at), limit, window);
      expiresAt := Some(at + window);
      state := Step(state, Expire(at), limit, window);
    }

    /** Allow: INCR, then EXPIRE after the first increment; an EXPIRE that fails refuses the request. */
    method Allow(at: Time, later: Time, expired: bool) returns (allowed: bool)
      requires Valid() && state.now <= at <= later
      modifies this
      ensures Valid()
      ensures allowed ==>
        && |state.starts| > 0
        && state.admitted == old(state.admitted) + [Entry(at, |state.starts| - 1, state.count)]
      ensures !allowed ==> state.admitted == old(state.admitted)
      ensures allowed <==> state.count <= limit && (state.count == 1 ==> expired)
      ensures count == if old(expiresAt).Some? && old(expiresAt).value <= at then 1 else old(count) + 1
      ensures count == 1 && expired ==> expiresAt == Some(later + window)
    {
      ghost var answered := expired || At(state, at).count > 0;
      var n := Increment(at, answered);
      if n == 1 {
        if !expired { return false; }
        SetExpiry(later);
      }
      allowed := n <= limit;
    }
  }
}
