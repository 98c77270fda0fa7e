/**
 * The limiter of public registration checks: an ordered, bounded cache of per-client windows, against
 * the unbounded counter it stands for. Time is a non-decreasing integer clock in seconds.
 */
module RateLimiter {
  import opened Common
  import opened GroupTypes

  const WINDOW := 60
  const PER_WINDOW := 20
  const MAX_CLIENTS := 10_000

  /** A value of the ordered dictionary together with its key. */
  datatype Client = Client(key: Token, start: int, count: nat, last: int)

  datatype Decision = Decision(clients: seq<Client>, allowed: bool)

  // ------------------------------------------------------------------------------------------
  // The limiter
  // ------------------------------------------------------------------------------------------

  /** The eviction loop: drop from the front while the front was last used a window ago. */
  function Evict(clients: seq<Client>, now: int): seq<Client> {
    if clients != [] && clients[0].last <= now - WINDOW then Evict(clients[1..], now) else clients
  }

  function Find(clients: seq<Client>, key: Token): Option<nat> {
    if clients == [] then None
    else if clients[0].key == key then Some(0)
    else
      match Find(clients[1..], key)
      case None => None
      case Some(i) => Some(i + 1)
  }

  lemma {:induction false} FindFinds(clients: seq<Client>, key: Token)
    ensures match Find(clients, key)
            case None => forall i :: 0 <= i < |clients| ==> clients[i].key != key
            case Some(i) => i < |clients| && clients[i].key == key
  {
    if clients != [] && clients[0].key != key {
      FindFinds(clients[1..], key);
      assert forall i :: 0 < i < |clients| ==> clients[i] == clients[1..][i - 1];
    }
  }

  function Without(clients: seq<Client>, i: nat): seq<Client> {
    if i < |clients| then clients[..i] + clients[i + 1..] else clients
  }

  /** `check`. */
  function Check(clients: seq<Client>, key: Token, now: int): Decision {
    var kept := Evict(clients, now);
    var at := Find(kept, key);
    var others := if at.Some? then Without(kept, at.value) else kept;
    var (start, count) := if at.Some? && at.value < |kept| then (kept[at.value].start, kept[at.value].count) else (now, 0);
    var (from, used) := if now >= start + WINDOW then (now, 0) else (start, count);
    if used >= PER_WINDOW || (at.None? && |others| >= MAX_CLIENTS) then
      Decision(if at.Some? then others + [Client(key, from, used, now)] else others, false)
    else Decision(others + [Client(key, from, used + 1, now)], true)
  }

  /** The one reason for a refusal that the counter does not know: the cache is full of recent clients. */
  predicate TurnedAway(clients: seq<Client>, key: Token, now: int) {
    Find(Evict(clients, now), key).None? && |Evict(clients, now)| >= MAX_CLIENTS
  }

  // ------------------------------------------------------------------------------------------
  // The counter it stands for
  // ------------------------------------------------------------------------------------------

  /** One allowed check: when, in the window begun when, and the how-manieth of that window. */
  datatype Pass = Pass(time: int, start: int, nth: nat)

  /** A client's next pass at `now`, given its earlier ones; None when its window is used up. */
  function NextPass(passes: seq<Pass>, now: int): Option<Pass> {
    if passes == [] then Some(Pass(now, now, 1))
    else
      var latest := passes[|passes| - 1];
      if now >= latest.start + WINDOW then Some(Pass(now, now, 1))
      else if latest.nth >= PER_WINDOW then None
      else Some(Pass(now, latest.start, latest.nth + 1))
  }

  // ------------------------------------------------------------------------------------------
  // Runs
  // ------------------------------------------------------------------------------------------

  datatype Request = Request(key: Token, now: int)

  ghost predicate Monotone(run: seq<Request>) {
    forall i, j :: 0 <= i < j < |run| ==> run[i].now <= run[j].now
  }

  function ClientsAfter(run: seq<Request>): seq<Client> {
    if run == [] then []
    else Check(ClientsAfter(run[..|run| - 1]), run[|run| - 1].key, run[|run| - 1].now).clients
  }

  /** What the limiter let through for one client, described by the counter. */
  function Passes(run: seq<Request>, key: Token): seq<Pass> {
    if run == [] then []
    else
      var before := run[..|run| - 1];
      var r := run[|run| - 1];
      var earlier := Passes(before, key);
      if r.key == key && Check(ClientsAfter(before), key, r.now).allowed && NextPass(earlier, r.now).Some?
      then earlier + [NextPass(earlier, r.now).value] else earlier
  }

  ghost predicate Ordered(clients: seq<Client>) {
    && (forall i, j :: 0 <= i < j < |clients| ==> clients[i].last <= clients[j].last)
    && (forall i, j :: 0 <= i < j < |clients| ==> clients[i].key != clients[j].key)
  }

  ghost predicate WellUsed(c: Client, now: int) {
    c.start <= c.last <= now && 1 <= c.count <= PER_WINDOW
  }

  /** With entries in order of last use, evicting from the front drops exactly the stale ones. */
  lemma {:induction false} EvictDropsStale(clients: seq<Client>, now: int) returns (n: nat)
    requires Ordered(clients)
    ensures n <= |clients| && Evict(clients, now) == clients[n..]
    ensures forall i :: 0 <= i < |clients| ==> (i < n <==> clients[i].last <= now - WINDOW)
  {
    if clients != [] && clients[0].last <= now - WINDOW {
      var m := EvictDropsStale(clients[1..], now);
      n := m + 1;
      assert clients[1..][m..] == clients[n..];
      assert forall i :: 0 < i < |clients| ==> clients[i] == clients[1..][i - 1];
    } else {
      n := 0;
    }
  }

  lemma WithoutKeepsOthers(clients: seq<Client>, i: nat)
    requires Ordered(clients) && i < |clients|
    ensures forall c :: c in Without(clients, i) <==> c in clients && c.key != clients[i].key
  {
    var rest := Without(clients, i);
    forall c
      ensures c in rest <==> c in clients && c.key != clients[i].key
    {
      if c in clients && c.key != clients[i].key {
        var j :| 0 <= j < |clients| && clients[j] == c;
        assert rest[if j < i then j else j - 1] == c;
      }
      if c in rest {
        var j :| 0 <= j < |rest| && rest[j] == c;
        assert c == clients[if j < i then j else j + 1];
      }
    }
  }

  lemma WithoutKeepsOrder(clients: seq<Client>, i: nat)
    requires Ordered(clients) && i < |clients|
    ensures Ordered(Without(clients, i)) && |Without(clients, i)| == |clients| - 1
    ensures forall c :: c in Without(clients, i) <==> c in clients && c.key != clients[i].key
  {
    WithoutKeepsOthers(clients, i);
    var rest := Without(clients, i);
    forall j, k | 0 <= j < k < |rest|
      ensures rest[j].last <= rest[k].last && rest[j].key != rest[k].key
    {
      assert rest[j] == clients[if j < i then j else j + 1] && rest[k] == clients[if k < i then k else k + 1];
    }
  }

  /** The cached window is the client's latest pass; a client that is not cached has no window still running. */
  ghost predicate Tracks(clients: seq<Client>, passes: seq<Pass>, key: Token, now: int) {
    && (forall c :: c in clients && c.key == key ==>
          passes != [] && c.start == passes[|passes| - 1].start && c.count == passes[|passes| - 1].nth)
    && ((forall c :: c in clients ==> c.key != key) && passes != [] ==> passes[|passes| - 1].start <= now - WINDOW)
  }

  ghost predicate Sound(clients: seq<Client>, now: int) {
    Ordered(clients) && |clients| <= MAX_CLIENTS && forall c :: c in clients ==> WellUsed(c, now)
  }

  lemma EvictKeepsRecent(clients: seq<Client>, now: int)
    requires Ordered(clients)
    ensures Ordered(Evict(clients, now)) && |Evict(clients, now)| <= |clients|
    ensures forall c :: c in Evict(clients, now) <==> c in clients && c.last > now - WINDOW
  {
    var n := EvictDropsStale(clients, now);
    hide Evict;
    var kept := clients[n..];
    forall i, j | 0 <= i < j < |kept|
      ensures kept[i].last <= kept[j].last && kept[i].key != kept[j].key
    {
      assert kept[i] == clients[n + i] && kept[j] == clients[n + j];
    }
    forall c
      ensures c in kept <==> c in clients && c.last > now - WINDOW
    {
      if c in clients && c.last > now - WINDOW {
        var i :| 0 <= i < |clients| && clients[i] == c;
        assert kept[i - n] == c;
      }
      if c in kept {
        var i :| 0 <= i < |kept| && kept[i] == c;
        assert clients[n + i] == c;
      }
    }
  }

  /** Evicting never loses a running window. */
  lemma EvictionLosesNothing(clients: seq<Client>, passes: seq<Pass>, key: Token, t: int, now: int)
    requires Sound(clients, t) && t <= now && Tracks(clients, passes, key, t)
    ensures Sound(Evict(clients, now), now) && Tracks(Evict(clients, now), passes, key, now)
  {
    EvictKeepsRecent(clients, now);
    hide Evict, Ordered;
    if c :| c in clients && c.key == key {
      assert WellUsed(c, t);
    }
  }

  lemma AppendedIsOrdered(others: seq<Client>, c: Client)
    requires Ordered(others) && forall o :: o in others ==> o.last <= c.last && o.key != c.key
    ensures Ordered(others + [c]) && forall o :: o in others + [c] <==> o in others || o == c
  {
    var all := others + [c];
    forall i, j | 0 <= i < j < |all|
      ensures all[i].last <= all[j].last && all[i].key != all[j].key
    {
      assert all[i] in others;
    }
  }

  /**
   * One check against one client's history: it is allowed exactly when the counter allows it and the
   * client is not turned away from a full cache; the cache stays ordered, bounded and in step.
   */
  lemma CheckRefinesCounter(clients: seq<Client>, key: Token, passes: seq<Pass>, t: int, now: int)
    requires Sound(clients, t) && t <= now && Tracks(clients, passes, key, t)
    ensures Check(clients, key, now).allowed <==> NextPass(passes, now).Some? && !TurnedAway(clients, key, now)
    ensures Sound(Check(clients, key, now).clients, now)
    ensures Tracks(Check(clients, key, now).clients,
                     if Check(clients, key, now).allowed then passes + [NextPass(passes, now).value] else passes, key, now)
    ensures forall c: Client :: c.key != key ==> (c in Check(clients, key, now).clients <==> c in Evict(clients, now))
  {
    EvictionLosesNothing(clients, passes, key, t, now);
    var kept := Evict(clients, now);
    hide Evict, Find, Sound, Tracks;
    FindFinds(kept, key);
    if Find(kept, key).Some? {
      var d := Check(clients, key, now);
      KnownClientIsCounted(kept, Find(kept, key).value, passes, now, d.clients[|d.clients| - 1], d.allowed);
    } else {
      NewClientIsCounted(kept, key, passes, now, Check(clients, key, now));
    }
  }

  /** A window moved to the end of the others. */
  lemma MovedStaysSound(kept: seq<Client>, i: nat, latest: Client, now: int)
    requires i < |kept| && Sound(kept, now) && latest.key == kept[i].key && WellUsed(latest, now) && latest.last == now
    ensures Sound(Without(kept, i) + [latest], now)
    ensures forall c :: c in Without(kept, i) + [latest] <==> (c in kept && c.key != kept[i].key) || c == latest
  {
    WithoutKeepsOrder(kept, i);
    hide Without, Ordered;
    var others := Without(kept, i);
    assert forall c :: c in others ==> c in kept && WellUsed(c, now);
    AppendedIsOrdered(others, latest);
  }

  /** A remembered client moves to the end with its window brought up to date. */
  lemma KnownClientIsCounted(kept: seq<Client>, i: nat, passes: seq<Pass>, now: int, latest: Client, allowed: bool)
    requires i < |kept| && Sound(kept, now) && Tracks(kept, passes, kept[i].key, now)
    requires var previous := kept[i];
             var (from, used) := if now >= previous.start + WINDOW then (now, 0) else (previous.start, previous.count);
             && allowed == (used < PER_WINDOW)
             && latest == Client(previous.key, from, if allowed then used + 1 else used, now)
    ensures allowed <==> NextPass(passes, now).Some?
    ensures Sound(Without(kept, i) + [latest], now)
    ensures Tracks(Without(kept, i) + [latest], if allowed then passes + [NextPass(passes, now).value] else passes, latest.key, now)
    ensures forall c: Client :: c.key != latest.key ==> (c in Without(kept, i) + [latest] <==> c in kept)
  {
    hide Without, Ordered, NextPass;
    assert kept[i] in kept && WellUsed(kept[i], now);
    CountedAlike(kept[i], passes, now, latest, allowed);
    MovedStaysSound(kept, i, latest, now);
    var passes' := if allowed then passes + [NextPass(passes, now).value] else passes;
    hide Sound;
    LatestIsTracked(Without(kept, i) + [latest], latest, passes', now);
  }

  /** One client's window and the counter's latest pass go on alike. */
  lemma CountedAlike(previous: Client, passes: seq<Pass>, now: int, latest: Client, allowed: bool)
    requires passes != [] && previous.start == passes[|passes| - 1].start && previous.count == passes[|passes| - 1].nth
    requires WellUsed(previous, now)
    requires var (from, used) := if now >= previous.start + WINDOW then (now, 0) else (previous.start, previous.count);
             && allowed == (used < PER_WINDOW)
             && latest == Client(previous.key, from, if allowed then used + 1 else used, now)
    ensures allowed <==> NextPass(passes, now).Some?
    ensures var passes' := if allowed then passes + [NextPass(passes, now).value] else passes;
            latest.start == passes'[|passes'| - 1].start && latest.count == passes'[|passes'| - 1].nth
    ensures WellUsed(latest, now)
  {
  }

  lemma LatestIsTracked(clients: seq<Client>, latest: Client, passes: seq<Pass>, now: int)
    requires latest in clients && forall c :: c in clients && c.key == latest.key ==> c == latest
    requires passes != [] && latest.start == passes[|passes| - 1].start && latest.count == passes[|passes| - 1].nth
    ensures Tracks(clients, passes, latest.key, now)
  {
  }

  /** A client not remembered starts a window, unless the cache is full. */
  lemma NewClientIsCounted(kept: seq<Client>, key: Token, passes: seq<Pass>, now: int, d: Decision)
    requires Sound(kept, now) && Tracks(kept, passes, key, now)
    requires forall i :: 0 <= i < |kept| ==> kept[i].key != key
    requires d == if |kept| >= MAX_CLIENTS then Decision(kept, false) else Decision(kept + [Client(key, now, 1, now)], true)
    ensures d.allowed <==> NextPass(passes, now).Some? && |kept| < MAX_CLIENTS
    ensures Sound(d.clients, now)
    ensures Tracks(d.clients, if d.allowed then passes + [NextPass(passes, now).value] else passes, key, now)
    ensures forall c: Client :: c.key != key ==> (c in d.clients <==> c in kept)
  {
    assert forall c :: c in kept ==> c.key != key;
    AppendedIsOrdered(kept, Client(key, now, 1, now));
    hide Ordered;
  }

  lemma {:induction false} LimiterIsSound(run: seq<Request>, key: Token)
    requires Monotone(run)
    ensures run != [] ==> Sound(ClientsAfter(run), run[|run| - 1].now) && Tracks(ClientsAfter(run), Passes(run, key), key, run[|run| - 1].now)
    ensures run == [] ==> ClientsAfter(run) == [] && Passes(run, key) == []
  {
    if run != [] {
      var before := run[..|run| - 1];
      var r := run[|run| - 1];
      var t := if before == [] then r.now else before[|before| - 1].now;
      LimiterIsSound(before, key);
      LimiterIsSound(before, r.key);
      var clients := ClientsAfter(before);
      assert Sound(clients, t) && Tracks(clients, Passes(before, key), key, t) && Tracks(clients, Passes(before, r.key), r.key, t);
      hide Check, NextPass;
      CheckRefinesCounter(clients, r.key, Passes(before, r.key), t, r.now);
      if key != r.key {
        EvictionLosesNothing(clients, Passes(before, key), key, t, r.now);
        OthersStay(Evict(clients, r.now), Check(clients, r.key, r.now).clients, Passes(before, key), key, r.key, r.now);
      }
    }
  }

  lemma OthersStay(kept: seq<Client>, after: seq<Client>, passes: seq<Pass>, key: Token, served: Token, now: int)
    requires key != served && Tracks(kept, passes, key, now)
    requires forall c: Client :: c.key != served ==> (c in after <==> c in kept)
    ensures Tracks(after, passes, key, now)
  {
  }

  /**
   * Along any run the limiter decides as the unbounded counter of that client alone would, except that
   * it refuses a client it does not remember while ten thousand others are in use.
   */
  lemma LimiterRefinesCounter(run: seq<Request>, i: nat)
    requires Monotone(run) && i < |run|
    ensures var clients := ClientsAfter(run[..i]);
            && |clients| <= MAX_CLIENTS && Ordered(clients)
            && (Check(clients, run[i].key, run[i].now).allowed <==>
                  NextPass(Passes(run[..i], run[i].key), run[i].now).Some? && !TurnedAway(clients, run[i].key, run[i].now))
  {
    LimiterIsSound(run[..i], run[i].key);
    hide Check, NextPass;
    var t := if i == 0 then run[i].now else run[i - 1].now;
    CheckRefinesCounter(ClientsAfter(run[..i]), run[i].key, Passes(run[..i], run[i].key), t, run[i].now);
  }

  // ------------------------------------------------------------------------------------------
  // What a client can get
  // ------------------------------------------------------------------------------------------

  ghost predicate Succeeds(a: Pass, b: Pass) {
    if b.start == a.start then b.nth == a.nth + 1 else b.start >= a.start + WINDOW && b.nth == 1
  }

  ghost predicate Counted(passes: seq<Pass>) {
    && (forall i :: 0 <= i < |passes| ==>
          1 <= passes[i].nth <= PER_WINDOW && passes[i].start <= passes[i].time < passes[i].start + WINDOW)
    && (forall i :: 0 < i < |passes| ==> Succeeds(passes[i - 1], passes[i]))
  }

  lemma NextPassCounts(passes: seq<Pass>, now: int)
    requires Counted(passes) && (forall p :: p in passes ==> p.time <= now) && NextPass(passes, now).Some?
    ensures Counted(passes + [NextPass(passes, now).value]) && NextPass(passes, now).value.time == now
  {
  }

  lemma {:induction false} PassesAreCounted(run: seq<Request>, key: Token)
    requires Monotone(run)
    ensures Counted(Passes(run, key))
    ensures forall p :: p in Passes(run, key) ==> run != [] && p.time <= run[|run| - 1].now
  {
    if run != [] {
      var n := |run| - 1;
      PassesAreCounted(run[..n], key);
      hide Check, ClientsAfter, Counted, NextPass;
      var earlier := Passes(run[..n], key);
      if NextPass(earlier, run[n].now).Some? {
        NextPassCounts(earlier, run[n].now);
      }
    }
  }

  /** How many windows later a pass is: each pass uses one of twenty places, a new window starts afresh. */
  lemma {:induction false} WindowsApart(passes: seq<Pass>, i: nat, j: nat) returns (w: nat)
    requires Counted(passes) && i <= j < |passes|
    ensures j - i <= PER_WINDOW * w + passes[j].nth - passes[i].nth
    ensures passes[j].start >= passes[i].start + WINDOW * w && (w == 0 ==> passes[j].start == passes[i].start)
    decreases j - i
  {
    if i == j {
      w := 0;
    } else {
      var v := WindowsApart(passes, i, j - 1);
      assert Succeeds(passes[j - 1], passes[j]);
      w := if passes[j].start == passes[j - 1].start then v else v + 1;
    }
  }

  /** At most twenty checks of one client pass in a window, and at most forty in any sixty seconds. */
  lemma RateIsLimited(run: seq<Request>, key: Token, i: nat, j: nat)
    requires Monotone(run) && i <= j < |Passes(run, key)|
    ensures Passes(run, key)[j].start == Passes(run, key)[i].start ==> j - i + 1 <= 20
    ensures Passes(run, key)[j].time <= Passes(run, key)[i].time + 60 ==> j - i + 1 <= 40
  {
    PassesAreCounted(run, key);
    var w := WindowsApart(Passes(run, key), i, j);
  }

  // ------------------------------------------------------------------------------------------
  // The limiter itself
  // ------------------------------------------------------------------------------------------

  class RegistrationCheckLimiter {
    var clients: seq<Client>

    constructor ()
      ensures clients == []
    {
      clients := [];
    }

    /** `pop(key, None)` on the ordered dictionary. */
    method Pop(key: Token) returns (previous: Option<Client>)
      modifies this
      ensures var at := Find(old(clients), key);
              if at.Some? && at.value < |old(clients)|
              then previous == Some(old(clients)[at.value]) && clients == Without(old(clients), at.value)
              else previous == None && clients == old(clients)
      ensures previous.Some? <==> Find(old(clients), key).Some?
    {
      FindFinds(clients, key);
      var at := Find(clients, key);
      if at.None? {
        return None;
      }
      previous := Some(clients[at.value]);
      clients := Without(clients, at.value);
    }

    method CheckRegistration(key: Token, now: int) returns (allowed: bool)
      modifies this
      ensures Decision(clients, allowed) == Check(old(clients), key, now)
    {
      while clients != [] && clients[0].last <= now - WINDOW
        invariant Evict(clients, now) == Evict(old(clients), now)
        decreases |clients|
      {
        clients := clients[1..];
      }
      var previous := Pop(key);
      var start, count := now, 0;
      if previous.Some? {
        start, count := previous.value.start, previous.value.count;
      }
      if now >= start + WINDOW {
        start, count := now, 0;
      }
      if count >= PER_WINDOW || (previous.None? && |clients| >= MAX_CLIENTS) {
        if previous.Some? {
          clients := clients + [Client(key, start, count, now)];
        }
        return false;
      }
      clients := clients + [Client(key, start, count + 1, now)];
      allowed := true;
    }
  }
}
