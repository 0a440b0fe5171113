/** Any number of electors sharing one Redis key over time. One action is the instant at which
    Redis serves (or would have served) one command; an elector waiting for a reply does
    nothing else, so its private lock changes at the same instant. */
module Election {
  import opened Lease

  /** A command its caller gave up on that may still reach Redis. */
  datatype Command = Setting(token: Token) | Renewing(token: Token) | Unlocking(token: Token)

  /** used holds every token drawn so far. */
  datatype Sys = Sys(now: nat, key: Key, locks: map<nat, Token>, used: set<Token>, pending: set<Command>)

  /** Renew and Acquire are the two halves of IsLeader. */
  datatype Action =
    | Tick(millis: nat)
    | Renew(e: nat, fault: Fault)
    | Acquire(e: nat, token: Token, fault: Fault)
    | Resign(e: nat, fault: Fault)
    | Arrive(command: Command)

  predicate Enabled(s: Sys, a: Action) {
    match a
    case Tick(_) => true
    case Renew(e, _) => e in s.locks
    case Acquire(e, token, _) => e !in s.locks && token !in s.used
    case Resign(e, _) => e in s.locks
    case Arrive(command) => command in s.pending
  }

  /** IsLeader returns true on the reply to this command. */
  predicate Grants(s: Sys, a: Action) {
    match a
    case Renew(e, fault) => e in s.locks && fault.Fine? && Holds(s.key, s.now, s.locks[e])
    case Acquire(e, _, fault) => e !in s.locks && fault.Fine? && !Live(s.key, s.now)
    case _ => false
  }

  function Late(fault: Fault, command: Command): set<Command> {
    if fault.Late? then {command} else {}
  }

  function Apply(s: Sys, a: Action, ttl: nat): Sys
    requires Enabled(s, a)
  {
    match a
    case Tick(millis) => s.(now := s.now + millis)
    case Renew(e, fault) =>
      var token := s.locks[e];
      s.(key := if Applied(fault) then Extend(s.key, s.now, token, ttl) else s.key,
         locks := if Grants(s, a) then s.locks else s.locks - {e},
         pending := s.pending + Late(fault, Renewing(token)))
    case Acquire(e, token, fault) =>
      s.(key := if Applied(fault) then SetNX(s.key, s.now, token, ttl) else s.key,
         locks := if Grants(s, a) then s.locks[e := token] else s.locks,
         used := s.used + {token},
         pending := s.pending + Late(fault, Setting(token)))
    case Resign(e, fault) =>
      var token := s.locks[e];
      s.(key := if Applied(fault) then Delete(s.key, s.now, token) else s.key,
         locks := s.locks - {e},
         pending := s.pending + Late(fault, Unlocking(token)))
    case Arrive(command) =>
      s.(key := (match command
                 case Setting(token) => SetNX(s.key, s.now, token, ttl)
                 case Renewing(token) => Extend(s.key, s.now, token, ttl)
                 case Unlocking(token) => Delete(s.key, s.now, token)),
         pending := s.pending - {command})
  }

  ghost predicate Init(s: Sys) {
    s.key.NoKey? && s.locks == map[] && s.used == {} && s.pending == {}
  }

  /** run[i] takes at[i] to at[i + 1]. */
  ghost predicate Legal(at: seq<Sys>, run: seq<Action>, ttl: nat) {
    && |at| == |run| + 1
    && Init(at[0])
    && forall i {:trigger run[i]} :: 0 <= i < |run| ==> Enabled(at[i], run[i]) && at[i + 1] == Apply(at[i], run[i], ttl)
  }

  function LockOf(s: Sys, e: nat): Option<Token> {
    if e in s.locks then Some(s.locks[e]) else None
  }

  /** The actions of one IsLeader call whose acquisition, if any, comes gap after its renewal. */
  function CallActions(s: Sys, e: nat, gap: nat, token: Token, renewal: Fault, acquisition: Fault): seq<Action> {
    if e !in s.locks then [Acquire(e, token, acquisition)]
    else if !renewal.Fine? || Grants(s, Renew(e, renewal)) then [Renew(e, renewal)]
    else [Renew(e, renewal), Tick(gap), Acquire(e, token, acquisition)]
  }

  /** One IsLeader call is exactly these actions: its last one grants the lease iff the call
      returns true, and they leave the lock and the key the call leaves. */
  lemma {:induction false} CallIsActions(s: Sys, e: nat, gap: nat, token: Token, ttl: nat, renewal: Fault,
                                         acquisition: Fault)
    requires token !in s.used
    ensures var later := if e in s.locks then s.now + gap else s.now;
            var call := Called(s.key, LockOf(s, e), s.now, later, token, ttl, renewal, acquisition);
            var actions := CallActions(s, e, gap, token, renewal, acquisition);
            && Enabled(s, actions[0])
            && if |actions| == 1 then
                 && call.leader == Grants(s, actions[0])
                 && var t := Apply(s, actions[0], ttl); t.key == call.key && LockOf(t, e) == call.lock
               else
                 && !Grants(s, actions[0])
                 && var t := Apply(Apply(s, actions[0], ttl), actions[1], ttl);
                    && Enabled(t, actions[2]) && call.leader == Grants(t, actions[2])
                    && var u := Apply(t, actions[2], ttl); u.key == call.key && LockOf(u, e) == call.lock
  {
    if e in s.locks && renewal.Fine? && !Grants(s, Renew(e, renewal)) {
      var t := Apply(Apply(s, Renew(e, renewal), ttl), Tick(gap), ttl);
      assert e !in t.locks && t.key == s.key && t.now == s.now + gap && t.used == s.used;
    }
  }

  // ------------------------------------------------------------------ the invariant

  /** Tokens are never shared, nobody waits for a command on behalf of a token that is still
      held, and the key expires within a ttl. */
  ghost predicate Inv(s: Sys, ttl: nat) {
    && (forall e :: e in s.locks ==> s.locks[e] in s.used)
    && (forall e, other :: e in s.locks && other in s.locks && s.locks[e] == s.locks[other] ==> e == other)
    && (forall c :: c in s.pending ==> c.token in s.used)
    && (forall c, e :: c in s.pending && e in s.locks ==> c.token != s.locks[e])
    && (s.key.Key? ==> s.key.token in s.used && s.key.expiry <= s.now + ttl)
  }

  lemma {:induction false} InvStep(s: Sys, a: Action, ttl: nat)
    requires Inv(s, ttl) && Enabled(s, a)
    ensures Inv(Apply(s, a, ttl), ttl)
  {
  }

  lemma {:induction false} InvRun(at: seq<Sys>, run: seq<Action>, ttl: nat, i: nat)
    requires Legal(at, run, ttl) && i <= |run|
    ensures Inv(at[i], ttl)
  {
    if i > 0 {
      InvRun(at, run, ttl, i - 1);
      InvStep(at[i - 1], run[i - 1], ttl);
    }
  }

  lemma {:induction false} TimeFlows(at: seq<Sys>, run: seq<Action>, ttl: nat, i: nat, j: nat)
    requires Legal(at, run, ttl) && i <= j <= |run|
    ensures at[i].now <= at[j].now
  {
    if i < j {
      TimeFlows(at, run, ttl, i, j - 1);
      assert Enabled(at[j - 1], run[j - 1]);
    }
  }

  // ------------------------------------------------------------------ exclusion

  predicate Resigns(a: Action, e: nat) {
    a.Resign? && a.e == e
  }

  /** Until the deadline the key carries the token granted to e, and nothing that could delete
      it or use it on behalf of somebody else is around. */
  ghost predicate Secured(s: Sys, e: nat, token: Token, deadline: nat) {
    && (s.now < deadline ==> s.key.Key? && s.key.token == token && deadline <= s.key.expiry)
    && Unlocking(token) !in s.pending
    && token in s.used
    && forall other :: other in s.locks && s.locks[other] == token ==> other == e
  }

  lemma {:induction false} GrantSecures(s: Sys, a: Action, ttl: nat)
    requires Inv(s, ttl) && Enabled(s, a) && Grants(s, a)
    ensures var t := Apply(s, a, ttl); a.e in t.locks && Secured(t, a.e, t.locks[a.e], s.now + ttl)
  {
  }

  lemma {:induction false} SecuredStep(s: Sys, a: Action, ttl: nat, e: nat, token: Token, deadline: nat)
    requires Inv(s, ttl) && Enabled(s, a) && Secured(s, e, token, deadline) && !Resigns(a, e)
    ensures Secured(Apply(s, a, ttl), e, token, deadline)
    ensures Grants(s, a) && s.now < deadline ==> a.e == e
  {
  }

  lemma {:induction false} SecuredRun(at: seq<Sys>, run: seq<Action>, ttl: nat, i: nat, j: nat, e: nat)
    requires Legal(at, run, ttl) && i < j <= |run| && Grants(at[i], run[i]) && run[i].e == e
    requires forall k :: i < k < j ==> !Resigns(run[k], e)
    ensures e in at[i + 1].locks && Secured(at[j], e, at[i + 1].locks[e], at[i].now + ttl)
  {
    InvRun(at, run, ttl, j - 1);
    assert Enabled(at[j - 1], run[j - 1]);
    if j == i + 1 {
      GrantSecures(at[i], run[i], ttl);
    } else {
      SecuredRun(at, run, ttl, i, j - 1, e);
      SecuredStep(at[j - 1], run[j - 1], ttl, e, at[i + 1].locks[e], at[i].now + ttl);
    }
  }

  /** If one elector is granted the lease, no other is granted it less than a ttl later unless
      the first has resigned in between: for every interleaving of ticks, commands of any
      number of electors, errors, and stragglers. */
  lemma {:induction false} Exclusion(at: seq<Sys>, run: seq<Action>, ttl: nat, i: nat, j: nat)
    requires Legal(at, run, ttl) && i < j < |run|
    requires Grants(at[i], run[i]) && Grants(at[j], run[j]) && run[i].e != run[j].e
    requires forall k :: i < k < j ==> !Resigns(run[k], run[i].e)
    ensures at[i].now + ttl <= at[j].now
  {
    var e := run[i].e;
    SecuredRun(at, run, ttl, i, j, e);
    InvRun(at, run, ttl, j);
    SecuredStep(at[j], run[j], ttl, e, at[i + 1].locks[e], at[i].now + ttl);
  }

  /** So passes no longer than a ttl, counted from the instant Redis served the grant, never
      overlap across replicas, given that nobody resigns during its own pass. */
  lemma {:induction false} PassesDisjoint(at: seq<Sys>, run: seq<Action>, ttl: nat, i: nat, j: nat, length: nat)
    requires Legal(at, run, ttl) && i < j < |run|
    requires Grants(at[i], run[i]) && Grants(at[j], run[j]) && run[i].e != run[j].e
    requires length <= ttl
    requires forall k :: i < k < |run| && Resigns(run[k], run[i].e) ==> at[i].now + length <= at[k].now
    ensures at[i].now + length <= at[j].now
  {
    if k :| i < k < j && Resigns(run[k], run[i].e) {
      TimeFlows(at, run, ttl, k, j);
    } else {
      Exclusion(at, run, ttl, i, j);
    }
  }

  // ------------------------------------------------------------------ retention

  predicate By(a: Action, e: nat) {
    (a.Renew? || a.Acquire? || a.Resign?) && a.e == e
  }

  /** The last call of e at or after i and before k. */
  ghost function LastCall(run: seq<Action>, e: nat, i: nat, k: nat): (m: nat)
    requires i < k <= |run| && By(run[i], e)
    ensures i <= m < k && By(run[m], e) && forall l :: m < l < k ==> !By(run[l], e)
    decreases k
  {
    if By(run[k - 1], e) then k - 1 else LastCall(run, e, i, k - 1)
  }

  /** From its grant at i on, e sees no Redis error, does not resign, and calls IsLeader less
      than a ttl after its previous call. */
  ghost predicate Prompt(at: seq<Sys>, run: seq<Action>, ttl: nat, e: nat, i: nat)
    requires |at| == |run| + 1 && i < |run| && By(run[i], e)
  {
    forall k :: i < k < |run| && By(run[k], e) ==> PromptAt(at, run, ttl, e, i, k)
  }

  ghost predicate PromptAt(at: seq<Sys>, run: seq<Action>, ttl: nat, e: nat, i: nat, k: nat)
    requires |at| == |run| + 1 && i < k < |run| && By(run[i], e) && By(run[k], e)
  {
    !run[k].Resign? && run[k].fault.Fine? && at[k].now < at[LastCall(run, e, i, k)].now + ttl
  }

  /** A leader that is prompt stays leader forever: each of its calls is a renewal that is
      granted, whatever the others, their errors and their stragglers do. */
  lemma {:induction false} Retention(at: seq<Sys>, run: seq<Action>, ttl: nat, e: nat, i: nat, k: nat)
    requires Legal(at, run, ttl) && i < k < |run| && Grants(at[i], run[i]) && run[i].e == e
    requires Prompt(at, run, ttl, e, i) && By(run[k], e)
    ensures run[k].Renew? && Grants(at[k], run[k])
  {
    var m := LastCall(run, e, i, k);
    assert PromptAt(at, run, ttl, e, i, k);
    if m > i {
      Retention(at, run, ttl, e, i, m);
    }
    SecuredRun(at, run, ttl, m, k, e);
    LockStays(at, run, ttl, m, k, e);
    assert Enabled(at[k], run[k]);
  }

  lemma {:induction false} LockStays(at: seq<Sys>, run: seq<Action>, ttl: nat, m: nat, k: nat, e: nat)
    requires Legal(at, run, ttl) && m < k <= |run| && e in at[m + 1].locks
    requires forall l :: m < l < k ==> !By(run[l], e)
    ensures e in at[k].locks && at[k].locks[e] == at[m + 1].locks[e]
  {
    if k > m + 1 {
      LockStays(at, run, ttl, m, k - 1, e);
      assert Enabled(at[k - 1], run[k - 1]);
    }
  }

  lemma {:induction false} LastCallSkips(run: seq<Action>, e: nat, i: nat, j: nat, n: nat)
    requires i < j <= n <= |run| && By(run[i], e)
    requires forall l :: j <= l < n ==> !By(run[l], e)
    ensures LastCall(run, e, i, n) == LastCall(run, e, i, j)
  {
    if j < n {
      LastCallSkips(run, e, i, j, n - 1);
    }
  }

  ghost function FirstCall(run: seq<Action>, e: nat, j: nat, next: nat): (n: nat)
    requires j < next < |run| && By(run[next], e)
    ensures j < n <= next && By(run[n], e) && forall l :: j < l < n ==> !By(run[l], e)
    decreases next - j
  {
    if By(run[j + 1], e) then j + 1 else FirstCall(run, e, j + 1, next)
  }

  lemma {:induction false} LastCallGrants(at: seq<Sys>, run: seq<Action>, ttl: nat, e: nat, i: nat, j: nat)
    requires Legal(at, run, ttl) && i < j < |run| && Grants(at[i], run[i]) && run[i].e == e
    requires Prompt(at, run, ttl, e, i)
    ensures Grants(at[LastCall(run, e, i, j)], run[LastCall(run, e, i, j)])
  {
    var m := LastCall(run, e, i, j);
    if m > i {
      Retention(at, run, ttl, e, i, m);
    }
  }

  lemma {:induction false} LeaseUnexpired(at: seq<Sys>, run: seq<Action>, ttl: nat, e: nat, i: nat, j: nat, next: nat)
    requires Legal(at, run, ttl) && i < j < next < |run| && By(run[i], e)
    requires Prompt(at, run, ttl, e, i) && By(run[next], e) && !By(run[j], e)
    ensures at[j].now < at[LastCall(run, e, i, j)].now + ttl
  {
    var n := FirstCall(run, e, j, next);
    LastCallSkips(run, e, i, j, n);
    TimeFlows(at, run, ttl, j, n);
    assert PromptAt(at, run, ttl, e, i, n);
  }

  /** A prompt leader also shuts everybody else out for good. */
  lemma {:induction false} SoleLeader(at: seq<Sys>, run: seq<Action>, ttl: nat, e: nat, i: nat, j: nat, next: nat)
    requires Legal(at, run, ttl) && i < j < next < |run| && Grants(at[i], run[i]) && run[i].e == e
    requires Prompt(at, run, ttl, e, i) && By(run[next], e)
    requires Grants(at[j], run[j])
    ensures run[j].e == e
  {
    if run[j].e != e {
      LeaseUnexpired(at, run, ttl, e, i, j, next);
      LastCallGrants(at, run, ttl, e, i, j);
      var m := LastCall(run, e, i, j);
      assert forall k :: m < k < j ==> !Resigns(run[k], e);
      Exclusion(at, run, ttl, m, j);
    }
  }

  // the scheduler's numbers
  const TICK := 30_000
  const LEASE_TTL := 45_000

  /** The scheduler, ticking every 30 s, keeps a 45 s lease as long as each tick is served less
      than 15 s late. */
  lemma {:induction false} SchedulerKeepsLease(at: seq<Sys>, run: seq<Action>, e: nat, i: nat, k: nat, lag: nat)
    requires Legal(at, run, LEASE_TTL) && i < k < |run| && Grants(at[i], run[i]) && run[i].e == e && By(run[k], e)
    requires lag < LEASE_TTL - TICK
    requires forall l :: i < l < |run| && By(run[l], e) ==>
      !run[l].Resign? && run[l].fault.Fine? && at[l].now <= at[LastCall(run, e, i, l)].now + TICK + lag
    ensures run[k].Renew? && Grants(at[k], run[k])
  {
    assert Prompt(at, run, LEASE_TTL, e, i) by {
      forall l | i < l < |run| && By(run[l], e) ensures PromptAt(at, run, LEASE_TTL, e, i, l) {
      }
    }
    Retention(at, run, LEASE_TTL, e, i, k);
  }

  // ------------------------------------------------------------------ failover

  /** The next call of any elector that meets no error is granted: at once if it holds no lock,
      otherwise by the acquisition that follows its failed renewal. */
  ghost predicate UpForGrabs(s: Sys, ttl: nat) {
    forall e: nat, token: Token :: token !in s.used ==> FreshCallGrants(s, ttl, e, token)
  }

  ghost predicate FreshCallGrants(s: Sys, ttl: nat, e: nat, token: Token) {
    if e in s.locks then
      && !Grants(s, Renew(e, Fine))
      && var t := Apply(s, Renew(e, Fine), ttl);
         Enabled(t, Acquire(e, token, Fine)) && Grants(t, Acquire(e, token, Fine))
    else
      Enabled(s, Acquire(e, token, Fine)) && Grants(s, Acquire(e, token, Fine))
  }

  lemma {:induction false} DeadIsUpForGrabs(s: Sys, ttl: nat)
    requires !Live(s.key, s.now)
    ensures UpForGrabs(s, ttl)
  {
  }

  /** The action sets or extends the key. */
  predicate Lengthens(s: Sys, a: Action, ttl: nat)
    requires Enabled(s, a)
  {
    var key := Apply(s, a, ttl).key;
    key.Key? && key != s.key
  }

  lemma {:induction false} KeyAges(at: seq<Sys>, run: seq<Action>, ttl: nat, i: nat, j: nat)
    requires Legal(at, run, ttl) && i <= j <= |run|
    requires forall k {:trigger run[k]} :: i <= k < j ==> Enabled(at[k], run[k]) && !Lengthens(at[k], run[k], ttl)
    ensures at[j].key.Key? ==> at[j].key.expiry <= at[i].now + ttl
  {
    if i == j {
      InvRun(at, run, ttl, i);
    } else {
      KeyAges(at, run, ttl, i, j - 1);
      assert at[j] == Apply(at[j - 1], run[j - 1], ttl);
    }
  }

  /** Once the lease has not been lengthened for a ttl, whatever became of its holder, the
      first standby call without an error takes it over. */
  lemma {:induction false} Failover(at: seq<Sys>, run: seq<Action>, ttl: nat, i: nat, j: nat)
    requires Legal(at, run, ttl) && i <= j <= |run|
    requires forall k {:trigger run[k]} :: i <= k < j ==> Enabled(at[k], run[k]) && !Lengthens(at[k], run[k], ttl)
    requires at[i].now + ttl <= at[j].now
    ensures UpForGrabs(at[j], ttl)
  {
    KeyAges(at, run, ttl, i, j);
    DeadIsUpForGrabs(at[j], ttl);
  }

  /** The leader resigning, with the command reaching Redis, hands the lease over at once. */
  lemma {:induction false} Handover(at: seq<Sys>, run: seq<Action>, ttl: nat, i: nat, j: nat)
    requires Legal(at, run, ttl) && i < j < |run| && Grants(at[i], run[i])
    requires Resigns(run[j], run[i].e) && Applied(run[j].fault) && at[j].now < at[i].now + ttl
    requires forall k :: i < k < j ==> !By(run[k], run[i].e)
    ensures UpForGrabs(at[j + 1], ttl)
  {
    SecuredRun(at, run, ttl, i, j, run[i].e);
    LockStays(at, run, ttl, i, j, run[i].e);
    assert Enabled(at[j], run[j]);
    DeadIsUpForGrabs(at[j + 1], ttl);
  }
}
