/** The task lease (apps/api/app/core/redis.py): SET NX EX to take it, compare-and-delete to
    give it back. Workers, the server and the network move in any order; requests and replies
    may be lost or arrive late, and a worker may die anywhere. */
module RedisLock {
  import opened Outcomes

  type Token = nat
  datatype Key = Absent | Held(token: Token, expires: nat)

  /** What the server does, atomically. */
  predicate Free(key: Key, now: nat) { key.Absent? || key.expires <= now }

  function SetNxEx(key: Key, token: Token, ttl: nat, now: nat): (Key, bool) {
    if Free(key, now) then (Held(token, now + ttl), true) else (key, false)
  }

  function CompareAndDelete(key: Key, token: Token, now: nat): Key {
    if !Free(key, now) && key.token == token then Absent else key
  }

  /** The key is the token's alone: nobody else can take it or delete it now. */
  ghost predicate Owns(key: Key, token: Token, now: nat) {
    forall other: Token, ttl: nat :: other != token ==>
      SetNxEx(key, other, ttl, now) == (key, false) && CompareAndDelete(key, other, now) == key
  }

  lemma HolderOwns(token: Token, expires: nat, now: nat)
    requires now < expires
    ensures Owns(Held(token, expires), token, now)
  {
    forall other: Token, ttl: nat | other != token
      ensures SetNxEx(Held(token, expires), other, ttl, now) == (Held(token, expires), false)
      ensures CompareAndDelete(Held(token, expires), other, now) == Held(token, expires)
    {}
  }

  /** The server's one key, changed in place. */
  class LockKey {
    var key: Key

    constructor ()
      ensures key == Absent
    {
      key := Absent;
    }

    method Set(token: Token, ttl: nat, now: nat) returns (acquired: bool)
      modifies this
      ensures (key, acquired) == SetNxEx(old(key), token, ttl, now)
      ensures acquired <==> (old(key).Absent? || old(key).expires <= now)
      ensures acquired ==> key == Held(token, now + ttl)
      ensures acquired ==> forall later: nat :: now <= later < now + ttl ==> Owns(key, token, later)
      ensures !acquired ==> key == old(key) && key.Held? && now < key.expires
    {
      acquired := false;
      match key {
        case Absent => acquired := true;
        case Held(_, expires) => acquired := expires <= now;
      }
      if acquired {
        key := Held(token, now + ttl);
        forall later: nat | now <= later < now + ttl ensures Owns(key, token, later) {
          HolderOwns(token, now + ttl, later);
        }
      }
    }

    method Release(token: Token, now: nat)
      modifies this
      ensures key == CompareAndDelete(old(key), token, now)
      ensures forall other: Token, expires: nat ::
                other != token && old(key) == Held(other, expires) ==> key == Held(other, expires)
      ensures forall expires: nat :: old(key) == Held(token, expires) && now < expires ==> key == Absent
    {
      if key.Held? && now < key.expires && key.token == token {
        key := Absent;
      }
    }
  }

  // ---------------------------------------------------------------- the protocol

  /** Where one use of the lock stands. Each use draws its own token. */
  datatype Phase =
    | Waiting  // SET sent, no answer read
    | Inside   // told it holds the lock; its body is running
    | Over     // skipped, finished, refused or dead

  /** A way of using the lock: the lease asked for, and the time after its start at which a
      worker is killed. */
  datatype Kind = Kind(ttl: nat, limit: nat)

  /** One use: its kind, when it began, whether its SET or its release is still on the way, what the
      server answered, and until when the server gave it the key. */
  datatype Use = Use(
    phase: Phase, kind: Kind, started: nat, asking: bool, answer: Option<bool>, lease: nat, releasing: bool)

  /** The kinds of use that share one lock. */
  type Config = set<Kind>

  datatype State = State(now: nat, key: Key, uses: map<Token, Use>)

  const Initially := State(0, Absent, map[])

  datatype Action =
    | Begin(t: Token, kind: Kind)
    | ServeSet(t: Token)      // the server executes the SET, now or long after the worker gave up
    | LoseSet(t: Token)
    | ReadAnswer(t: Token)
    | LoseAnswer(t: Token)    // the call fails: nothing is known, the body must not run
    | Finish(t: Token)        // the body ends and asks for the release
    | ServeRelease(t: Token)
    | LoseRelease(t: Token)
    | Die(t: Token)
    | Tick(seconds: nat)

  ghost predicate Enabled(c: Config, s: State, a: Action) {
    match a
    case Begin(t, kind) => t !in s.uses && kind in c
    case Tick(seconds) =>
      forall t <- s.uses :: !s.uses[t].phase.Over? ==> s.now + seconds <= s.uses[t].started + s.uses[t].kind.limit
    case _ =>
      && a.t in s.uses
      && var u := s.uses[a.t];
         match a
         case ServeSet(_) => u.asking
         case LoseSet(_) => u.asking
         case ReadAnswer(_) => u.phase.Waiting? && u.answer.Some?
         case LoseAnswer(_) => u.phase.Waiting?
         case Finish(_) => u.phase.Inside?
         case ServeRelease(_) => u.releasing
         case LoseRelease(_) => u.releasing
         case _ => !u.phase.Over?
  }

  /** What a step does to the use it belongs to. */
  function UseAfter(s: State, a: Action, u: Use): Use
    requires !a.Begin? && !a.Tick?
  {
    match a
    case ServeSet(t) =>
      var got := SetNxEx(s.key, t, u.kind.ttl, s.now).1;
      u.(asking := false, answer := Some(got), lease := if got then s.now + u.kind.ttl else u.lease)
    case LoseSet(_) => u.(asking := false)
    case ReadAnswer(_) => u.(phase := if u.answer == Some(true) then Inside else Over)
    case Finish(_) => u.(phase := Over, releasing := true)
    case ServeRelease(_) => u.(releasing := false)
    case LoseRelease(_) => u.(releasing := false)
    case _ => u.(phase := Over)
  }

  function KeyAfter(s: State, a: Action, u: Use): Key {
    match a
    case ServeSet(t) => SetNxEx(s.key, t, u.kind.ttl, s.now).0
    case ServeRelease(t) => CompareAndDelete(s.key, t, s.now)
    case _ => s.key
  }

  function Next(s: State, a: Action): State {
    match a
    case Begin(t, kind) => s.(uses := s.uses[t := Use(Waiting, kind, s.now, true, None, 0, false)])
    case Tick(seconds) => s.(now := s.now + seconds)
    case _ =>
      if a.t !in s.uses then s
      else s.(key := KeyAfter(s, a, s.uses[a.t]), uses := s.uses[a.t := UseAfter(s, a, s.uses[a.t])])
  }

  /** The state after a schedule, None when some step of it cannot happen. */
  ghost function After(c: Config, schedule: seq<Action>): Option<State> {
    if schedule == [] then Some(Initially)
    else
      var before := After(c, schedule[..|schedule| - 1]);
      var a := schedule[|schedule| - 1];
      if before.Some? && Enabled(c, before.value, a) then Some(Next(before.value, a)) else None
  }

  ghost predicate Granted(u: Use) { !u.phase.Over? && u.answer == Some(true) }

  ghost predicate Runs(s: State, t: Token) { t in s.uses && s.uses[t].phase.Inside? }

  ghost predicate UseOk(s: State, t: Token)
    requires t in s.uses
  {
    var u := s.uses[t];
    && u.started <= s.now
    && (!u.phase.Over? ==> s.now <= u.started + u.kind.limit)
    && (u.asking ==> u.answer.None?)
    && (u.releasing ==> u.phase.Over?)
    && (u.phase.Inside? ==> u.answer == Some(true))
    && (u.answer.None? ==> s.key.Absent? || s.key.token != t)
    && (Granted(u) ==>
          && u.started + u.kind.ttl <= u.lease
          && (s.now < u.lease ==> s.key == Held(t, u.lease)))
  }

  ghost predicate Invariant(c: Config, s: State) {
    && (forall t <- s.uses :: UseOk(s, t) && s.uses[t].kind in c)
    && (s.key.Held? ==> s.key.token in s.uses)
  }

  lemma StepKeepsInvariant(c: Config, s: State, a: Action)
    requires Invariant(c, s) && Enabled(c, s, a)
    ensures Invariant(c, Next(s, a))
  {
    var s' := Next(s, a);
    forall t <- s'.uses ensures UseOk(s', t) && s'.uses[t].kind in c {
      if t in s.uses {
        assert UseOk(s, t);
      }
    }
  }

  lemma {:induction false} ScheduleKeepsInvariant(c: Config, schedule: seq<Action>)
    requires After(c, schedule).Some?
    ensures Invariant(c, After(c, schedule).value)
  {
    if schedule != [] {
      ScheduleKeepsInvariant(c, schedule[..|schedule| - 1]);
      StepKeepsInvariant(c, After(c, schedule[..|schedule| - 1]).value, schedule[|schedule| - 1]);
    }
  }

  // ---------------------------------------------------------------- main results

  /** Whatever the schedule and the limit, two workers are never both inside leases that have
      not run out. */
  lemma LeasesNeverOverlap(c: Config, schedule: seq<Action>, t: Token, u: Token)
    requires After(c, schedule).Some?
    ensures var s := After(c, schedule).value;
            && Runs(s, t) && s.now < s.uses[t].lease
            && Runs(s, u) && s.now < s.uses[u].lease
            ==> t == u
  {
    ScheduleKeepsInvariant(c, schedule);
    var s := After(c, schedule).value;
    if Runs(s, t) && Runs(s, u) {
      assert UseOk(s, t) && UseOk(s, u);
    }
  }

  /** A release served late, after its owner's lease ran out and another took the key, leaves
      the key alone: at no point can serving t's release end a running worker's lease. */
  lemma LateReleaseIsHarmless(c: Config, schedule: seq<Action>, t: Token, u: Token)
    requires After(c, schedule).Some? && Enabled(c, After(c, schedule).value, ServeRelease(t))
    ensures var s := After(c, schedule).value;
            Runs(s, u) && s.now < s.uses[u].lease
            ==> u != t && Next(s, ServeRelease(t)).key == s.key == Held(u, s.uses[u].lease)
  {
    ScheduleKeepsInvariant(c, schedule);
    var s := After(c, schedule).value;
    if Runs(s, u) {
      assert UseOk(s, t) && UseOk(s, u);
    }
  }

  /** A SET is refused only while a lease that was granted has not run out: a worker that died,
      or whose release was lost, keeps the lock from others no longer than its lease. */
  lemma RefusedOnlyUnderALease(c: Config, schedule: seq<Action>, u: Token)
    requires After(c, schedule).Some? && Enabled(c, After(c, schedule).value, ServeSet(u))
    ensures var s := After(c, schedule).value;
            var s' := Next(s, ServeSet(u));
            && (s'.uses[u].answer == Some(true) <==> s.key.Absent? || s.key.expires <= s.now)
            && (s'.uses[u].answer == Some(true) ==>
                  s'.key == Held(u, s.now + s.uses[u].kind.ttl) && s'.uses[u].lease == s.now + s.uses[u].kind.ttl)
            && (s'.uses[u].answer != Some(true) ==>
                  s'.uses[u].answer == Some(false) && s'.key == s.key && s.key.token in s.uses && s.key.token != u)
  {
    ScheduleKeepsInvariant(c, schedule);
    assert UseOk(After(c, schedule).value, u);
  }

  /** A finished worker's release, when served in time, frees the lock: the next SET to be served
      is granted. */
  lemma ReleaseFreesTheLock(c: Config, schedule: seq<Action>, t: Token, u: Token)
    requires After(c, schedule).Some? && Enabled(c, After(c, schedule).value, ServeRelease(t))
    requires Enabled(c, Next(After(c, schedule).value, ServeRelease(t)), ServeSet(u))
    requires var key := After(c, schedule).value.key; key.Held? && key.token == t && After(c, schedule).value.now < key.expires
    ensures var freed := Next(After(c, schedule).value, ServeRelease(t));
            freed.key == Absent && Next(freed, ServeSet(u)).uses[u].answer == Some(true)
  {}

  /** A run that ends inside its lease sends its release, and that release, when served in time,
      frees the lock. */
  lemma FinishedRunGivesBack(c: Config, schedule: seq<Action>, t: Token)
    requires After(c, schedule).Some? && Enabled(c, After(c, schedule).value, Finish(t))
    ensures var s := After(c, schedule).value;
            var finished := Next(s, Finish(t));
            && finished.uses[t].phase.Over? && finished.key == s.key
            && Enabled(c, finished, ServeRelease(t)) && Enabled(c, finished, LoseRelease(t))
            && (s.now < s.uses[t].lease ==> Next(finished, ServeRelease(t)).key == Absent)
            && Next(finished, LoseRelease(t)).key == s.key
            && !Enabled(c, Next(finished, ServeRelease(t)), ServeRelease(t))
  {
    ScheduleKeepsInvariant(c, schedule);
    assert UseOk(After(c, schedule).value, t);
  }

  ghost predicate Exclusive(s: State) {
    forall t: Token, u: Token :: Runs(s, t) && Runs(s, u) ==> t == u
  }

  /** Every kind of use is killed before the lease it asks for can run out. */
  ghost predicate KilledInTime(c: Config) { forall k <- c :: k.limit < k.ttl }

  lemma ShortRunsExclude(c: Config, schedule: seq<Action>)
    requires KilledInTime(c) && After(c, schedule).Some?
    ensures Exclusive(After(c, schedule).value)
  {
    ScheduleKeepsInvariant(c, schedule);
    var s := After(c, schedule).value;
    forall t: Token, u: Token | Runs(s, t) && Runs(s, u) ensures t == u {
      assert UseOk(s, t) && UseOk(s, u);
    }
  }

  /** The schedule in which a slow worker outlives its lease. */
  function Outlived(k: Kind): seq<Action> {
    [Begin(0, k), ServeSet(0), ReadAnswer(0), Tick(k.ttl), Begin(1, k), ServeSet(1), ReadAnswer(1)]
  }

  lemma Extend(c: Config, schedule: seq<Action>, a: Action, s: State)
    requires After(c, schedule) == Some(s) && Enabled(c, s, a)
    ensures After(c, schedule + [a]) == Some(Next(s, a))
  {
    assert (schedule + [a])[..|schedule|] == schedule;
  }

  /** The state i steps into it. */
  function Colliding(k: Kind, i: nat): State {
    var asking := Use(Waiting, k, 0, true, None, 0, false);
    var granted := asking.(asking := false, answer := Some(true), lease := k.ttl);
    var inside := granted.(phase := Inside);
    var later := Use(Waiting, k, k.ttl, true, None, 0, false);
    var laterGranted := later.(asking := false, answer := Some(true), lease := k.ttl + k.ttl);
    match i
    case 0 => Initially
    case 1 => State(0, Absent, map[0 := asking])
    case 2 => State(0, Held(0, k.ttl), map[0 := granted])
    case 3 => State(0, Held(0, k.ttl), map[0 := inside])
    case 4 => State(k.ttl, Held(0, k.ttl), map[0 := inside])
    case 5 => State(k.ttl, Held(0, k.ttl), map[0 := inside, 1 := later])
    case 6 => State(k.ttl, Held(1, k.ttl + k.ttl), map[0 := inside, 1 := laterGranted])
    case _ => State(k.ttl, Held(1, k.ttl + k.ttl), map[0 := inside, 1 := laterGranted.(phase := Inside)])
  }

  lemma CollidingStep(c: Config, k: Kind, i: nat)
    requires k in c && k.ttl <= k.limit && i < 7
    ensures Enabled(c, Colliding(k, i), Outlived(k)[i])
    ensures Next(Colliding(k, i), Outlived(k)[i]) == Colliding(k, i + 1)
  {}

  lemma SlowRunsCollide(c: Config, k: Kind)
    requires k in c && k.ttl <= k.limit
    ensures After(c, Outlived(k)).Some? && !Exclusive(After(c, Outlived(k)).value)
  {
    var p := Outlived(k);
    assert p[..0] == [];
    for i := 0 to 7
      invariant After(c, p[..i]) == Some(Colliding(k, i))
    {
      hide Enabled, Next, Colliding;
      assert p[..i + 1] == p[..i] + [p[i]];
      CollidingStep(c, k, i);
      Extend(c, p[..i], p[i], Colliding(k, i));
    }
    assert p[..7] == p;
    assert Runs(Colliding(k, 7), 0) && Runs(Colliding(k, 7), 1);
  }

  /** Runs exclude each other under every schedule exactly when every kind of use is killed
      before a lease of its own can run out. */
  lemma ExclusionExactlyWhenLimitBelowTtl(c: Config)
    ensures (forall schedule :: After(c, schedule).Some? ==> Exclusive(After(c, schedule).value))
            <==> KilledInTime(c)
  {
    if KilledInTime(c) {
      forall schedule | After(c, schedule).Some? ensures Exclusive(After(c, schedule).value) {
        ShortRunsExclude(c, schedule);
      }
    } else {
      var k :| k in c && k.ttl <= k.limit;
      SlowRunsCollide(c, k);
    }
  }

  // ---------------------------------------------------------------- the deployed locks

  datatype Lock =
    | StrategySignals | PortfolioRebalance | PositionMonitor | Reconciliation | AccountSnapshot
    | EodFlatten | DailyReset | OrderTimeout | MorningScan | Purge | DcaPlans

  /** The longest one demo reconciliation may run, and the lease it asks for, from two settings
      (apps/api/app/services/reconciliation_owner.py:23-38). */
  function RunLimit(maxRuntime: int): nat { if maxRuntime < 1 then 1 else maxRuntime }

  function OwnerLease(maxRuntime: int, wanted: int): nat {
    var shortest := RunLimit(maxRuntime) + 30;
    var longest := if shortest > 300 then shortest else 300;
    var lease := if wanted > shortest then wanted else shortest;
    if lease < longest then lease else longest
  }

  /** The kinds of use each lock has (apps/api/app/workers/tasks.py and tasks_dca.py). The
      reconciliation lock is shared by the scheduled task and by runs under the settings. */
  function Deployed(lock: Lock, maxRuntime: int, wanted: int): Config {
    match lock
    case StrategySignals => {Kind(270, 240)}
    case PortfolioRebalance => {Kind(330, 300)}
    case PositionMonitor => {Kind(120, 90)}
    case Reconciliation => {Kind(90, 60), Kind(OwnerLease(maxRuntime, wanted), RunLimit(maxRuntime))}
    case AccountSnapshot => {Kind(45, 30)}
    case EodFlatten => {Kind(150, 120)}
    case DailyReset => {Kind(120, 60)}
    case OrderTimeout => {Kind(90, 60)}
    case MorningScan => {Kind(150, 120)}
    case Purge => {Kind(330, 300)}
    case DcaPlans => {Kind(900, 120)}
  }

  /** However its settings are chosen, a reconciliation is stopped well before its lease ends,
      and a dead one blocks the next for no longer than five minutes or its own limit asks. */
  lemma OwnerLeaseOutlivesItsRun(maxRuntime: int, wanted: int)
    ensures RunLimit(maxRuntime) + 30 <= OwnerLease(maxRuntime, wanted)
    ensures OwnerLease(maxRuntime, wanted) <= 300 || OwnerLease(maxRuntime, wanted) == RunLimit(maxRuntime) + 30
  {}

  /** No deployed lock ever has two runs inside, whatever the two settings. */
  lemma DeployedRunsNeverOverlap(lock: Lock, maxRuntime: int, wanted: int, schedule: seq<Action>)
    requires After(Deployed(lock, maxRuntime, wanted), schedule).Some?
    ensures Exclusive(After(Deployed(lock, maxRuntime, wanted), schedule).value)
  {
    hide OwnerLease, RunLimit;
    OwnerLeaseOutlivesItsRun(maxRuntime, wanted);
    ShortRunsExclude(Deployed(lock, maxRuntime, wanted), schedule);
  }
}
