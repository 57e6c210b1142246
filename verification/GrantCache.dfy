/**
 * The versioned decision cache of packages/authz: many checks and mutators interleaving over one
 * database, each suspended at every await.
 */
module GrantCache {
  import opened Base
  import opened GrantRule

  /** A process's database handle: the key of its cache entry. */
  type Handle = nat

  datatype Decision = Decision(allowed: bool, expiresAt: int)

  /** A cache state object; it stays reachable from suspended checks after it is replaced. */
  datatype CacheState = CacheState(version: nat, decisions: map<string, Decision>)

  /** Every state object ever made, and the one each handle points to. */
  datatype Cache = Cache(objects: seq<CacheState>, current: map<Handle, nat>)

  predicate ValidCache(c: Cache) {
    forall h | h in c.current :: c.current[h] < |c.objects|
  }

  /** The check's code from the version read to the decision lookup. */
  function Enter(c: Cache, h: Handle, version: nat): Cache
    requires ValidCache(c)
  {
    if h in c.current && c.objects[c.current[h]].version == version then c
    else Cache(c.objects + [CacheState(version, map[])], c.current[h := |c.objects|])
  }

  function Cached(state: CacheState, key: string, now: int): Option<bool> {
    if key in state.decisions && state.decisions[key].expiresAt > now then Some(state.decisions[key].allowed) else None
  }

  function Store(c: Cache, slot: nat, key: string, d: Decision): Cache
    requires slot < |c.objects|
  {
    var state := c.objects[slot];
    c.(objects := c.objects[slot := state.(decisions := state.decisions[key := d])])
  }

  /** One database state; the version row is absent until the first bump. */
  datatype Snapshot = Snapshot(tables: Tables, versionRow: Option<nat>, clock: int)

  function Version(s: Snapshot): nat {
    if s.versionRow.Some? then s.versionRow.value else 0
  }

  datatype Phase =
    | Begun
    | VersionRead(version: nat)
    | Querying(slot: nat, now: int)
    | Queried(slot: nat, now: int, verdict: bool)
    | Answered(allowed: bool)

  /** `begunAt`, `settled` and `seen`: where the check began, the changes settled and the no-ops completed by then. */
  datatype Check = Check(handle: Handle, input: CheckInput, begunAt: nat, settled: set<nat>, calm: bool, seen: nat,
                         phase: Phase)

  /** A mutator that completed at instant `at` without changing a row. */
  datatype Noop = Noop(mutation: Mutation, at: nat)

  /**
   * `history` holds every database state so far, the last being the present one. A change is named by
   * its place in the history: `pending` maps a mutator to its change until it has bumped the version,
   * `settled` maps a bumped change to the version its bump produced. `asked` is whatever the checks may be about.
   */
  datatype World = World(
    ttl: nat, history: seq<Snapshot>, cache: Cache, checks: map<nat, Check>,
    pending: map<nat, nat>, settled: map<nat, nat>, noops: seq<Noop>, asked: iset<CheckInput>)

  function Present(w: World): Snapshot
    requires w.history != []
  {
    w.history[|w.history| - 1]
  }

  datatype Label =
    | Tick(elapsed: nat)
    | Begin(check: nat, handle: Handle, input: CheckInput)
    | ReadVersion(check: nat)
    | Lookup(check: nat)
    | Query(check: nat)
    | Finish(check: nat)
    | Change(mutator: nat, mutation: Mutation)
    | Bump(mutator: nat)
    | Clear(handle: Handle)

  function WithPhase(w: World, check: nat, phase: Phase): World
    requires check in w.checks
  {
    w.(checks := w.checks[check := w.checks[check].(phase := phase)])
  }

  ghost predicate Enabled(w: World, l: Label) {
    && w.history != [] && ValidCache(w.cache)
    && match l
       case Begin(check, _, input) => check !in w.checks && input in w.asked
       case ReadVersion(check) => check in w.checks && w.checks[check].phase.Begun?
       case Lookup(check) => check in w.checks && w.checks[check].phase.VersionRead?
       case Query(check) => check in w.checks && w.checks[check].phase.Querying?
       case Finish(check) =>
         && check in w.checks && w.checks[check].phase.Queried?
         && w.checks[check].phase.slot < |w.cache.objects|
       case Change(mutator, _) => mutator !in w.pending
       case Bump(mutator) => mutator in w.pending
       case _ => true
  }

  function LookUp(w: World, check: nat): World
    requires w.history != [] && ValidCache(w.cache)
    requires check in w.checks && w.checks[check].phase.VersionRead?
  {
    var k := w.checks[check];
    var cache := Enter(w.cache, k.handle, k.phase.version);
    var now := Present(w).clock;
    var slot := cache.current[k.handle];
    var hit := Cached(cache.objects[slot], CacheKey(k.input), now);
    WithPhase(w.(cache := cache), check, if hit.Some? then Answered(hit.value) else Querying(slot, now))
  }

  ghost function Step(w: World, l: Label): World
    requires Enabled(w, l)
  {
    var present := Present(w);
    match l
    case Tick(elapsed) => w.(history := w.history + [present.(clock := present.clock + elapsed)])
    case Begin(check, handle, input) =>
      var k := Check(handle, input, |w.history| - 1, w.settled.Keys, w.pending == map[], |w.noops|, Begun);
      w.(checks := w.checks[check := k])
    case ReadVersion(check) => WithPhase(w, check, VersionRead(Version(present)))
    case Lookup(check) => LookUp(w, check)
    case Query(check) =>
      var p := w.checks[check].phase;
      WithPhase(w, check, Queried(p.slot, p.now, QueryDecision(present.tables, w.checks[check].input)))
    case Finish(check) =>
      var p := w.checks[check].phase;
      var stored := Store(w.cache, p.slot, CacheKey(w.checks[check].input), Decision(p.verdict, p.now + w.ttl));
      WithPhase(w.(cache := stored), check, Answered(p.verdict))
    case Change(mutator, mutation) =>
      var tables := Mutate(present.tables, mutation);
      if Refuses(mutation) then w
      else if tables == present.tables then     // no row changed: the mutator completes without a bump
        w.(noops := w.noops + [Noop(mutation, |w.history| - 1)])
      else w.(history := w.history + [present.(tables := tables)], pending := w.pending[mutator := |w.history|])
    case Bump(mutator) =>
      var bumped := Version(present) + 1;
      w.(history := w.history + [present.(versionRow := Some(bumped))],
         pending := w.pending - {mutator},
         settled := w.settled[w.pending[mutator] := bumped])
    case Clear(handle) => w.(cache := w.cache.(current := w.cache.current - {handle}))
  }

  predicate Initial(w: World) {
    && |w.history| == 1 && w.cache == Cache([], map[])
    && w.checks == map[] && w.pending == map[] && w.settled == map[] && w.noops == []
  }

  ghost predicate Executes(w: World, labels: seq<Label>)
    decreases |labels|
  {
    labels == [] || (Enabled(w, labels[0]) && Executes(Step(w, labels[0]), labels[1..]))
  }

  ghost function Execute(w: World, labels: seq<Label>): World
    requires Executes(w, labels)
    decreases |labels|
  {
    if labels == [] then w else Execute(Step(w, labels[0]), labels[1..])
  }

  // ---- What is to be shown of an answer ----

  /** The verdict is the one-hop rule at instant `t`. */
  ghost predicate RuledAt(history: seq<Snapshot>, input: CheckInput, allowed: bool, t: nat) {
    t < |history| && (allowed <==> OneHop(history[t].tables, input))
  }

  /** Instant `t` reflects every change settled before the check began and is within the TTL of its start. */
  ghost predicate Recent(w: World, k: Check, t: nat) {
    && t < |w.history| && k.begunAt < |w.history|
    && (forall change | change in k.settled :: change <= t)
    && w.history[t].clock > w.history[k.begunAt].clock - w.ttl
  }

  ghost predicate Justified(w: World, k: Check, allowed: bool) {
    exists t: nat :: RuledAt(w.history, k.input, allowed, t) && Recent(w, k, t)
  }

  /** Different checks have different keys. */
  ghost predicate Apart(asked: iset<CheckInput>) {
    forall a, b | a in asked && b in asked && CacheKey(a) == CacheKey(b) :: SameCheck(a, b)
  }

  // ---- The invariant ----

  predicate Monotone(history: seq<Snapshot>) {
    forall i, j | 0 <= i <= j < |history| ::
      Version(history[i]) <= Version(history[j]) && history[i].clock <= history[j].clock
  }

  /** Whoever sees the version of a settled change's bump comes after the change. */
  predicate Settles(history: seq<Snapshot>, change: nat, version: nat) {
    && change < |history| && version <= Version(history[|history| - 1])
    && forall r | 0 <= r < |history| && Version(history[r]) >= version :: change <= r
  }

  predicate Unbumped(w: World, change: nat) {
    exists m | m in w.pending :: w.pending[m] == change
  }

  predicate ChangesTables(history: seq<Snapshot>, i: nat) {
    0 < i < |history| && history[i].tables != history[i - 1].tables
  }

  /** Every change of the tables is pending or settled. */
  predicate Accounted(w: World) {
    && (forall i: nat | i < |w.history| && ChangesTables(w.history, i) :: Unbumped(w, i) || i in w.settled)
    && (forall m | m in w.pending :: w.pending[m] < |w.history| && w.pending[m] !in w.settled)
    && (forall m, n | m in w.pending && n in w.pending && w.pending[m] == w.pending[n] :: m == n)
    && forall change | change in w.settled :: Settles(w.history, change, w.settled[change])
  }

  /** The decision was taken at an instant with at least the state's version, no earlier than its lifetime allows. */
  ghost predicate DecidedAt(w: World, version: nat, key: string, d: Decision, t: nat) {
    && t < |w.history| && Version(w.history[t]) >= version && w.history[t].clock + w.ttl >= d.expiresAt
    && forall input | input in w.asked && CacheKey(input) == key :: d.allowed <==> OneHop(w.history[t].tables, input)
  }

  ghost predicate DecisionSound(w: World, version: nat, key: string, d: Decision) {
    exists t: nat :: DecidedAt(w, version, key, d, t)
  }

  ghost predicate CacheSound(w: World) {
    && ValidCache(w.cache)
    && forall o, key | 0 <= o < |w.cache.objects| && key in w.cache.objects[o].decisions ::
         DecisionSound(w, w.cache.objects[o].version, key, w.cache.objects[o].decisions[key])
  }

  /** A version that postdates everything settled when the check began. */
  predicate Postdates(w: World, k: Check, version: nat) {
    w.history != [] && version <= Version(Present(w)) && forall change | change in k.settled
        && change in w.settled :: w.settled[change] <= version
  }

  ghost predicate CheckSound(w: World, k: Check) {
    && k.input in w.asked && k.begunAt < |w.history| && k.settled <= w.settled.Keys
    && (k.calm ==> forall i: nat | i <= k.begunAt && ChangesTables(w.history, i) :: i in k.settled)
    && match k.phase
       case Begun => true
       case VersionRead(version) => Postdates(w, k, version)
       case Querying(slot, now) =>
         && slot < |w.cache.objects| && Postdates(w, k, w.cache.objects[slot].version)
         && w.history[k.begunAt].clock <= now <= Present(w).clock
       case Queried(slot, now, verdict) =>
         && slot < |w.cache.objects| && Postdates(w, k, w.cache.objects[slot].version)
         && w.history[k.begunAt].clock <= now
         && DecisionSound(w, w.cache.objects[slot].version, CacheKey(k.input), Decision(verdict, now + w.ttl))
       case Answered(allowed) => Justified(w, k, allowed)
  }

  ghost predicate Inv(w: World) {
    && w.history != [] && w.ttl > 0
    && Monotone(w.history) && Accounted(w) && CacheSound(w) && Apart(w.asked)
    && forall c | c in w.checks :: CheckSound(w, w.checks[c])
  }

  /** A later world: the history has grown, and nothing recorded has been lost. */
  predicate Later(w: World, w': World) {
    && w'.ttl == w.ttl && w'.asked == w.asked && w.history <= w'.history && Monotone(w'.history)
    && (forall change | change in w.settled :: change in w'.settled && w'.settled[change] == w.settled[change])
    && |w.cache.objects| <= |w'.cache.objects|
    && forall o | 0 <= o < |w.cache.objects| :: w'.cache.objects[o].version == w.cache.objects[o].version
  }

  lemma DecisionStaysSound(w: World, w': World, version: nat, key: string, d: Decision)
    requires Later(w, w') && DecisionSound(w, version, key, d)
    ensures DecisionSound(w', version, key, d)
  {
    var t: nat :| DecidedAt(w, version, key, d, t);
    assert DecidedAt(w', version, key, d, t);
  }

  lemma CheckStaysSound(w: World, w': World, k: Check)
    requires w.history != [] && Later(w, w') && CheckSound(w, k)
    ensures CheckSound(w', k)
  {
    match k.phase
    case Answered(allowed) =>
      var t: nat :| RuledAt(w.history, k.input, allowed, t) && Recent(w, k, t);
      assert RuledAt(w'.history, k.input, allowed, t) && Recent(w', k, t);
    case Queried(slot, now, verdict) =>
      DecisionStaysSound(w, w', w.cache.objects[slot].version, CacheKey(k.input), Decision(verdict, now + w.ttl));
    case _ =>
  }

  lemma CacheStaysSound(w: World, w': World)
    requires CacheSound(w) && Later(w, w') && w'.cache.objects == w.cache.objects && ValidCache(w'.cache)
    ensures CacheSound(w')
  {
    forall o, key | 0 <= o < |w.cache.objects| && key in w.cache.objects[o].decisions
      ensures DecisionSound(w', w.cache.objects[o].version, key, w.cache.objects[o].decisions[key])
    {
      DecisionStaysSound(w, w', w.cache.objects[o].version, key, w.cache.objects[o].decisions[key]);
    }
  }

  lemma ChecksStaySound(w: World, w': World)
    requires Inv(w) && Later(w, w') && w'.checks == w.checks
    ensures forall c | c in w'.checks :: CheckSound(w', w'.checks[c])
  {
    forall c | c in w.checks ensures CheckSound(w', w.checks[c]) {
      CheckStaysSound(w, w', w.checks[c]);
    }
  }

  /** A decision sound for a version that postdates the check's start answers the check. */
  lemma DecisionAnswers(w: World, k: Check, version: nat, d: Decision)
    requires Inv(w) && k.input in w.asked && k.begunAt < |w.history| && k.settled <= w.settled.Keys
    requires Postdates(w, k, version) && DecisionSound(w, version, CacheKey(k.input), d)
    requires d.expiresAt > w.history[k.begunAt].clock
    ensures Justified(w, k, d.allowed)
  {
    var t: nat :| DecidedAt(w, version, CacheKey(k.input), d, t);
    assert RuledAt(w.history, k.input, d.allowed, t);
    forall change | change in k.settled ensures change <= t {
      assert Settles(w.history, change, w.settled[change]);
    }
    assert Recent(w, k, t);
  }

  // ---- Every step keeps it ----

  lemma HistoryGrows(w: World, w': World, next: Snapshot)
    requires Inv(w)
    requires w' == w.(history := w.history + [next], pending := w'.pending, settled := w'.settled)
    requires Version(Present(w)) <= Version(next) && Present(w).clock <= next.clock
    requires Accounted(w')
    requires forall change | change in w.settled :: change in w'.settled && w'.settled[change] == w.settled[change]
    ensures Inv(w')
  {
    assert Monotone(w'.history) by {
      forall i, j | 0 <= i <= j < |w'.history|
        ensures Version(w'.history[i]) <= Version(w'.history[j]) && w'.history[i].clock <= w'.history[j].clock
      {
        assert i < |w.history| ==>
            Version(w.history[i]) <= Version(Present(w))
            && w.history[i].clock <= Present(w).clock;
        assert j < |w.history| ==>
            Version(w.history[i]) <= Version(w.history[j])
            && w.history[i].clock <= w.history[j].clock;
      }
    }
    CacheStaysSound(w, w');
    ChecksStaySound(w, w');
  }

  lemma AccountsChange(w: World, mutator: nat, mutation: Mutation)
    requires Inv(w) && Enabled(w, Change(mutator, mutation)) && Mutate(Present(w).tables, mutation) != Present(w).tables
    requires !Refuses(mutation)
    ensures Accounted(Step(w, Change(mutator, mutation)))
  {
    var w' := Step(w, Change(mutator, mutation));
    forall i: nat | i < |w'.history| && ChangesTables(w'.history, i) ensures Unbumped(w', i) || i in w'.settled {
      if i == |w.history| {
        assert w'.pending[mutator] == i;
      } else {
        assert ChangesTables(w.history, i);
        if m :| m in w.pending && w.pending[m] == i {
          assert w'.pending[m] == i;
        }
      }
    }
  }

  lemma AccountsBump(w: World, mutator: nat)
    requires Inv(w) && Enabled(w, Bump(mutator))
    ensures Accounted(Step(w, Bump(mutator)))
  {
    var w' := Step(w, Bump(mutator));
    var at := w.pending[mutator];
    assert Settles(w'.history, at, w'.settled[at]);
    forall i: nat | i < |w'.history| && ChangesTables(w'.history, i) ensures Unbumped(w', i) || i in w'.settled {
      assert ChangesTables(w.history, i);
      if m :| m in w.pending && w.pending[m] == i {
        assert m != mutator ==> w'.pending[m] == i;
      }
    }
  }

  lemma AccountsTick(w: World, elapsed: nat)
    requires Inv(w) && Enabled(w, Tick(elapsed))
    ensures Accounted(Step(w, Tick(elapsed)))
  {
    var w' := Step(w, Tick(elapsed));
    forall i: nat | i < |w'.history| && ChangesTables(w'.history, i) ensures Unbumped(w', i) || i in w'.settled {
      assert ChangesTables(w.history, i);
      if m :| m in w.pending && w.pending[m] == i {
        assert w'.pending[m] == i;
      }
    }
  }

  /** A no-op is only recorded. */
  lemma NoopStep(w: World, mutator: nat, mutation: Mutation)
    requires Inv(w) && Enabled(w, Change(mutator, mutation)) && Step(w, Change(mutator, mutation)).history == w.history
    ensures Inv(Step(w, Change(mutator, mutation)))
  {
    hide DecidedAt, Mutate;
    var w' := Step(w, Change(mutator, mutation));
    CacheStaysSound(w, w');
    ChecksStaySound(w, w');
  }

  lemma DatabaseStep(w: World, l: Label)
    requires Inv(w) && Enabled(w, l) && (l.Tick? || l.Change? || l.Bump?)
    ensures Inv(Step(w, l))
  {
    hide CacheSound, CheckSound, Mutate, ValidCache;
    var w' := Step(w, l);
    match l {
      case Tick(elapsed) => AccountsTick(w, elapsed);
      case Change(mutator, mutation) =>
        if w'.history == w.history {
          NoopStep(w, mutator, mutation);
          return;
        }
        AccountsChange(w, mutator, mutation);
      case Bump(mutator) => AccountsBump(w, mutator);
    }
    HistoryGrows(w, w', w'.history[|w.history|]);
  }

  /** Steps of a check, and clearing: the database is left alone. */
  lemma CheckStep(w: World, w': World, check: nat)
    requires Inv(w) && CacheSound(w') && w' == w.(cache := w'.cache, checks := w'.checks)
    requires |w.cache.objects| <= |w'.cache.objects|
    requires forall o | 0 <= o < |w.cache.objects| :: w'.cache.objects[o].version == w.cache.objects[o].version
    requires check in w'.checks && CheckSound(w', w'.checks[check])
    requires forall c | c in w'.checks && c != check :: c in w.checks && w'.checks[c] == w.checks[c]
    ensures Inv(w')
  {
    forall c | c in w'.checks ensures CheckSound(w', w'.checks[c]) {
      if c != check {
        CheckStaysSound(w, w', w.checks[c]);
      }
    }
  }

  lemma BeginStep(w: World, check: nat, handle: Handle, input: CheckInput)
    requires Inv(w) && Enabled(w, Begin(check, handle, input))
    ensures Inv(Step(w, Begin(check, handle, input)))
  {
    var w' := Step(w, Begin(check, handle, input));
    var k := w'.checks[check];
    if k.calm {
      forall i: nat | i <= k.begunAt && ChangesTables(w.history, i) ensures i in k.settled {
        assert Unbumped(w, i) || i in w.settled;
      }
    }
    CacheStaysSound(w, w');
    CheckStep(w, w', check);
  }

  lemma ReadStep(w: World, check: nat)
    requires Inv(w) && Enabled(w, ReadVersion(check))
    ensures Inv(Step(w, ReadVersion(check)))
  {
    var k := w.checks[check];
    forall change | change in k.settled && change in w.settled ensures w.settled[change] <= Version(Present(w)) {
      assert Settles(w.history, change, w.settled[change]);
    }
    CacheStaysSound(w, Step(w, ReadVersion(check)));
    CheckStep(w, Step(w, ReadVersion(check)), check);
  }

  lemma EnterKeepsCache(w: World, w': World, h: Handle, version: nat)
    requires CacheSound(w) && Later(w, w') && w'.cache == Enter(w.cache, h, version)
    ensures CacheSound(w')
  {
    forall o, key | 0 <= o < |w'.cache.objects| && key in w'.cache.objects[o].decisions
      ensures DecisionSound(w', w'.cache.objects[o].version, key, w'.cache.objects[o].decisions[key])
    {
      DecisionStaysSound(w, w', w.cache.objects[o].version, key, w.cache.objects[o].decisions[key]);
    }
  }

  /** A check whose answer is justified may take it. */
  lemma AnswerStep(w: World, w': World, check: nat, allowed: bool)
    requires Inv(w) && check in w.checks && CheckSound(w, w.checks[check]) && Justified(w, w.checks[check], allowed)
    requires w'.cache == w.cache || CacheSound(w')
    requires w' == WithPhase(w, check, Answered(allowed)).(cache := w'.cache)
    requires |w.cache.objects| <= |w'.cache.objects|
    requires forall o | 0 <= o < |w.cache.objects| :: w'.cache.objects[o].version == w.cache.objects[o].version
    ensures Inv(w')
  {
    hide Accounted, DecidedAt, OneHop, CacheKey;
    if w'.cache == w.cache {
      CacheStaysSound(w, w');
    }
    var k, k' := w.checks[check], w'.checks[check];
    var t: nat :| RuledAt(w.history, k.input, allowed, t) && Recent(w, k, t);
    assert Recent(w', k', t);
    hide CacheSound, Monotone, ValidCache;
    CheckStep(w, w', check);
  }

  lemma LookupStep(w: World, check: nat)
    requires Inv(w) && Enabled(w, Lookup(check))
    ensures Inv(Step(w, Lookup(check)))
  {
    hide Accounted, DecidedAt, OneHop, CacheKey;
    var w' := Step(w, Lookup(check));
    var k := w.checks[check];
    var key, now := CacheKey(k.input), Present(w).clock;
    var state := w'.cache.objects[w'.cache.current[k.handle]];
    EnterKeepsCache(w, w', k.handle, k.phase.version);
    assert state.version == k.phase.version && w.history[k.begunAt].clock <= now;
    if Cached(state, key, now).Some? {
      DecisionStaysSound(w', w, state.version, key, state.decisions[key]);
      DecisionAnswers(w, k, state.version, state.decisions[key]);
      hide Justified, CacheSound;
      AnswerStep(w, w', check, state.decisions[key].allowed);
    } else {
      hide DecisionSound;
      CheckStep(w, w', check);
    }
  }

  lemma SameVerdict(tables: Tables, a: CheckInput, b: CheckInput)
    requires SameCheck(a, b)
    ensures OneHop(tables, a) == OneHop(tables, b)
  {
    assert forall ty, id :: Needs(a, ty, id) == Needs(b, ty, id);
  }

  /** The decision the database takes is sound for any version up to the present one. */
  lemma QueryDecides(w: World, version: nat, input: CheckInput, now: int)
    requires w.history != [] && Apart(w.asked) && input in w.asked
    requires version <= Version(Present(w)) && now <= Present(w).clock
    ensures DecisionSound(w, version, CacheKey(input), Decision(QueryDecision(Present(w).tables, input), now + w.ttl))
  {
    var t := |w.history| - 1;
    var verdict := QueryDecision(Present(w).tables, input);
    QueryIsOneHop(Present(w).tables, input);
    hide QueryDecision, CacheKey;
    forall other | other in w.asked && CacheKey(other) == CacheKey(input)
      ensures OneHop(w.history[t].tables, other) == OneHop(w.history[t].tables, input)
    {
      SameVerdict(w.history[t].tables, other, input);
    }
    hide OneHop;
    assert DecidedAt(w, version, CacheKey(input), Decision(verdict, now + w.ttl), t);
  }

  lemma QueryStep(w: World, check: nat)
    requires Inv(w) && Enabled(w, Query(check))
    ensures Inv(Step(w, Query(check)))
  {
    hide Accounted, DecidedAt, OneHop, QueryDecision, CacheKey, Apart;
    var w' := Step(w, Query(check));
    var k := w.checks[check];
    var version := w.cache.objects[k.phase.slot].version;
    var d := Decision(QueryDecision(Present(w).tables, k.input), k.phase.now + w.ttl);
    QueryDecides(w, version, k.input, k.phase.now);
    assert CheckSound(w, k) && Later(w, w');
    DecisionStaysSound(w, w', version, CacheKey(k.input), d);
    hide DecisionSound;
    CacheStaysSound(w, w');
    CheckStep(w, w', check);
  }

  lemma StoreKeepsCache(w: World, w': World, slot: nat, key: string, d: Decision)
    requires CacheSound(w) && Later(w, w') && slot < |w.cache.objects| && w'.cache == Store(w.cache, slot, key, d)
    requires DecisionSound(w, w.cache.objects[slot].version, key, d)
    ensures CacheSound(w')
  {
    forall o, other | 0 <= o < |w'.cache.objects| && other in w'.cache.objects[o].decisions
      ensures DecisionSound(w', w'.cache.objects[o].version, other, w'.cache.objects[o].decisions[other])
    {
      DecisionStaysSound(w, w', w.cache.objects[o].version, other, w'.cache.objects[o].decisions[other]);
    }
  }

  lemma FinishStep(w: World, check: nat)
    requires Inv(w) && Enabled(w, Finish(check))
    ensures Inv(Step(w, Finish(check)))
  {
    hide Accounted, DecidedAt, OneHop;
    var w' := Step(w, Finish(check));
    var k := w.checks[check];
    var version := w.cache.objects[k.phase.slot].version;
    var d := Decision(k.phase.verdict, k.phase.now + w.ttl);
    assert CheckSound(w, k);
    StoreKeepsCache(w, w', k.phase.slot, CacheKey(k.input), d);
    DecisionAnswers(w, k, version, d);
    hide Justified, CacheSound;
    AnswerStep(w, w', check, d.allowed);
  }

  lemma StepKeeps(w: World, l: Label)
    requires Inv(w) && Enabled(w, l)
    ensures Inv(Step(w, l))
  {
    match l
    case Begin(check, handle, input) => BeginStep(w, check, handle, input);
    case ReadVersion(check) => ReadStep(w, check);
    case Lookup(check) => LookupStep(w, check);
    case Query(check) => QueryStep(w, check);
    case Finish(check) => FinishStep(w, check);
    case Clear(_) =>
      CacheStaysSound(w, Step(w, l));
      ChecksStaySound(w, Step(w, l));
    case _ => DatabaseStep(w, l);
  }

  lemma {:induction false} ExecuteKeeps(w: World, labels: seq<Label>)
    requires Inv(w) && Executes(w, labels)
    ensures Inv(Execute(w, labels))
    decreases |labels|
  {
    if labels != [] {
      StepKeeps(w, labels[0]);
      ExecuteKeeps(Step(w, labels[0]), labels[1..]);
    }
  }

  /**
   * In every interleaving, an answer is the one-hop rule at an instant that reflects every change
   * settled before the check began and lies less than the TTL before its start.
   */
  lemma AnswerIsRecentRule(w: World, labels: seq<Label>, check: nat)
    requires Initial(w) && w.ttl > 0 && Apart(w.asked) && Executes(w, labels)
    requires check in Execute(w, labels).checks && Execute(w, labels).checks[check].phase.Answered?
    ensures var w' := Execute(w, labels); Justified(w', w'.checks[check], w'.checks[check].phase.allowed)
  {
    ExecuteKeeps(w, labels);
    assert CheckSound(Execute(w, labels), Execute(w, labels).checks[check]);
  }

  /** Tables that no change touches between two instants are the same at both. */
  lemma {:induction false} SameTables(history: seq<Snapshot>, start: nat, end: nat)
    requires start <= end < |history|
    requires forall i: nat | start < i <= end :: !ChangesTables(history, i)
    ensures history[start].tables == history[end].tables
  {
    if start < end {
      SameTables(history, start, end - 1);
      assert !ChangesTables(history, end);
    }
  }

  /** A check that begins while no mutator is between its change and its bump is answered by an instant since its
      start. */
  lemma CalmCheckIsFresh(w: World, labels: seq<Label>, check: nat)
    requires Initial(w) && w.ttl > 0 && Apart(w.asked) && Executes(w, labels)
    requires check in Execute(w, labels).checks && Execute(w, labels).checks[check].phase.Answered?
    requires Execute(w, labels).checks[check].calm
    ensures var w' := Execute(w, labels); var k := w'.checks[check];
      exists t: nat :: k.begunAt <= t && RuledAt(w'.history, k.input, k.phase.allowed, t)
  {
    ExecuteKeeps(w, labels);
    var w' := Execute(w, labels);
    var k := w'.checks[check];
    assert CheckSound(w', k);
    var t: nat :| RuledAt(w'.history, k.input, k.phase.allowed, t) && Recent(w', k, t);
    if t < k.begunAt {
      SameTables(w'.history, t, k.begunAt);
      assert RuledAt(w'.history, k.input, k.phase.allowed, k.begunAt);
    }
  }

  lemma {:induction false} ExecuteSnoc(w: World, labels: seq<Label>, l: Label)
    requires Executes(w, labels) && Enabled(Execute(w, labels), l)
    ensures Executes(w, labels + [l]) && Execute(w, labels + [l]) == Step(Execute(w, labels), l)
    decreases |labels|
  {
    if labels == [] {
      assert labels + [l] == [l];
    } else {
      assert (labels + [l])[1..] == labels[1..] + [l];
      ExecuteSnoc(Step(w, labels[0]), labels[1..], l);
    }
  }

  // ---- Mutators that complete without changing a row ----

  predicate InPlace(tables: Tables, m: Mutation) {
    Mutate(tables, m) == tables
  }

  /** The instant since when the mutation's rows have been in place, up to `at`. */
  function PlacedAt(history: seq<Snapshot>, m: Mutation, at: nat): nat
    requires at < |history|
  {
    if at == 0 || !InPlace(history[at - 1].tables, m) then at else PlacedAt(history, m, at - 1)
  }

  /** The instant shows the completed mutation: it comes after the completion, or finds its rows in place. */
  predicate Reflects(history: seq<Snapshot>, n: Noop, t: nat) {
    t < |history| && (t > n.at || InPlace(history[t].tables, n.mutation))
  }

  lemma {:induction false} PlacedSince(history: seq<Snapshot>, m: Mutation, at: nat)
    requires at < |history| && InPlace(history[at].tables, m)
    ensures var p := PlacedAt(history, m, at);
      && p <= at && (p > 0 ==> ChangesTables(history, p))
      && forall t: nat | p <= t <= at :: InPlace(history[t].tables, m)
  {
    if at > 0 && InPlace(history[at - 1].tables, m) {
      PlacedSince(history, m, at - 1);
    }
  }

  ghost predicate NoopsSound(w: World) {
    && w.history != []
    && (forall i | 0 <= i < |w.noops| ::
          w.noops[i].at < |w.history| && InPlace(w.history[w.noops[i].at].tables, w.noops[i].mutation))
    && (forall c | c in w.checks :: w.checks[c].seen <= |w.noops|)
  }

  lemma NoopsStaySound(w: World, l: Label)
    requires NoopsSound(w) && Enabled(w, l)
    ensures NoopsSound(Step(w, l))
  {
    NoopInPlace(w, l);
    hide InPlace;
    var w' := Step(w, l);
    assert w.history <= w'.history && w.noops <= w'.noops;
  }

  lemma NoopInPlace(w: World, l: Label)
    requires w.history != [] && Enabled(w, l)
    ensures Step(w, l).noops != w.noops ==> InPlace(Present(w).tables, l.mutation)
  {
  }

  lemma {:induction false} NoopsStay(w: World, labels: seq<Label>)
    requires NoopsSound(w) && Executes(w, labels)
    ensures NoopsSound(Execute(w, labels))
    decreases |labels|
  {
    if labels != [] {
      NoopsStaySound(w, labels[0]);
      hide NoopsSound, Step, Enabled;
      NoopsStay(Step(w, labels[0]), labels[1..]);
    }
  }

  /** The change that put the no-op's rows in place was settled when the check began, or they were always there. */
  predicate PlacedSettled(w: World, k: Check, n: Noop)
    requires n.at < |w.history|
  {
    var p := PlacedAt(w.history, n.mutation, n.at);
    p == 0 || p in k.settled
  }

  /**
   * In every interleaving, an answer is the rule at one instant that is recent, and that reflects every
   * no-op completed before the check began whose rows were put in place by a change settled by then.
   */
  lemma CompletedNoopsReflected(w: World, labels: seq<Label>, check: nat)
    requires Initial(w) && w.ttl > 0 && Apart(w.asked) && Executes(w, labels)
    requires check in Execute(w, labels).checks && Execute(w, labels).checks[check].phase.Answered?
    ensures var w' := Execute(w, labels); var k := w'.checks[check];
      && k.seen <= |w'.noops| && (forall i | 0 <= i < k.seen :: w'.noops[i].at < |w'.history|)
      && exists t: nat ::
           && RuledAt(w'.history, k.input, k.phase.allowed, t) && Recent(w', k, t)
           && forall i | 0 <= i < k.seen && PlacedSettled(w', k, w'.noops[i]) :: Reflects(w'.history, w'.noops[i], t)
  {
    AnswerIsRecentRule(w, labels, check);
    NoopsStay(w, labels);
    var w' := Execute(w, labels);
    var k := w'.checks[check];
    hide Executes, Execute, OneHop;
    var t: nat :| RuledAt(w'.history, k.input, k.phase.allowed, t) && Recent(w', k, t);
    forall i | 0 <= i < k.seen && PlacedSettled(w', k, w'.noops[i]) ensures Reflects(w'.history, w'.noops[i], t) {
      PlacedSince(w'.history, w'.noops[i].mutation, w'.noops[i].at);
    }
  }

  // ---- And only those ----

  function Start(ttl: nat, tables: Tables, asked: iset<CheckInput>): World {
    World(ttl, [Snapshot(tables, None, 0)], Cache([], map[]), map[], map[], map[], [], asked)
  }

  /** A check has been answered, and the answer cached. */
  function Told(ttl: nat, tables: Tables, asked: iset<CheckInput>, input: CheckInput, verdict: bool): World {
    Start(ttl, tables, asked).(
      cache := Cache([CacheState(0, map[CacheKey(input) := Decision(verdict, ttl)])], map[0 := 0]),
      checks := map[0 := Check(0, input, 0, {}, true, 0, Answered(verdict))])
  }

  /** After that, a mutation has changed the tables but not bumped, and the same one has completed without change. */
  function Repeated(ttl: nat, tables: Tables, asked: iset<CheckInput>, input: CheckInput,
                    verdict: bool, m: Mutation): World {
    Told(ttl, tables, asked, input, verdict).(
      history := [Snapshot(tables, None, 0), Snapshot(Mutate(tables, m), None, 0)],
      pending := map[0 := 1], noops := [Noop(m, 1)])
  }

  ghost predicate Runs(w: World, labels: seq<Label>, end: World) {
    Executes(w, labels) && Execute(w, labels) == end
  }

  lemma RunsOn(w: World, labels: seq<Label>, end: World, l: Label)
    requires Runs(w, labels, end) && Enabled(end, l)
    ensures Runs(w, labels + [l], Step(end, l))
  {
    ExecuteSnoc(w, labels, l);
  }

  /** The first check, its cache state made, in some phase. */
  function Asking(ttl: nat, tables: Tables, asked: iset<CheckInput>, input: CheckInput, phase: Phase): World {
    Start(ttl, tables, asked).(
      cache := Cache([CacheState(0, map[])], map[0 := 0]),
      checks := map[0 := Check(0, input, 0, {}, true, 0, phase)])
  }

  lemma ReachQueried(ttl: nat, tables: Tables, asked: iset<CheckInput>, input: CheckInput) returns (labels: seq<Label>)
    requires input in asked
    ensures Runs(Start(ttl, tables, asked), labels,
                 Asking(ttl, tables, asked, input, Queried(0, 0, OneHop(tables, input))))
  {
    var start := Start(ttl, tables, asked);
    QueryIsOneHop(tables, input);
    labels := [];
    assert Runs(start, labels, start);
    hide OneHop, QueryDecision, CacheKey, Runs;
    RunsOn(start, labels, start, Begin(0, 0, input));
    labels := labels + [Begin(0, 0, input)];
    var w := Step(start, Begin(0, 0, input));
    RunsOn(start, labels, w, ReadVersion(0));
    labels := labels + [ReadVersion(0)];
    w := Step(w, ReadVersion(0));
    RunsOn(start, labels, w, Lookup(0));
    labels := labels + [Lookup(0)];
    w := Step(w, Lookup(0));
    assert w.settled.Keys == {};
    assert w.cache.objects == [CacheState(0, map[])];
    assert w.checks == map[0 := Check(0, input, 0, {}, true, 0, Querying(0, 0))];
    assert w == Asking(ttl, tables, asked, input, Querying(0, 0));
    RunsOn(start, labels, w, Query(0));
    labels := labels + [Query(0)];
    assert Step(w, Query(0)).checks == map[0 := Check(0, input, 0, {}, true, 0, Queried(0, 0, OneHop(tables, input)))];
  }

  lemma ReachTold(ttl: nat, tables: Tables, asked: iset<CheckInput>, input: CheckInput) returns (labels: seq<Label>)
    requires input in asked
    ensures Runs(Start(ttl, tables, asked), labels, Told(ttl, tables, asked, input, OneHop(tables, input)))
  {
    labels := ReachQueried(ttl, tables, asked, input);
    hide OneHop, Runs, CacheKey;
    var w := Asking(ttl, tables, asked, input, Queried(0, 0, OneHop(tables, input)));
    RunsOn(Start(ttl, tables, asked), labels, w, Finish(0));
    labels := labels + [Finish(0)];
    assert Step(w, Finish(0)).cache.objects == Told(ttl, tables, asked, input, OneHop(tables, input)).cache.objects;
    assert Step(w, Finish(0)).checks == Told(ttl, tables, asked, input, OneHop(tables, input)).checks;
  }

  lemma ReachRepeated(ttl: nat, tables: Tables, asked: iset<CheckInput>, input: CheckInput,
                      m: Mutation)
    returns (labels: seq<Label>)
    requires input in asked && !Refuses(m) && Mutate(tables, m) != tables
    ensures Runs(Start(ttl, tables, asked), labels, Repeated(ttl, tables, asked, input, OneHop(tables, input), m))
  {
    var start, told := Start(ttl, tables, asked), Told(ttl, tables, asked, input, OneHop(tables, input));
    labels := ReachTold(ttl, tables, asked, input);
    MutateTwice(tables, m);
    hide OneHop, Runs, CacheKey, Mutate;
    RunsOn(start, labels, told, Change(0, m));
    labels := labels + [Change(0, m)];
    var half := Step(told, Change(0, m));
    RunsOn(start, labels, half, Change(1, m));
    labels := labels + [Change(1, m)];
  }

  /** And then another check has been answered from the cache. */
  function Missed(ttl: nat, tables: Tables, asked: iset<CheckInput>, input: CheckInput,
                  verdict: bool, m: Mutation): World {
    var w := Repeated(ttl, tables, asked, input, verdict, m);
    w.(checks := w.checks[1 := Check(0, input, 1, {}, false, 1, Answered(verdict))])
  }

  /** The second check has read the version, which is the old one. */
  function AskedAgain(ttl: nat, tables: Tables, asked: iset<CheckInput>, input: CheckInput,
                      verdict: bool, m: Mutation): World {
    var w := Repeated(ttl, tables, asked, input, verdict, m);
    w.(checks := w.checks[1 := Check(0, input, 1, {}, false, 1, VersionRead(0))])
  }

  lemma AnsweredStale(ttl: nat, tables: Tables, asked: iset<CheckInput>, input: CheckInput, verdict: bool, m: Mutation)
    requires ttl > 0
    ensures var w := AskedAgain(ttl, tables, asked, input, verdict, m);
      Enabled(w, Lookup(1)) && Step(w, Lookup(1)) == Missed(ttl, tables, asked, input, verdict, m)
  {
    hide Mutate, CacheKey;
    var w := AskedAgain(ttl, tables, asked, input, verdict, m);
    assert Step(w, Lookup(1)).checks == Missed(ttl, tables, asked, input, verdict, m).checks;
  }

  lemma ReachMissed(ttl: nat, tables: Tables, asked: iset<CheckInput>, input: CheckInput,
                    m: Mutation)
    returns (labels: seq<Label>)
    requires input in asked && ttl > 0 && !Refuses(m) && Mutate(tables, m) != tables
    ensures Runs(Start(ttl, tables, asked), labels, Missed(ttl, tables, asked, input, OneHop(tables, input), m))
  {
    var start, verdict := Start(ttl, tables, asked), OneHop(tables, input);
    labels := ReachRepeated(ttl, tables, asked, input, m);
    hide OneHop, Mutate, CacheKey, Runs;
    var w := Repeated(ttl, tables, asked, input, verdict, m);
    assert 0 in w.pending && w.settled.Keys == {};
    RunsOn(start, labels, w, Begin(1, 0, input));
    labels := labels + [Begin(1, 0, input)];
    w := Step(w, Begin(1, 0, input));
    RunsOn(start, labels, w, ReadVersion(1));
    labels := labels + [ReadVersion(1)];
    w := Step(w, ReadVersion(1));
    assert w.checks == AskedAgain(ttl, tables, asked, input, verdict, m).checks;
    AnsweredStale(ttl, tables, asked, input, verdict, m);
    hide Enabled, Step, Missed;
    RunsOn(start, labels, w, Lookup(1));
    labels := labels + [Lookup(1)];
  }

  /**
   * For every mutation that decides a check, whatever its kind: if the change it repeats is not settled when
   * the check begins, there is a run in which it completes before the check begins, and the check is
   * answered by no instant that reflects it.
   */
  lemma UnsettledNoopMissed(ttl: nat, tables: Tables, asked: iset<CheckInput>, input: CheckInput,
                            m: Mutation)
    returns (labels: seq<Label>)
    requires input in asked && ttl > 0 && !Refuses(m)
    requires OneHop(tables, input) != OneHop(Mutate(tables, m), input)
    ensures Initial(Start(ttl, tables, asked)) && Executes(Start(ttl, tables, asked), labels)
    ensures var w := Execute(Start(ttl, tables, asked), labels);
      && 1 in w.checks && w.checks[1].input == input && w.checks[1].phase == Answered(OneHop(tables, input))
      && |w.history| == 2 && w.checks[1].begunAt == 1 && w.checks[1].seen == 1 && w.noops == [Noop(m, 1)]
      && !PlacedSettled(w, w.checks[1], w.noops[0])
      && forall t: nat | RuledAt(w.history, input, OneHop(tables, input), t) :: !Reflects(w.history, w.noops[0], t)
  {
    labels := ReachMissed(ttl, tables, asked, input, m);
    var w := Missed(ttl, tables, asked, input, OneHop(tables, input), m);
    assert w.history[0].tables == tables && w.history[1].tables == Mutate(tables, m) && !InPlace(tables, m);
    hide OneHop, Mutate, Execute, Executes;
    assert PlacedAt(w.history, m, 1) == 1;
  }

  // ---- Such mutations exist of every kind ----

  const NOTHING := Tables({}, {}, {})

  /** A direct grant, its revocation, a membership of a granted team, and its revocation each decide a check. */
  lemma EachKindDecides(input: CheckInput, team: string)
    requires SubjectType(input) == "user" && input.subjectId != team
    ensures
      var direct, byTeam := Needs(input, "user", input.subjectId), Needs(input, "team", team);
      var member := Membership("user", input.subjectId, "team", team);
      var granted, empty := NOTHING.(tuples := {direct}), NOTHING.(tuples := {byTeam});
      var full := Tables({byTeam}, {member}, {});
      && !OneHop(NOTHING, input) && OneHop(Mutate(NOTHING, GrantRelation(direct)), input)
      && OneHop(granted, input) && !OneHop(Mutate(granted, RevokeRelation(direct)), input)
      && !OneHop(Mutate(granted, RevokeAllForSubject(input.subjectId, "user")), input)
      && !OneHop(empty, input) && OneHop(Mutate(empty, GrantMembership(member)), input)
      && OneHop(full, input) && !OneHop(Mutate(full, RevokeMembership(member)), input)
      && !OneHop(Mutate(full, RevokeAllMembershipsForMember(input.subjectId, "user")), input)
  {
    var byTeam, member := Needs(input, "team", team), Membership("user", input.subjectId, "team", team);
    var full := Tables({byTeam}, {member}, {});
    assert member in full.memberships && Inherits(full, input);
    assert Mutate(NOTHING.(tuples := {byTeam}), GrantMembership(member)) == full;
  }

  /** In particular a grant asked for again completes before the check begins, and the check is refused all the same. */
  lemma CompletedGrantMissed(ttl: nat, asked: iset<CheckInput>, input: CheckInput) returns (labels: seq<Label>)
    requires input in asked && ttl > 0
    ensures Executes(Start(ttl, NOTHING, asked), labels)
    ensures var w := Execute(Start(ttl, NOTHING, asked), labels);
      && 1 in w.checks && w.checks[1].input == input && w.checks[1].phase == Answered(false) && w.checks[1].seen == 1
      && w.noops == [Noop(GrantRelation(Needs(input, SubjectType(input), input.subjectId)), 1)]
      && forall t: nat | w.checks[1].begunAt <= t < |w.history| :: OneHop(w.history[t].tables, input)
  {
    var grant := GrantRelation(Needs(input, SubjectType(input), input.subjectId));
    assert !OneHop(NOTHING, input) && OneHop(Mutate(NOTHING, grant), input);
    labels := ReachMissed(ttl, NOTHING, asked, input, grant);
    hide OneHop, Mutate, Execute, Executes;
  }

  // ---- The cache is used ----

  /**
   * A decision just stored answers every other check with its key that has read the same version through the
   * same handle, as long as it lives; after that the database is asked again.
   */
  lemma AnswerIsReused(w: World, check: nat, other: nat)
    requires Enabled(w, Finish(check)) && other != check && Enabled(w, Lookup(other))
    requires var k, o := w.checks[check], w.checks[other];
      && CacheKey(o.input) == CacheKey(k.input)
      && o.handle in w.cache.current && w.cache.current[o.handle] == k.phase.slot
      && w.cache.objects[k.phase.slot].version == o.phase.version
    ensures var w1, p := Step(w, Finish(check)), w.checks[check].phase;
      && w1.checks[check].phase == Answered(p.verdict)
      && Enabled(w1, Lookup(other))
      && var w2 := Step(w1, Lookup(other));
      && w2.cache == w1.cache
      && w2.checks[other].phase == if Present(w).clock < p.now + w.ttl then Answered(p.verdict)
           else Querying(p.slot, Present(w).clock)
  {
    hide CacheKey;
  }

  /** A check that reads another version than its handle's state has starts an empty one and asks the database. */
  lemma NewVersionIsAsked(w: World, check: nat)
    requires Enabled(w, Lookup(check))
    requires var k := w.checks[check];
      k.handle in w.cache.current ==> w.cache.objects[w.cache.current[k.handle]].version != k.phase.version
    ensures var w', k := Step(w, Lookup(check)), w.checks[check];
      && w'.cache.objects == w.cache.objects + [CacheState(k.phase.version, map[])]
      && w'.cache.current == w.cache.current[k.handle := |w.cache.objects|]
      && w'.checks[check].phase == Querying(|w.cache.objects|, Present(w).clock)
  {
  }

  // ---- Which checks may be asked ----

  /** Every answer of every run is the rule at one recent instant. */
  ghost predicate AlwaysJustified(asked: iset<CheckInput>) {
    forall w, labels, check |
      && Initial(w) && w.ttl > 0 && w.asked == asked && Executes(w, labels)
      && check in Execute(w, labels).checks && Execute(w, labels).checks[check].phase.Answered? ::
      var w' := Execute(w, labels);
      Justified(w', w'.checks[check], w'.checks[check].phase.allowed)
  }

  function Granted(a: CheckInput): Tables {
    NOTHING.(tuples := {Needs(a, SubjectType(a), a.subjectId)})
  }

  /** After the answer to `a`, a check of `b` has read the same version. */
  function AskedOther(ttl: nat, asked: iset<CheckInput>, a: CheckInput, b: CheckInput, phase: Phase): World {
    var w := Told(ttl, Granted(a), asked, a, true);
    w.(checks := w.checks[1 := Check(0, b, 0, {}, true, 0, phase)])
  }

  lemma TakesOtherAnswer(ttl: nat, asked: iset<CheckInput>, a: CheckInput, b: CheckInput)
    requires ttl > 0 && CacheKey(a) == CacheKey(b)
    ensures Enabled(AskedOther(ttl, asked, a, b, VersionRead(0)), Lookup(1))
    ensures Step(AskedOther(ttl, asked, a, b, VersionRead(0)), Lookup(1)) ==
            AskedOther(ttl, asked, a, b, Answered(true))
  {
    hide CacheKey;
    var w := AskedOther(ttl, asked, a, b, VersionRead(0));
    assert Step(w, Lookup(1)).checks == AskedOther(ttl, asked, a, b, Answered(true)).checks;
  }

  /** For any two checks under one key: a run in which one is granted the other's answer, and at no time its own. */
  lemma AnswersTheOther(ttl: nat, asked: iset<CheckInput>, a: CheckInput, b: CheckInput) returns (labels: seq<Label>)
    requires a in asked && b in asked && ttl > 0 && CacheKey(a) == CacheKey(b) && !SameCheck(a, b)
    ensures var start := Start(ttl, Granted(a), asked);
      && Initial(start) && Executes(start, labels)
      && var w := Execute(start, labels);
      && 1 in w.checks && w.checks[1].input == b && w.checks[1].phase == Answered(true)
      && forall t: nat | t < |w.history| :: !OneHop(w.history[t].tables, b)
  {
    var start, told := Start(ttl, Granted(a), asked), Told(ttl, Granted(a), asked, a, true);
    assert OneHop(Granted(a), a) && !OneHop(Granted(a), b);
    labels := ReachTold(ttl, Granted(a), asked, a);
    TakesOtherAnswer(ttl, asked, a, b);
    hide OneHop, CacheKey, Granted, Runs;
    assert told.settled.Keys == {};
    RunsOn(start, labels, told, Begin(1, 0, b));
    labels := labels + [Begin(1, 0, b)];
    var w := Step(told, Begin(1, 0, b));
    RunsOn(start, labels, w, ReadVersion(1));
    labels := labels + [ReadVersion(1)];
    w := Step(w, ReadVersion(1));
    assert w.checks == AskedOther(ttl, asked, a, b, VersionRead(0)).checks;
    RunsOn(start, labels, w, Lookup(1));
    labels := labels + [Lookup(1)];
    RunsTo(start, labels, AskedOther(ttl, asked, a, b, Answered(true)));
  }

  lemma RunsTo(w: World, labels: seq<Label>, end: World)
    requires Runs(w, labels, end)
    ensures Executes(w, labels) && Execute(w, labels) == end
  {
  }

  lemma Refutes(asked: iset<CheckInput>, a: CheckInput, b: CheckInput)
    requires a in asked && b in asked && CacheKey(a) == CacheKey(b) && !SameCheck(a, b)
    ensures !AlwaysJustified(asked)
  {
    var labels := AnswersTheOther(1, asked, a, b);
    hide OneHop, CacheKey, Granted;
    var start := Start(1, Granted(a), asked);
    var w := Execute(start, labels);
    assert start.asked == asked && start.ttl > 0;
    hide Execute, Executes, Initial, Start;
    assert !Justified(w, w.checks[1], true);
  }

  /** A set of checks may be asked exactly if its keys keep them apart. */
  lemma JustifiedExactly(asked: iset<CheckInput>)
    ensures AlwaysJustified(asked) <==> Apart(asked)
  {
    if Apart(asked) {
      forall w, labels, check |
        && Initial(w) && w.ttl > 0 && w.asked == asked && Executes(w, labels)
        && check in Execute(w, labels).checks && Execute(w, labels).checks[check].phase.Answered?
        ensures var w' := Execute(w, labels); Justified(w', w'.checks[check], w'.checks[check].phase.allowed)
      {
        AnswerIsRecentRule(w, labels, check);
      }
    }
    if AlwaysJustified(asked) {
      forall a, b | a in asked && b in asked && CacheKey(a) == CacheKey(b) ensures SameCheck(a, b) {
        if !SameCheck(a, b) {
          Refutes(asked, a, b);
          assert false;
        }
      }
    }
  }

  /** Of typed checks those may be asked of which none hides another's fields. */
  lemma TypedApart(asked: iset<CheckInput>)
    requires forall a | a in asked :: Typed(a)
    ensures Apart(asked) <==> forall a, b | a in asked && b in asked :: !Shadows(a, b)
  {
    hide Typed, CacheKey, SameCheck, Shadows;
    forall a, b | a in asked && b in asked
      ensures CacheKey(a) == CacheKey(b) && !SameCheck(a, b) <==> Shadows(a, b) || Shadows(b, a)
    {
      TypedCollideExactly(a, b);
    }
  }

  /** In particular those whose subject ids are free of the separator. */
  lemma CleanApart(asked: iset<CheckInput>)
    requires forall a | a in asked :: Clean(a)
    ensures Apart(asked)
  {
    forall a, b | a in asked && b in asked && CacheKey(a) == CacheKey(b) ensures SameCheck(a, b) {
      KeyIdentifiesCheck(a, b);
    }
  }
}
