/**
 Concurrent requests for the catalog, interleaved with each other, with writes to the
 database, with clearing of the cache and with the passing of time.  Every step is one
 atomic action: one query, one call on the cache under its mutex, or one event outside.
 */
module CatalogRequests {
  import opened Outcomes
  import opened CatalogCaches

  /** What the two queries would answer at one instant: the freshness token and the watched events. */
  datatype Instant = Instant(token: string, events: Events)

  /** Tokens identify the watched state and never recur for another: a token seen twice held in between. */
  ghost predicate TokensIdentify(history: seq<Instant>) {
    forall i, k, j :: 0 <= i <= k <= j < |history| && history[i].token == history[j].token ==>
                        history[k].events == history[i].events
  }

  /**
   How far a request has come.  The token is "" when the freshness read failed.  The numbers
   are instants, kept for the specification: when the token was read, when the catalog was
   built, and which instant the answer is the state of.
   */
  datatype Phase =
    | Started
    | LookingUp(token: string, readAt: nat)
    | Rebuilding(token: string, readAt: nat)
    | Storing(token: string, readAt: nat, entry: Entry, builtAt: nat)
    | Answered(entry: Entry, asOf: nat, answeredAt: nat)
    | Failed

  datatype Request = Request(startedAt: nat, phase: Phase)

  datatype World = World(history: seq<Instant>, cache: Option<CacheValue>, now: int, requests: map<nat, Request>,
                         storedReadAt: nat, storedBuiltAt: nat, lookups: nat)

  datatype Action =
    | Write(instant: Instant)
    | Tick(seconds: nat)
    | Clear
    | Begin(id: nat)
    | ReadFreshness(id: nat, succeeds: bool)
    | Lookup(id: nat)
    | Build(id: nat, succeeds: bool)
    | Store(id: nat)

  function Now(w: World): nat
    requires w.history != []
  {
    |w.history| - 1
  }

  /** One more instant, at which the database is as it was. */
  function Passed(w: World): World
    requires w.history != []
  {
    w.(history := w.history + [w.history[Now(w)]])
  }

  function Moved(w: World, id: nat, phase: Phase): World
    requires w.history != [] && id in w.requests
  {
    Passed(w).(requests := w.requests[id := w.requests[id].(phase := phase)])
  }

  predicate Enabled(w: World, a: Action)
    requires w.history != []
  {
    match a
    case Write(_) => true
    case Tick(_) => true
    case Clear => w.cache.Some?
    case Begin(id) => id !in w.requests
    case ReadFreshness(id, _) => id in w.requests && w.requests[id].phase.Started?
    case Lookup(id) => id in w.requests && w.requests[id].phase.LookingUp?
    case Build(id, _) => id in w.requests && w.requests[id].phase.Rebuilding?
    case Store(id) => id in w.requests && w.requests[id].phase.Storing?
  }

  function After(w: World, a: Action, hash: Events -> string): (w': World)
    requires w.history != [] && Enabled(w, a)
    ensures |w'.history| == |w.history| + 1 && w.history < w'.history
  {
    match a
    case Write(instant) => w.(history := w.history + [instant])
    case Tick(seconds) => Passed(w).(now := w.now + seconds)
    case Clear => Passed(w).(cache := Some(Cleared(w.cache.value)))
    case Begin(id) => Passed(w).(requests := w.requests[id := Request(Now(w) + 1, Started)])
    case ReadFreshness(id, succeeds) =>
      var at := Now(w) + 1;
      var token := if succeeds then w.history[Now(w)].token else "";
      Moved(w, id, if succeeds && w.cache.Some? then LookingUp(token, at) else Rebuilding(token, at))
    case Lookup(id) => AfterLookup(w, id)
    case Build(id, succeeds) =>
      var phase := w.requests[id].phase;
      var at := Now(w) + 1;
      var entry := Serialized(w.history[Now(w)].events, hash);
      Moved(w, id, if !succeeds then Failed
                   else if phase.token != "" && w.cache.Some? then Storing(phase.token, phase.readAt, entry, at)
                   else Answered(entry, at, at))
    case Store(id) =>
      var phase := w.requests[id].phase;
      if w.cache.None? then Moved(w, id, Answered(phase.entry, phase.builtAt, Now(w) + 1)) else
      Moved(w, id, Answered(phase.entry, phase.builtAt, Now(w) + 1))
      .(cache := Some(Stored(w.cache.value, phase.token, phase.entry, w.now)),
        storedReadAt := phase.readAt, storedBuiltAt := phase.builtAt)
  }

  /** A hit answers; a miss goes on to rebuild. */
  function AfterLookup(w: World, id: nat): (w': World)
    requires w.history != [] && Enabled(w, Lookup(id))
    ensures |w'.history| == |w.history| + 1 && w.history < w'.history
  {
    var phase := w.requests[id].phase;
    if w.cache.None? then Moved(w, id, Rebuilding(phase.token, phase.readAt)) else
    var c := w.cache.value;
    var w' := w.(cache := Some(LookedUp(c, phase.token, w.now)), lookups := w.lookups + 1);
    if Hits(c, phase.token, w.now) then
      Moved(w', id, Answered(c.entry, if phase.readAt <= w.storedBuiltAt then w.storedBuiltAt else phase.readAt,
                             Now(w) + 1))
    else
      Moved(w', id, Rebuilding(phase.token, phase.readAt))
  }

  // ---------- The invariant ----------

  /** entry is the watched state of instant t, with its own hash. */
  ghost predicate StateOf(w: World, entry: Entry, t: nat, hash: Events -> string) {
    t < |w.history| && entry == Serialized(w.history[t].events, hash)
  }

  ghost predicate TokenOf(w: World, token: string, t: nat) {
    t < |w.history| && token == w.history[t].token
  }

  ghost predicate RequestInv(w: World, r: Request, hash: Events -> string) {
    && r.startedAt < |w.history|
    && match r.phase
       case Started => true
       case LookingUp(token, readAt) => r.startedAt <= readAt && TokenOf(w, token, readAt)
       case Rebuilding(token, readAt) =>
         r.startedAt <= readAt < |w.history| && (token != "" ==> TokenOf(w, token, readAt))
       case Storing(token, readAt, entry, builtAt) =>
         && r.startedAt <= readAt <= builtAt && token != ""
         && TokenOf(w, token, readAt) && StateOf(w, entry, builtAt, hash)
       case Answered(entry, asOf, answeredAt) =>
         r.startedAt <= asOf <= answeredAt < |w.history| && StateOf(w, entry, asOf, hash)
       case Failed => true
  }

  /** A held entry was built no earlier than its token was read. */
  ghost predicate CacheInv(w: World, hash: Events -> string) {
    w.cache.Some? ==>
      && w.cache.value.hits + w.cache.value.misses == w.lookups
      && (w.cache.value.hasEntry ==>
            && w.storedReadAt <= w.storedBuiltAt
            && w.cache.value.token != "" && TokenOf(w, w.cache.value.token, w.storedReadAt)
            && StateOf(w, w.cache.value.entry, w.storedBuiltAt, hash))
  }

  ghost predicate Inv(w: World, hash: Events -> string) {
    && w.history != []
    && CacheInv(w, hash)
    && forall id :: id in w.requests ==> RequestInv(w, w.requests[id], hash)
  }

  lemma HistoryOnlyGrows(w: World, w': World, hash: Events -> string)
    requires w.history <= w'.history
    ensures forall r :: RequestInv(w, r, hash) ==> RequestInv(w', r, hash)
    ensures (CacheInv(w, hash) && w'.cache == w.cache && w'.storedReadAt == w.storedReadAt
             && w'.storedBuiltAt == w.storedBuiltAt && w'.lookups == w.lookups) ==> CacheInv(w', hash)
  {
  }

  /** A hit is the watched state of an instant no earlier than the request's own token read. */
  lemma HitIsCurrent(w: World, id: nat, hash: Events -> string)
    requires Inv(w, hash) && TokensIdentify(w.history) && Enabled(w, Lookup(id)) && w.cache.Some?
    requires Hits(w.cache.value, w.requests[id].phase.token, w.now)
    ensures var readAt := w.requests[id].phase.readAt;
            StateOf(w, w.cache.value.entry, if readAt <= w.storedBuiltAt then w.storedBuiltAt else readAt, hash)
  {
    var readAt := w.requests[id].phase.readAt;
    assert RequestInv(w, w.requests[id], hash);
    if w.storedBuiltAt < readAt {
      var i, k, j := w.storedReadAt, w.storedBuiltAt, readAt;
      assert w.history[i].token == w.history[j].token;
      assert w.history[k].events == w.history[i].events;
      assert w.history[j].events == w.history[i].events;
    }
  }

  lemma LookupKeepsInv(w: World, id: nat, hash: Events -> string)
    requires Inv(w, hash) && TokensIdentify(w.history) && Enabled(w, Lookup(id))
    ensures Inv(AfterLookup(w, id), hash)
  {
    hide TokensIdentify;
    var w' := AfterLookup(w, id);
    HistoryOnlyGrows(w, w', hash);
    assert RequestInv(w, w.requests[id], hash);
    if w.cache.Some? && Hits(w.cache.value, w.requests[id].phase.token, w.now) {
      HitIsCurrent(w, id, hash);
    }
    assert RequestInv(w', w'.requests[id], hash);
  }

  lemma StepKeepsInv(w: World, a: Action, hash: Events -> string)
    requires Inv(w, hash) && TokensIdentify(w.history) && Enabled(w, a)
    ensures Inv(After(w, a, hash), hash)
  {
    hide TokensIdentify;
    if a.Lookup? {
      LookupKeepsInv(w, a.id, hash);
    } else {
      hide AfterLookup;
      var w' := After(w, a, hash);
      HistoryOnlyGrows(w, w', hash);
      if !a.Write? && !a.Tick? && !a.Clear? {
        assert a.Begin? || RequestInv(w, w.requests[a.id], hash);
        assert RequestInv(w', w'.requests[a.id], hash);
      }
    }
  }

  // ---------- Whole runs ----------

  function Initial(first: Instant, maximumAge: Option<int>): World {
    World([first], if maximumAge.Some? then Some(Empty(maximumAge.value)) else None, 0, map[], 0, 0, 0)
  }

  /** Every action of a sequence is enabled when its turn comes. */
  predicate CanRun(w: World, actions: seq<Action>, hash: Events -> string)
    requires w.history != []
    decreases |actions|
  {
    actions != [] ==> Enabled(w, actions[0]) && CanRun(After(w, actions[0], hash), actions[1..], hash)
  }

  function Run(w: World, actions: seq<Action>, hash: Events -> string): (w': World)
    requires w.history != [] && CanRun(w, actions, hash)
    ensures w.history <= w'.history
    decreases |actions|
  {
    if actions == [] then w else Run(After(w, actions[0], hash), actions[1..], hash)
  }

  lemma IdentifiedBefore(h: seq<Instant>, h': seq<Instant>)
    requires h <= h' && TokensIdentify(h')
    ensures TokensIdentify(h)
  {
    forall i, k, j | 0 <= i <= k <= j < |h| && h[i].token == h[j].token
      ensures h[k].events == h[i].events
    {
      assert h'[i].token == h'[j].token;
      assert h'[k].events == h'[i].events;
    }
  }

  lemma {:induction false} RunKeepsInv(w: World, actions: seq<Action>, hash: Events -> string)
    requires w.history != [] && Inv(w, hash) && CanRun(w, actions, hash)
    requires TokensIdentify(Run(w, actions, hash).history)
    ensures Inv(Run(w, actions, hash), hash)
    decreases |actions|
  {
    hide Inv, TokensIdentify, After, Enabled;
    if actions != [] {
      var w' := After(w, actions[0], hash);
      IdentifiedBefore(w.history, Run(w, actions, hash).history);
      StepKeepsInv(w, actions[0], hash);
      RunKeepsInv(w', actions[1..], hash);
    }
  }

  /**
   In every interleaving, every catalog handed out - hit or rebuilt - is the watched state of
   the database at some instant between the start of its request and its answer, and carries
   the hash of that very catalog.
   */
  lemma EveryAnswerIsCurrent(first: Instant, maximumAge: Option<int>, actions: seq<Action>, hash: Events -> string,
                             id: nat)
    requires CanRun(Initial(first, maximumAge), actions, hash)
    requires var w := Run(Initial(first, maximumAge), actions, hash);
             TokensIdentify(w.history) && id in w.requests && w.requests[id].phase.Answered?
    ensures var w := Run(Initial(first, maximumAge), actions, hash);
            var r := w.requests[id];
            && (exists t :: r.startedAt <= t <= r.phase.answeredAt < |w.history|
                            && r.phase.entry.catalog == w.history[t].events)
            && r.phase.entry.hash == hash(r.phase.entry.catalog)
  {
    var w0 := Initial(first, maximumAge);
    assert Inv(w0, hash);
    RunKeepsInv(w0, actions, hash);
    var w := Run(w0, actions, hash);
    assert RequestInv(w, w.requests[id], hash);
    var t := w.requests[id].phase.asOf;
    assert w.requests[id].phase.entry.catalog == w.history[t].events;
  }

  predicate Counted(w: World) {
    w.cache.Some? ==> w.cache.value.hits + w.cache.value.misses == w.lookups
  }

  lemma {:induction false} RunKeepsCount(w: World, actions: seq<Action>, hash: Events -> string)
    requires w.history != [] && CanRun(w, actions, hash) && Counted(w)
    ensures Counted(Run(w, actions, hash))
    decreases |actions|
  {
    if actions != [] {
      RunKeepsCount(After(w, actions[0], hash), actions[1..], hash);
    }
  }

  /** Every lookup of every run is counted once, as a hit or as a miss. */
  lemma EveryLookupIsCounted(first: Instant, maximumAge: int, actions: seq<Action>, hash: Events -> string)
    requires CanRun(Initial(first, Some(maximumAge)), actions, hash)
    ensures Counted(Run(Initial(first, Some(maximumAge)), actions, hash))
  {
    RunKeepsCount(Initial(first, Some(maximumAge)), actions, hash);
  }

  // ---------- The sequential method is one way through these steps ----------

  function LookedUpAlone(w: World, id: nat, tokenRead: bool, hash: Events -> string): (w': World)
    requires w.history != [] && id !in w.requests
    ensures w'.history != [] && id in w'.requests
  {
    var w1 := After(After(w, Begin(id), hash), ReadFreshness(id, tokenRead), hash);
    if w1.requests[id].phase.LookingUp? then After(w1, Lookup(id), hash) else w1
  }

  /** One request taken through its steps with nothing but a pause before the store. */
  function Alone(w: World, id: nat, tokenRead: bool, builds: bool, pause: nat, hash: Events -> string): (w': World)
    requires w.history != [] && id !in w.requests
    ensures id in w'.requests
  {
    var w2 := LookedUpAlone(w, id, tokenRead, hash);
    if !w2.requests[id].phase.Rebuilding? then w2 else
    var w3 := After(After(w2, Build(id, builds), hash), Tick(pause), hash);
    if w3.requests[id].phase.Storing? then After(w3, Store(id), hash) else w3
  }

  /** The steps up to the lookup's answer, or to a rebuild. */
  lemma AloneLooksUp(w: World, id: nat, tokenRead: bool, hash: Events -> string)
    requires w.history != [] && id !in w.requests
    ensures var w2 := LookedUpAlone(w, id, tokenRead, hash);
            var last := w.history[Now(w)];
            var phase := w2.requests[id].phase;
            && w.history < w2.history && (forall t :: Now(w) < t < |w2.history| ==> w2.history[t] == last)
            && w2.now == w.now && w2.requests[id].startedAt == Now(w) + 1
            && w2.cache == (if tokenRead && w.cache.Some? then Some(LookedUp(w.cache.value, last.token, w.now))
                            else w.cache)
            && if tokenRead && w.cache.Some? && Hits(w.cache.value, last.token, w.now)
               then phase.Answered? && phase.entry == w.cache.value.entry && phase.answeredAt == Now(w2)
               else phase.Rebuilding? && phase.token == if tokenRead then last.token else ""
  {
    hide Hits, LookedUp;
  }

  /** One request that nothing interrupts answers and stores what the sequential method does. */
  lemma AloneIsUninterrupted(w: World, id: nat, tokenRead: bool, builds: bool, pause: nat, hash: Events -> string)
    requires w.history != [] && id !in w.requests
    ensures var last := w.history[Now(w)];
            var w' := Alone(w, id, tokenRead, builds, pause, hash);
            var phase := w'.requests[id].phase;
            (w'.cache, if phase.Answered? then Some(phase.entry) else None)
            == Uninterrupted(w.cache, if tokenRead then Some(last.token) else None,
                             if builds then Some(last.events) else None, hash, w.now, w.now + pause)
  {
    hide Hits, LookedUp, Stored, LookedUpAlone;
    AloneLooksUp(w, id, tokenRead, hash);
  }

  // ---------- Why the token is read first ----------

  /** A request with its two reads exchanged: it builds, a write comes in, and then it reads the token and stores. */
  function BuiltThenRead(w: World, instant: Instant, hash: Events -> string): (w': World)
    requires w.history != [] && w.cache.Some?
    ensures w'.history != [] && w'.cache.Some? && w'.requests == w.requests && w'.now == w.now
    ensures w'.history == w.history + [w.history[Now(w)], instant, instant]
    ensures w'.cache == Some(Stored(w.cache.value, instant.token, Serialized(w.history[Now(w)].events, hash), w.now))
  {
    var built := Serialized(w.history[Now(w)].events, hash);
    var w1 := After(Passed(w), Write(instant), hash);
    var token := w1.history[Now(w1)].token;
    Passed(w1).(cache := Some(Stored(w.cache.value, token, built, w.now)))
  }

  /**
   With the token read after the catalog is built, a write in between is recorded as already
   included.  Whatever world this happens in and whatever is written, the very next request,
   taking the steps in their right order with nothing going on beside it, is answered with a
   catalog that the database holds at no instant between its start and its answer.  A new token
   for what is written keeps the tokens identifying the state, so they are not to blame.
   */
  lemma TokenReadAfterwardsGoesStale(w: World, instant: Instant, id: nat, hash: Events -> string)
    requires w.history != [] && w.cache.Some? && 0 <= w.cache.value.maximumAge && id !in w.requests
    requires instant.events != w.history[Now(w)].events && instant.token != ""
    ensures var w' := LookedUpAlone(BuiltThenRead(w, instant, hash), id, true, hash);
            var r := w'.requests[id];
            && r.phase.Answered? && r.startedAt <= r.phase.answeredAt < |w'.history|
            && forall t :: r.startedAt <= t <= r.phase.answeredAt ==> r.phase.entry.catalog != w'.history[t].events
    ensures TokensIdentify(w.history) && (forall t :: 0 <= t <= Now(w) ==> w.history[t].token != instant.token) ==>
              TokensIdentify(LookedUpAlone(BuiltThenRead(w, instant, hash), id, true, hash).history)
  {
    hide TokensIdentify, LookedUpAlone;
    var w1 := BuiltThenRead(w, instant, hash);
    AloneLooksUp(w1, id, true, hash);
    NewTokenIdentifies(w.history, LookedUpAlone(w1, id, true, hash).history, instant);
  }

  lemma NewTokenIdentifies(h: seq<Instant>, h': seq<Instant>, instant: Instant)
    requires 0 < |h| < |h'|
    requires forall t :: 0 <= t <= |h| ==> h'[t] == h[if t < |h| then t else |h| - 1]
    requires forall t :: |h| < t < |h'| ==> h'[t] == instant
    ensures TokensIdentify(h) && (forall t :: 0 <= t < |h| ==> h[t].token != instant.token) ==> TokensIdentify(h')
  {
  }
}
