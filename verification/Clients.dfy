/**
 The database client: one session at a time, re-dialled when it drops, and operations that
 are retried once but never after a commit in doubt.

 The server is a script of faults: what each dial and each attempt at the operation meets.
 */
module Clients {
  import opened Outcomes

  datatype Policy = Persistent | OnDemand

  type Row = string

  /** A session as the client sees it, and whether its search path was set after it opened. */
  datatype Session = Session(isOpen: bool, configured: bool)

  datatype ClientValue = ClientValue(policy: Policy, hasSchema: bool, session: Option<Session>)

  /** What dialling meets.  Setting the search path can fail and leave the new session open. */
  datatype Dial =
    | Refused
    | ClosedAtOnce
    | PathFails(leftOpen: bool)
    | Connects

  /** What committing meets.  A commit in doubt may have been applied or not. */
  datatype Finish =
    | Succeeds
    | BreaksFirst
    | LostInDoubt(applied: bool)
    | Rejected

  /**
   What one attempt at a single-transaction operation meets: an exception while rows are still
   being read, or all its rows and then the commit.  A session that broke may still look open.
   */
  datatype Attempt =
    | Interrupted(seen: seq<Row>, broken: bool, looksOpen: bool)
    | Reaches(rows: seq<Row>, finish: Finish, looksOpen: bool)

  /** The two shapes of operation: listUsers assigns its rows after the commit, a scalar query before it. */
  datatype Kind = ListUsers | Scalar

  datatype Script = Script(dial: Dial, attempt: Attempt, redial: Dial, again: Attempt)

  // ---------- One attempt ----------

  predicate Malformed(kind: Kind, attempt: Attempt) {
    attempt.Reaches? && kind.Scalar? && |attempt.rows| != 1
  }

  function Outcome(kind: Kind, attempt: Attempt): Result<()> {
    if Malformed(kind, attempt) then Throws(RuntimeError) else
    match attempt
    case Interrupted(_, broken, _) => Throws(if broken then BrokenConnection else RuntimeError)
    case Reaches(_, finish, _) =>
      match finish
      case Succeeds => Ok(())
      case BreaksFirst => Throws(BrokenConnection)
      case LostInDoubt(_) => Throws(InDoubtError)
      case Rejected => Throws(RuntimeError)
  }

  /** How often the attempt's transaction took effect on the server. */
  function CommitsOf(kind: Kind, attempt: Attempt): nat {
    if attempt.Reaches? && !Malformed(kind, attempt) && attempt.finish in {Succeeds, LostInDoubt(true)} then 1 else 0
  }

  /** What the captured result holds afterwards. */
  function Captured(kind: Kind, before: seq<Row>, attempt: Attempt): seq<Row> {
    match kind
    case ListUsers => if Outcome(kind, attempt).Ok? then attempt.rows else before
    case Scalar => if attempt.Reaches? && !Malformed(kind, attempt) then attempt.rows else before
  }

  /** The session afterwards: one that was lost looks open or not, the others are as they were. */
  function SessionAfter(kind: Kind, session: Session, attempt: Attempt): Session {
    if Outcome(kind, attempt) in {Throws(BrokenConnection), Throws(InDoubtError)}
    then session.(isOpen := attempt.looksOpen) else session
  }

  // ---------- Dialling ----------

  /** Any session held is closed first; there is a search path to set only if there is a schema. */
  function Dialled(c: ClientValue, dial: Dial): (ClientValue, Result<()>) {
    match dial
    case Refused => (c.(session := None), Throws(RuntimeError))
    case ClosedAtOnce => (c.(session := Some(Session(false, false))), Throws(RuntimeError))
    case PathFails(leftOpen) =>
      if c.hasSchema then (c.(session := Some(Session(leftOpen, false))), Throws(RuntimeError))
      else (c.(session := Some(Session(true, true))), Ok(()))
    case Connects => (c.(session := Some(Session(true, true))), Ok(()))
  }

  predicate HasOpen(c: ClientValue) {
    c.session.Some? && c.session.value.isOpen
  }

  function Ensured(c: ClientValue, dial: Dial): (r: (ClientValue, Result<()>))
    ensures r.1.Ok? ==> HasOpen(r.0)
  {
    if HasOpen(c) then (c, Ok(())) else Dialled(c, dial)
  }

  function Closed(c: ClientValue): ClientValue {
    if c.policy.OnDemand? then c.(session := None) else c
  }

  // ---------- One call of execute ----------

  /** One attempt that was really made, and on what kind of session. */
  datatype Made = Made(configured: bool, attempt: Attempt)

  /** What one call leaves behind: the client, the captured result, the answer and the attempts made. */
  datatype Executed = Executed(client: ClientValue, captured: seq<Row>, result: Result<()>, made: seq<Made>)

  function Attempted(c: ClientValue, kind: Kind, captured: seq<Row>, attempt: Attempt, made: seq<Made>): Executed
    requires HasOpen(c)
  {
    Executed(c.(session := Some(SessionAfter(kind, c.session.value, attempt))),
             Captured(kind, captured, attempt),
             Outcome(kind, attempt),
             made + [Made(c.session.value.configured, attempt)])
  }

  function Holding(c: ClientValue, kind: Kind, captured: seq<Row>, script: Script): Executed {
    var (c1, dialled) := Ensured(c, script.dial);
    if dialled.Throws? then Executed(c1, captured, dialled, []) else
    var first := Attempted(c1, kind, captured, script.attempt, []);
    if first.result != Throws(BrokenConnection) then first else
    var (c2, redialled) := Dialled(first.client, script.redial);
    if redialled.Throws? then Executed(c2, first.captured, redialled, first.made) else
    Attempted(c2, kind, first.captured, script.again, first.made)
  }

  function Execution(c: ClientValue, kind: Kind, captured: seq<Row>, script: Script): Executed {
    var e := Holding(c, kind, captured, script);
    e.(client := Closed(e.client))
  }

  function CommitCount(kind: Kind, made: seq<Made>): nat {
    if made == [] then 0 else CommitCount(kind, made[..|made| - 1]) + CommitsOf(kind, made[|made| - 1].attempt)
  }

  // ---------- What every fault schedule leaves true ----------

  /**
   Over every fault schedule: at most two attempts and at most one commit; a normal return
   means exactly one commit, made by the last attempt, whose rows are exactly what was
   captured; and an attempt in doubt is the last one made and is reported as in doubt.
   */
  lemma RetriedOnceCommittedOnce(c: ClientValue, kind: Kind, captured: seq<Row>, script: Script)
    ensures var e := Execution(c, kind, captured, script);
            var n := |e.made|;
            && n <= 2
            && CommitCount(kind, e.made) <= 1
            && (e.result.Ok? ==>
                  && n >= 1 && CommitCount(kind, e.made) == 1 && CommitsOf(kind, e.made[n - 1].attempt) == 1
                  && e.made[n - 1].attempt.Reaches? && e.captured == e.made[n - 1].attempt.rows)
            && (forall i :: 0 <= i < n && Outcome(kind, e.made[i].attempt) == Throws(InDoubtError) ==>
                  i == n - 1 && e.result == Throws(InDoubtError))
            && (e.result.Throws? && e.result != Throws(InDoubtError) ==> CommitCount(kind, e.made) == 0)
  {
    var e := Execution(c, kind, captured, script);
    CountOfFew(kind, e.made);
    AttemptsMade(c, kind, captured, script);
    hide Execution, CommitCount;
  }

  /** None, one or two attempts: a second follows only a broken connection, and then decides. */
  lemma AttemptsMade(c: ClientValue, kind: Kind, captured: seq<Row>, script: Script)
    ensures var e := Execution(c, kind, captured, script);
            var first := Outcome(kind, script.attempt);
            || (e.made == [] && e.result == Throws(RuntimeError) && e.captured == captured)
            || (|e.made| == 1 && e.made[0].attempt == script.attempt
                && e.result == (if first == Throws(BrokenConnection) then Throws(RuntimeError) else first)
                && e.captured == Captured(kind, captured, script.attempt))
            || (|e.made| == 2 && e.made[0].attempt == script.attempt && e.made[1].attempt == script.again
                && first == Throws(BrokenConnection) && e.result == Outcome(kind, script.again)
                && e.captured == Captured(kind, Captured(kind, captured, script.attempt), script.again))
  {
    hide Outcome, Captured, SessionAfter;
  }

  /** Dialling ends with a session to run on: it opens, and a search path to set can be set. */
  predicate CanDial(c: ClientValue, dial: Dial) {
    dial.Connects? || (dial.PathFails? && !c.hasSchema)
  }

  /** A dial that works leaves a configured open session, and one that does not throws. */
  lemma DialsExactly(c: ClientValue, dial: Dial)
    ensures Dialled(c, dial).1 == if CanDial(c, dial) then Ok(()) else Throws(RuntimeError)
    ensures CanDial(c, dial) ==> Dialled(c, dial).0.session == Some(Session(true, true))
    ensures !CanDial(c, dial) ==>
              && (HasOpen(Dialled(c, dial).0) <==> dial == PathFails(true))
              && (Dialled(c, dial).0.session.Some? ==> !Dialled(c, dial).0.session.value.configured)
  {
  }

  /**
   How many attempts a call makes: none exactly when there is no open session and none can be
   dialled; a second exactly when the first broke its connection and another can be dialled.
   */
  lemma RetriesExactly(c: ClientValue, kind: Kind, captured: seq<Row>, script: Script)
    ensures var e := Execution(c, kind, captured, script);
            && (e.made == [] <==> !HasOpen(c) && !CanDial(c, script.dial))
            && (|e.made| == 2 <==>
                  && e.made != [] && Outcome(kind, script.attempt) == Throws(BrokenConnection)
                  && CanDial(c, script.redial))
  {
    hide Outcome, Captured, SessionAfter;
  }

  /** Which exception one attempt ends in, if any, and whether its rows are the wrong number for a scalar. */
  lemma OutcomesAre(kind: Kind, attempt: Attempt)
    ensures var wrong := kind.Scalar? && attempt.Reaches? && |attempt.rows| != 1;
            var finishes := attempt.Reaches? && !wrong;
            && (Outcome(kind, attempt) == Ok(()) <==> finishes && attempt.finish == Succeeds)
            && (Outcome(kind, attempt) == Throws(BrokenConnection) <==>
                  (attempt.Interrupted? && attempt.broken) || (finishes && attempt.finish == BreaksFirst))
            && (Outcome(kind, attempt) == Throws(InDoubtError) <==> finishes && attempt.finish.LostInDoubt?)
            && Outcome(kind, attempt) in
                 {Ok(()), Throws(BrokenConnection), Throws(InDoubtError), Throws(RuntimeError)}
            && (CommitsOf(kind, attempt) == 1 <==> finishes && attempt.finish in {Succeeds, LostInDoubt(true)})
  {
  }

  /**
   What the caller is left with: listing users that throws leaves the captured rows alone, a
   scalar query that returns has exactly one, and a persistent client that returned holds an
   open session.
   */
  lemma CallerIsLeftWith(c: ClientValue, kind: Kind, captured: seq<Row>, script: Script)
    ensures var e := Execution(c, kind, captured, script);
            && (kind.ListUsers? && e.result.Throws? ==> e.captured == captured)
            && (kind.Scalar? && e.result.Ok? ==> |e.captured| == 1)
            && (c.policy.Persistent? && e.result.Ok? ==> HasOpen(e.client))
            && (c.policy.Persistent? && e.result == Throws(InDoubtError) ==>
                  (HasOpen(e.client) <==> e.made[|e.made| - 1].attempt.looksOpen))
            && (e.result.Ok? ==> e.captured == if |e.made| == 2 then script.again.rows else script.attempt.rows)
  {
  }

  lemma CountOfFew(kind: Kind, made: seq<Made>)
    ensures made == [] ==> CommitCount(kind, made) == 0
    ensures |made| == 1 ==> CommitCount(kind, made) == CommitsOf(kind, made[0].attempt)
    ensures |made| == 2 ==>
              CommitCount(kind, made) == CommitsOf(kind, made[0].attempt) + CommitsOf(kind, made[1].attempt)
  {
    if |made| == 2 {
      assert made[..1] == [made[0]];
    }
  }

  /** However it ends, an on-demand client holds no connection after the call. */
  lemma OnDemandHoldsNothing(c: ClientValue, kind: Kind, captured: seq<Row>, script: Script)
    ensures c.policy.OnDemand? ==> Execution(c, kind, captured, script).client.session == None
    ensures Execution(c, kind, captured, script).client.policy == c.policy
    ensures Execution(c, kind, captured, script).client.hasSchema == c.hasSchema
  {
  }

  // ---------- The search path over whole runs ----------

  /** Any open session had its search path set after it opened. */
  predicate Ready(c: ClientValue) {
    HasOpen(c) ==> c.session.value.configured
  }

  datatype Event =
    | Connect(dial: Dial)
    | Disconnect
    | Drop
    | Execute(kind: Kind, script: Script)

  function AfterEvent(c: ClientValue, event: Event): ClientValue {
    match event
    case Connect(dial) => Dialled(c, dial).0
    case Disconnect => c.(session := None)
    case Drop => if c.session.Some? then c.(session := Some(c.session.value.(isOpen := false))) else c
    case Execute(kind, script) => Execution(c, kind, [], script).client
  }

  /** What each event leaves of the session, and that none of them changes what the client is. */
  lemma EventsLeave(c: ClientValue, event: Event)
    ensures AfterEvent(c, event).policy == c.policy && AfterEvent(c, event).hasSchema == c.hasSchema
    ensures event.Connect? ==>
              (HasOpen(AfterEvent(c, event)) <==> CanDial(c, event.dial) || event.dial == PathFails(true))
    ensures event.Disconnect? ==> AfterEvent(c, event).session == None
    ensures event.Drop? ==> !HasOpen(AfterEvent(c, event))
  {
    if event.Execute? {
      OnDemandHoldsNothing(c, event.kind, [], event.script);
      hide Execution;
    }
  }

  function MadeBy(c: ClientValue, event: Event): seq<Made> {
    if event.Execute? then Execution(c, event.kind, [], event.script).made else []
  }

  predicate AllConfigured(made: seq<Made>) {
    forall i :: 0 <= i < |made| ==> made[i].configured
  }

  predicate HalfDials(c: ClientValue, dial: Dial) {
    c.hasSchema && dial == PathFails(true)
  }

  /** The last dial of a call to execute, if it makes one. */
  function LastDial(c: ClientValue, kind: Kind, script: Script): Option<Dial> {
    if !HasOpen(c) && Dialled(c, script.dial).1.Throws? then Some(script.dial)
    else if Outcome(kind, script.attempt) == Throws(BrokenConnection) then Some(script.redial)
    else if !HasOpen(c) then Some(script.dial)
    else None
  }

  /**
   The event leaves a session open whose search path could not be set: it was dialled on the
   client's own account by a connect, or by an execute that a persistent client does not
   close after.
   */
  predicate LeavesHalfConnected(c: ClientValue, event: Event) {
    match event
    case Connect(dial) => HalfDials(c, dial)
    case Execute(kind, script) =>
      c.policy.Persistent? && LastDial(c, kind, script).Some? && HalfDials(c, LastDial(c, kind, script).value)
    case _ => false
  }

  /** From a ready client every attempt of the event is configured, and it stays ready unless half connected. */
  lemma EventKeepsReady(c: ClientValue, event: Event)
    requires Ready(c)
    ensures AllConfigured(MadeBy(c, event))
    ensures Ready(AfterEvent(c, event)) <==> !LeavesHalfConnected(c, event)
  {
  }

  /** Whatever the next execute meets, its attempts are all made on configured sessions. */
  ghost predicate NextIsConfigured(c: ClientValue) {
    forall kind, script :: AllConfigured(MadeBy(c, Execute(kind, script)))
  }

  lemma NextIsConfiguredWhenReady(c: ClientValue)
    ensures NextIsConfigured(c) <==> Ready(c)
  {
    forall kind, script | Ready(c)
      ensures AllConfigured(MadeBy(c, Execute(kind, script)))
    {
      EventKeepsReady(c, Execute(kind, script));
    }
    if !Ready(c) {
      var plain := Reaches([], Succeeds, true);
      var made := MadeBy(c, Execute(ListUsers, Script(Connects, plain, Connects, plain)));
      assert !made[0].configured;
    }
  }

  /**
   Exactly when it matters: after an event on a ready client, the attempts of the next
   execute are all made on configured sessions, whatever it meets, if and only if the event
   did not leave the client half connected.
   */
  lemma NextExecuteIsConfigured(c: ClientValue, event: Event)
    requires Ready(c)
    ensures NextIsConfigured(AfterEvent(c, event)) <==> !LeavesHalfConnected(c, event)
  {
    hide NextIsConfigured;
    EventKeepsReady(c, event);
    NextIsConfiguredWhenReady(AfterEvent(c, event));
  }

  function AfterRun(c: ClientValue, events: seq<Event>): ClientValue
    decreases |events|
  {
    if events == [] then c else AfterRun(AfterEvent(c, events[0]), events[1..])
  }

  function MadeByRun(c: ClientValue, events: seq<Event>): seq<Made>
    decreases |events|
  {
    if events == [] then [] else MadeBy(c, events[0]) + MadeByRun(AfterEvent(c, events[0]), events[1..])
  }

  predicate NeverHalfConnected(c: ClientValue, events: seq<Event>)
    decreases |events|
  {
    events != [] ==> !LeavesHalfConnected(c, events[0]) && NeverHalfConnected(AfterEvent(c, events[0]), events[1..])
  }

  /** Over every run that is never left half connected, every attempt is made on a configured session. */
  lemma {:induction false} AttemptsAreConfigured(c: ClientValue, events: seq<Event>)
    requires Ready(c) && NeverHalfConnected(c, events)
    ensures AllConfigured(MadeByRun(c, events))
    decreases |events|
  {
    hide AfterEvent, MadeBy, LeavesHalfConnected, Ready;
    if events != [] {
      EventKeepsReady(c, events[0]);
      AttemptsAreConfigured(AfterEvent(c, events[0]), events[1..]);
    }
  }

  /** At every point of the run, before its first event and after each, an execute would be configured. */
  ghost predicate AlwaysConfigured(c: ClientValue, events: seq<Event>) {
    forall k :: 0 <= k <= |events| ==> NextIsConfigured(AfterRun(c, events[..k]))
  }

  lemma AlwaysConfiguredUnfolds(c: ClientValue, events: seq<Event>)
    requires events != []
    ensures AlwaysConfigured(c, events)
            <==> NextIsConfigured(c) && AlwaysConfigured(AfterEvent(c, events[0]), events[1..])
  {
    hide AfterEvent, NextIsConfigured;
    var c', rest := AfterEvent(c, events[0]), events[1..];
    assert events[..0] == [];
    forall k | 0 <= k <= |rest|
      ensures AfterRun(c, events[..k + 1]) == AfterRun(c', rest[..k])
    {
      assert events[..k + 1][1..] == rest[..k];
    }
    if AlwaysConfigured(c, events) {
      assert NextIsConfigured(AfterRun(c, events[..0]));
      forall k | 0 <= k <= |rest|
        ensures NextIsConfigured(AfterRun(c', rest[..k]))
      {
        assert NextIsConfigured(AfterRun(c, events[..k + 1]));
      }
    }
    if NextIsConfigured(c) && AlwaysConfigured(c', rest) {
      forall k | 0 <= k <= |events|
        ensures NextIsConfigured(AfterRun(c, events[..k]))
      {
        assert k == 0 || AfterRun(c, events[..k - 1 + 1]) == AfterRun(c', rest[..k - 1]);
      }
    }
  }

  /**
   Over whole runs, exactly: an execute is certain of configured sessions at every point of a
   run if and only if the run never leaves the client half connected, and then every attempt
   that the run makes is on one.
   */
  lemma {:induction false} RunsAreConfigured(c: ClientValue, events: seq<Event>)
    requires Ready(c)
    ensures AlwaysConfigured(c, events) <==> NeverHalfConnected(c, events)
    ensures NeverHalfConnected(c, events) ==> AllConfigured(MadeByRun(c, events))
    decreases |events|
  {
    hide AfterEvent, MadeBy, LeavesHalfConnected, Ready, NextIsConfigured, AlwaysConfigured;
    NextIsConfiguredWhenReady(c);
    if NeverHalfConnected(c, events) {
      AttemptsAreConfigured(c, events);
    }
    if events == [] {
      NothingHappens(c);
    } else {
      AlwaysConfiguredUnfolds(c, events);
      EventKeepsReady(c, events[0]);
      var c' := AfterEvent(c, events[0]);
      if LeavesHalfConnected(c, events[0]) {
        NextIsConfiguredWhenReady(c');
        NowIsConfigured(c', events[1..]);
      } else {
        RunsAreConfigured(c', events[1..]);
      }
    }
  }

  lemma NothingHappens(c: ClientValue)
    ensures AlwaysConfigured(c, []) <==> NextIsConfigured(c)
  {
    hide NextIsConfigured;
    var none: seq<Event> := [];
    assert none[..0] == none;
    assert AlwaysConfigured(c, none) ==> NextIsConfigured(AfterRun(c, none[..0]));
  }

  lemma NowIsConfigured(c: ClientValue, events: seq<Event>)
    ensures AlwaysConfigured(c, events) ==> NextIsConfigured(c)
  {
    hide NextIsConfigured;
    assert events[..0] == [];
    assert AlwaysConfigured(c, events) ==> NextIsConfigured(AfterRun(c, events[..0]));
  }

  /**
   A run that is: a persistent client with a schema is half connected by its first call, and
   the operation of its second call commits on a session whose search path was never set.
   */
  lemma HalfConnectedClientRunsUnconfigured()
    ensures var c := ClientValue(Persistent, true, None);
            var query := Reaches(["row"], Succeeds, true);
            var made := MadeByRun(c, [Execute(Scalar, Script(PathFails(true), query, Connects, query)),
                                      Execute(Scalar, Script(Connects, query, Connects, query))]);
            made == [Made(false, query)] && CommitsOf(Scalar, query) == 1
  {
    var c := ClientValue(Persistent, true, None);
    var query := Reaches(["row"], Succeeds, true);
    var first := Execute(Scalar, Script(PathFails(true), query, Connects, query));
    var second := Execute(Scalar, Script(Connects, query, Connects, query));
    assert [first, second][1..] == [second];
    assert MadeBy(c, first) == [] && AfterEvent(c, first).session == Some(Session(true, false));
    assert MadeBy(AfterEvent(c, first), second) == [Made(false, query)];
    assert MadeByRun(AfterEvent(c, first), [second]) == [Made(false, query)] + [];
  }

  // ---------- The classes ----------

  /** A single-transaction operation and the variable it captures its rows in. */
  class Operation {
    const kind: Kind
    var captured: seq<Row>

    constructor (kind: Kind)
      ensures this.kind == kind && captured == []
    {
      this.kind := kind;
      captured := [];
    }

    method Run(attempt: Attempt) returns (r: Result<()>)
      modifies this
      ensures captured == Captured(kind, old(captured), attempt)
      ensures r == Outcome(kind, attempt)
    {
      if kind.ListUsers? {
        r := RunListUsers(attempt);
      } else {
        r := RunScalar(attempt);
      }
    }

    /** Accumulates into a local and assigns once the commit has gone through. */
    method RunListUsers(attempt: Attempt) returns (r: Result<()>)
      requires kind.ListUsers?
      modifies this
      ensures captured == Captured(kind, old(captured), attempt)
      ensures r == Outcome(kind, attempt)
    {
      var source := if attempt.Interrupted? then attempt.seen else attempt.rows;
      var rows: seq<Row> := [];
      for i := 0 to |source|
        invariant rows == source[..i]
      {
        rows := rows + [source[i]];
      }
      if attempt.Interrupted? {
        return Throws(if attempt.broken then BrokenConnection else RuntimeError);
      }
      r := Commit(attempt.finish);
      if r.Ok? {
        captured := rows;
      }
    }

    /** Assigns the one row before the commit. */
    method RunScalar(attempt: Attempt) returns (r: Result<()>)
      requires kind.Scalar?
      modifies this
      ensures captured == Captured(kind, old(captured), attempt)
      ensures r == Outcome(kind, attempt)
    {
      if attempt.Interrupted? {
        return Throws(if attempt.broken then BrokenConnection else RuntimeError);
      }
      if |attempt.rows| != 1 {
        return Throws(RuntimeError);
      }
      captured := attempt.rows;
      r := Commit(attempt.finish);
    }

    static method Commit(finish: Finish) returns (r: Result<()>)
      ensures r == match finish
                   case Succeeds => Ok(())
                   case BreaksFirst => Throws(BrokenConnection)
                   case LostInDoubt(_) => Throws(InDoubtError)
                   case Rejected => Throws(RuntimeError)
    {
      match finish
      case Succeeds => return Ok(());
      case BreaksFirst => return Throws(BrokenConnection);
      case LostInDoubt(_) => return Throws(InDoubtError);
      case Rejected => return Throws(RuntimeError);
    }
  }

  class Client {
    const policy: Policy
    const hasSchema: bool
    var connection: Option<Session>

    function Value(): ClientValue
      reads this
    {
      ClientValue(policy, hasSchema, connection)
    }

    /** A persistent client dials now or is not built; an on-demand one does not dial until it is used. */
    static method Create(policy: Policy, hasSchema: bool, dial: Dial) returns (r: Result<Client>)
      ensures r.Throws? <==> policy.Persistent? && !CanDial(ClientValue(policy, hasSchema, None), dial)
      ensures r.Throws? ==> r.exception == RuntimeError
      ensures r.Ok? ==> fresh(r.value) && Ready(r.value.Value())
                        && r.value.policy == policy && r.value.hasSchema == hasSchema
                        && (policy.Persistent? <==> HasOpen(r.value.Value()))
    {
      var client := new Client(policy, hasSchema);
      if policy.Persistent? {
        var connected := client.ConnectUnlocked(dial);
        if connected.Throws? {
          return Throws(connected.exception);
        }
      }
      return Ok(client);
    }

    constructor (policy: Policy, hasSchema: bool)
      ensures Value() == ClientValue(policy, hasSchema, None)
    {
      this.policy := policy;
      this.hasSchema := hasSchema;
      connection := None;
    }

    method ConnectUnlocked(dial: Dial) returns (r: Result<()>)
      modifies this
      ensures (Value(), r) == Dialled(old(Value()), dial)
    {
      DisconnectUnlocked();
      if dial.Refused? {
        return Throws(RuntimeError);
      }
      if dial.ClosedAtOnce? {
        connection := Some(Session(false, false));
        return Throws(RuntimeError);
      }
      connection := Some(Session(true, !hasSchema));
      if hasSchema {
        if dial.PathFails? {
          connection := Some(connection.value.(isOpen := dial.leftOpen));
          return Throws(RuntimeError);
        }
        connection := Some(connection.value.(configured := true));
      }
      return Ok(());
    }

    method DisconnectUnlocked()
      modifies this
      ensures Value() == old(Value()).(session := None)
    {
      connection := None;
    }

    method EnsureConnectedUnlocked(dial: Dial) returns (r: Result<()>)
      modifies this
      ensures (Value(), r) == Ensured(old(Value()), dial)
    {
      if connection.Some? && connection.value.isOpen {
        return Ok(());
      }
      r := ConnectUnlocked(dial);
    }

    /** The operation on the session held, which it may lose. */
    method RunOn(operation: Operation, attempt: Attempt) returns (r: Result<()>)
      requires HasOpen(Value())
      modifies this, operation
      ensures var e := Attempted(old(Value()), operation.kind, old(operation.captured), attempt, []);
              Value() == e.client && operation.captured == e.captured && r == e.result
    {
      r := operation.Run(attempt);
      if r in {Throws(BrokenConnection), Throws(InDoubtError)} {
        connection := Some(connection.value.(isOpen := attempt.looksOpen));
      }
    }

    method ExecuteHolding(operation: Operation, script: Script) returns (r: Result<()>)
      modifies this, operation
      ensures var e := Holding(old(Value()), operation.kind, old(operation.captured), script);
              Value() == e.client && operation.captured == e.captured && r == e.result
    {
      r := EnsureConnectedUnlocked(script.dial);
      if r.Throws? {
        return r;
      }
      r := RunOn(operation, script.attempt);
      if r != Throws(BrokenConnection) {
        return r;
      }
      r := ConnectUnlocked(script.redial);
      if r.Throws? {
        return r;
      }
      r := RunOn(operation, script.again);
    }

    /** The guard closes an on-demand client's connection however the call ends. */
    method Execute(operation: Operation, script: Script) returns (r: Result<()>)
      modifies this, operation
      ensures var e := Execution(old(Value()), operation.kind, old(operation.captured), script);
              Value() == e.client && operation.captured == e.captured && r == e.result
    {
      r := ExecuteHolding(operation, script);
      if policy.OnDemand? {
        DisconnectUnlocked();
      }
    }

    /** Lists the users: on a normal return, the rows of the one attempt that committed. */
    method ListUsers(script: Script) returns (r: Result<()>, rows: seq<Row>)
      modifies this
      ensures var e := Execution(old(Value()), Kind.ListUsers, [], script);
              Value() == e.client && rows == e.captured && r == e.result
    {
      var operation := new Operation(Kind.ListUsers);
      r := Execute(operation, script);
      rows := operation.captured;
    }
  }
}
