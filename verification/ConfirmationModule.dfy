/** The confirmation module and the chat handler as the code runs them, one statement after another, with any
    statements of other sessions in between. */
module ConfirmationModule {
  import opened Wrappers
  import opened Faults
  import opened Decisions
  import opened ConfirmationProtocol
  import opened ConfirmationSafety
  import opened ConfirmationTheorems

  datatype ConfirmOutcome = Accepted(command: Command) | AlreadyConfirmed | Lapsed | Withdrawn | NotFound

  ghost predicate SameChat(w: World, v: World, s: SessionId) {
    && (s in w.chats <==> s in v.chats)
    && (s in w.chats ==> v.chats[s] == w.chats[s])
  }

  lemma OthersKeepChat(w: World, a: Action, s: SessionId)
    requires a.session != s
    ensures SameChat(w, Next(w, a), s)
  {
    hide Confirmable, LatestPending, Stale, Decide, Dispatches, Unlock, Lock, AsExpired;
  }

  lemma {:induction false} RunsOfOthersKeepChat(w: World, actions: seq<Action>, s: SessionId)
    requires forall a :: a in actions ==> a.session != s
    ensures SameChat(w, Run(w, actions), s)
    decreases |actions|
  {
    hide Next;
    if actions != [] {
      RunsOfOthersKeepChat(w, actions[..|actions| - 1], s);
      OthersKeepChat(Run(w, actions[..|actions| - 1]), actions[|actions| - 1], s);
    }
  }

  // ----- What one session has executed -----

  /** The step is the executor's dispatch of a command of session s. */
  predicate DispatchesNow(w: World, a: Action, s: SessionId) {
    a == Action.Execute(s) && s in w.chats && w.chats[s].phase.Executing?
    && Dispatches(w.chats[s].phase.decision, w.chats[s].phase.command)
  }

  /** The place in the log where the step puts an execution of session s, if it does. */
  function ExecutionAt(w: World, a: Action, s: SessionId): seq<nat> {
    if DispatchesNow(w, a, s) then [|w.log|] else []
  }

  /** Where the executions of session s stand in the log. */
  function Executions(config: Config, trace: seq<Action>, s: SessionId): seq<nat> {
    if trace == [] then []
    else
      var front, last := trace[..|trace| - 1], trace[|trace| - 1];
      Executions(config, front, s) + ExecutionAt(Run(Start(config), front), last, s)
  }

  lemma ExecutionsAppend(config: Config, trace: seq<Action>, a: Action, s: SessionId)
    ensures Executions(config, trace + [a], s)
         == Executions(config, trace, s) + ExecutionAt(Run(Start(config), trace), a, s)
  {
    hide Run, DispatchesNow;
    assert (trace + [a])[..|trace|] == trace;
  }

  lemma {:induction false} OthersExecuteElsewhere(config: Config, trace: seq<Action>, more: seq<Action>, s: SessionId)
    requires forall a :: a in more ==> a.session != s
    ensures Executions(config, trace + more, s) == Executions(config, trace, s)
  {
    hide Run, Executions;
    if more == [] {
      assert trace + more == trace;
    } else {
      var front, last := more[..|more| - 1], more[|more| - 1];
      OthersExecuteElsewhere(config, trace, front, s);
      assert last in more && trace + more == (trace + front) + [last];
      ExecutionsAppend(config, trace + front, last, s);
    }
  }

  lemma StepKeepsLog(w: World, a: Action)
    ensures w.log <= Next(w, a).log
  {
    hide Confirmable, LatestPending, Stale, Decide, Dispatches, Unlock, Lock, AsExpired;
  }

  lemma {:induction false} RunsKeepLog(w: World, more: seq<Action>)
    ensures w.log <= Run(w, more).log
    decreases |more|
  {
    hide Next;
    if more != [] {
      RunsKeepLog(w, more[..|more| - 1]);
      StepKeepsLog(Run(w, more[..|more| - 1]), more[|more| - 1]);
    }
  }

  /** The log only grows. */
  lemma LogOnlyGrows(config: Config, trace: seq<Action>, later: seq<Action>)
    requires trace <= later
    ensures Run(Start(config), trace).log <= Run(Start(config), later).log
  {
    hide Run;
    assert later == trace + later[|trace|..];
    RunAppend(Start(config), trace, later[|trace|..]);
    RunsKeepLog(Run(Start(config), trace), later[|trace|..]);
  }

  /** Rows stay, and none goes back to PENDING. */
  ghost predicate NoneGoesBack(rows: Table, later: Table) {
    forall id :: id in rows ==>
      id in later && Same(rows[id], later[id]) && (later[id].status.Pending? ==> rows[id].status.Pending?)
  }

  lemma {:induction false} RunsNeverGoBack(config: Config, trace: seq<Action>, more: seq<Action>)
    ensures NoneGoesBack(Run(Start(config), trace).rows, Run(Start(config), trace + more).rows)
    decreases |more|
  {
    hide Run, Next;
    if more == [] {
      assert trace + more == trace;
    } else {
      var front, last := more[..|more| - 1], more[|more| - 1];
      RunsNeverGoBack(config, trace, front);
      assert trace + more == (trace + front) + [last];
      var w := Run(Start(config), trace + front);
      RunAppend(Start(config), trace + front, [last]);
      RunOne(w, last);
      forall id | id in w.rows
        ensures id in Next(w, last).rows && Same(w.rows[id], Next(w, last).rows[id])
        ensures Next(w, last).rows[id].status.Pending? ==> w.rows[id].status.Pending?
      {
        NeverBackToPending(config, trace + front, last, id);
      }
    }
  }

  lemma LaterNeverGoesBack(config: Config, trace: seq<Action>, later: seq<Action>)
    requires trace <= later
    ensures NoneGoesBack(Run(Start(config), trace).rows, Run(Start(config), later).rows)
  {
    hide Run, NoneGoesBack;
    assert later == trace + later[|trace|..];
    RunsNeverGoBack(config, trace, later[|trace|..]);
  }

  lemma UnacknowledgedEnds(w: World, s: SessionId)
    requires AtCommit(w, s)
    ensures s !in Next(w, CommitUnacknowledged(s)).chats
  {
  }

  lemma EndEnds(w: World, s: SessionId)
    ensures var v := Next(w, End(s)); s !in v.chats && v.rows == w.rows && v.used == w.used && v.named == w.named
  {
  }

  /** Another session holds the row. */
  ghost predicate HeldByAnother(w: World, s: SessionId, id: ConfirmationId) {
    id in w.locks && w.locks[id] != s
  }

  lemma IdleHoldsNothing(w: World, s: SessionId, id: ConfirmationId)
    requires LocksOk(w) && s in w.chats && w.chats[s].writes == map[] && id in w.locks
    ensures HeldByAnother(w, s, id)
  {
  }

  lemma EndKeepsOthersLocks(w: World, s: SessionId, id: ConfirmationId)
    requires s in w.chats && HeldByAnother(w, s, id)
    ensures HeldByAnother(Next(w, End(s)), s, id) && Next(w, End(s)).rows == w.rows
  {
  }

  lemma LockIsAnothers(config: Config, trace: seq<Action>, s: SessionId, id: ConfirmationId)
    requires var w := Run(Start(config), trace);
             s in w.chats && (w.chats[s].phase.Naming? || w.chats[s].phase.Expiring?) && id in w.locks
    ensures var w := Run(Start(config), trace);
            HeldByAnother(Next(w, End(s)), s, id) && Next(w, End(s)).rows == w.rows
  {
    hide Run, LocksOk, ChatsOk, Exclusive, RowsOk, LogOk, PhaseOk, ExecutionOk, InsertOk, Next;
    RunsKeep(config, trace);
    KnownHere(Run(Start(config), trace), s);
    IdleHoldsNothing(Run(Start(config), trace), s, id);
    EndKeepsOthersLocks(Run(Start(config), trace), s, id);
  }

  /** The database session of one chat request.  `others` are the statements of other sessions before each of its
      own, `faults` what becomes of its own: both fixed ahead, in any way whatever. */
  class Session {
    const id: SessionId
    const config: Config
    var world: World
    var others: seq<seq<Action>>
    var faults: seq<Fault>
    ghost var trace: seq<Action>

    /** The database is where a run of the protocol has brought it. */
    ghost predicate Valid()
      reads this
    {
      && world == Run(Start(config), trace)
      && forall chunk, a :: chunk in others && a in chunk ==> a.session != id
    }

    /** Where the executions of this session stand in the log. */
    ghost function OwnExecutions(): seq<nat>
      reads this
    {
      Executions(config, trace, id)
    }

    constructor (config: Config, id: SessionId, others: seq<seq<Action>>, faults: seq<Fault>)
      requires forall chunk, a :: chunk in others && a in chunk ==> a.session != id
      ensures Valid() && this.id == id && this.config == config && world == Start(config)
    {
      this.config, this.id, this.others, this.faults := config, id, others, faults;
      world, trace := Start(config), [];
    }

    method LetOthersAct()
      requires Valid()
      modifies this`world, this`others, this`trace
      ensures Valid() && old(trace) <= trace && SameChat(old(world), world, id) &&
          OwnExecutions() == old(OwnExecutions())
    {
      if others != [] {
        OthersExecuteElsewhere(config, trace, others[0], id);
        RunsOfOthersKeepChat(world, others[0], id);
        RunAppend(Start(config), trace, others[0]);
        assert forall chunk :: chunk in others[1..] ==> chunk in others;
        world := Run(world, others[0]);
        trace := trace + others[0];
        others := others[1..];
      }
    }

    method Take(a: Action)
      requires Valid()
      modifies this`world, this`trace
      ensures Valid() && trace == old(trace) + [a] && world == Next(old(world), a)
      ensures OwnExecutions() == old(OwnExecutions()) + ExecutionAt(old(world), a, id)
    {
      RunAppend(Start(config), trace, [a]);
      RunOne(world, a);
      ExecutionsAppend(config, trace, a, id);
      world := Next(world, a);
      trace := trace + [a];
    }

    method NextFault() returns (fault: Fault)
      modifies this`faults
      ensures Follows(old(faults), faults) && (fault.NoFault? <==> Smooth(old(faults), faults))
    {
      fault := NoFault;
      if faults != [] {
        fault := faults[0];
        faults := faults[1..];
      }
    }

    /** The request ends, and what it has not committed is gone.  A row that was locked while it had written nothing is
        locked by another session. */
    method GiveUp()
      requires Valid() && id in world.chats
      modifies this`world, this`trace
      ensures Valid() && old(trace) <= trace && OwnExecutions() == old(OwnExecutions()) && id !in world.chats
      ensures world.rows == old(world.rows) && world.used == old(world.used) && world.named == old(world.named)
      ensures var p := old(world.chats[id].phase);
              (p.Naming? || p.Expiring?) && p.id in old(world.locks) ==> HeldByAnother(world, id, p.id)
    {
      hide Run, Next, Executions;
      EndEnds(world, id);
      var p := world.chats[id].phase;
      if (p.Naming? || p.Expiring?) && p.id in world.locks { LockIsAnothers(config, trace, id, p.id); }
      Take(End(id));
    }

    /** Commit; when that raises, roll back, and the request ends.  `before` is the database the commit met. */
    method CommitOrRollBack() returns (committed: bool, ghost before: World)
      requires Valid() && AtCommit(world, id)
      modifies this
      ensures Valid() && old(trace) <= trace && OwnExecutions() == old(OwnExecutions())
      ensures Follows(old(faults), faults) && (committed <==> Smooth(old(faults), faults))
      ensures !committed ==> id !in world.chats
      ensures committed ==> SameChat(old(world), before, id) && Inv(before) && AtCommit(before, id)
      ensures committed ==> world == DoCommit(before, id)
    {
      hide Next, Run, Executions, Inv, DoCommit;
      LetOthersAct();
      var fault := NextFault();
      RunsKeep(config, trace);
      before := world;
      match fault
      case NoFault =>
        CommitIs(world, id);
        Take(Commit(id));
        committed := true;
      case Raises =>
        EndEnds(world, id);
        Take(End(id));
        committed := false;
      case AnswerLost =>
        UnacknowledgedEnds(world, id);
        Take(CommitUnacknowledged(id));
        committed := false;
    }

    /** The request names the row to confirm.  An id that another session has inserted and not yet committed is one
        nobody can have been told: such a request ends. */
    method NameRow(named: ConfirmationId) returns (seen: bool)
      requires Valid() && id in world.chats && world.chats[id].phase.Interpreting?
      modifies this`world, this`trace
      ensures Valid() && old(trace) <= trace && OwnExecutions() == old(OwnExecutions())
      ensures world.rows == old(world.rows)
      ensures seen ==> id in world.chats && world.chats[id] == old(world.chats[id]).(phase := Naming(named))
      ensures !seen ==> id !in world.chats && named !in world.rows
    {
      hide Run, Executions, Next;
      NameIs(world, id, named);
      seen := named in world.rows || named !in world.used;
      if seen {
        Take(Name(id, named));
      } else {
        GiveUp();
      }
    }

    /** `mark_confirmed`: the number of rows updated.  A row lock that never comes free ends in a database error. */
    method MarkConfirmedRow(now: Time) returns (r: Result<nat>)
      requires Valid() && id in world.chats && world.chats[id].phase.Naming?
      modifies this
      ensures Valid() && old(trace) <= trace && OwnExecutions() == old(OwnExecutions())
      ensures Follows(old(faults), faults) && (r.Ok? ==> Smooth(old(faults), faults))
      ensures r.Err? ==> id !in world.chats
      ensures r.Err? && Smooth(old(faults), faults) ==> HeldByAnother(world, id, old(world.chats[id].phase.id))
      ensures r.Ok? ==> r.value <= 1 && id in world.chats
      ensures r.Ok? ==>
                var chat := old(world.chats[id]);
                var named := chat.phase.id;
                if && named in world.rows && world.rows[named].user == chat.user
                   && world.rows[named].status.Pending? && world.rows[named].expiresAt > now
                then && r.value == 1
                     && world.chats[id] == Chat(chat.user, Winning(named, now),
                                                map[named := world.rows[named].(status := Confirmed)])
                else r.value == 0 && world.chats[id] == chat.(phase := Losing(named, now))
    {
      hide Next, Run, Executions;
      LetOthersAct();
      var fault := NextFault();
      MarkConfirmedIs(world, id, now);
      var chat := world.chats[id];
      var confirmable := Confirmable(world, chat.phase.id, chat.user, now);
      if fault != NoFault || (confirmable && chat.phase.id in world.locks) {
        GiveUp();
        return Err(StatementFailed);
      }
      Take(MarkConfirmed(id, now));
      return Ok(if confirmable then 1 else 0);
    }

    /** The read that tells why no row was updated.  The request ends here unless the row is still PENDING. */
    method ReadForDiagnosis() returns (r: Result<Option<Confirmation>>)
      requires Valid() && id in world.chats && world.chats[id].phase.Losing?
      modifies this
      ensures Valid() && old(trace) <= trace && OwnExecutions() == old(OwnExecutions())
      ensures Follows(old(faults), faults) && (r.Ok? <==> Smooth(old(faults), faults))
      ensures r.Err? ==> id !in world.chats
      ensures var chat := old(world.chats[id]);
              r.Ok? ==>
                && (if chat.phase.id in world.rows then r.value == Some(world.rows[chat.phase.id]) else r.value == None)
                && if r.value.Some? && r.value.value.user == chat.user && r.value.value.status.Pending?
                   then id in world.chats && world.chats[id] == chat.(phase := Expiring(chat.phase.id, chat.phase.now))
                   else id !in world.chats
    {
      hide Next, Run, Executions;
      LetOthersAct();
      var fault := NextFault();
      DiagnoseIs(world, id);
      if fault != NoFault {
        GiveUp();
        return Err(StatementFailed);
      }
      var named := world.chats[id].phase.id;
      var found := if named in world.rows then Some(world.rows[named]) else None;
      Take(Diagnose(id));
      return Ok(found);
    }

    /** The unconditional write of EXPIRED. */
    method MarkRowExpired() returns (r: Result<()>)
      requires Valid() && id in world.chats && world.chats[id].phase.Expiring?
      modifies this
      ensures Valid() && old(trace) <= trace && OwnExecutions() == old(OwnExecutions())
      ensures Follows(old(faults), faults) && (r.Ok? ==> Smooth(old(faults), faults))
      ensures r.Err? ==> id !in world.chats
      ensures r.Err? && Smooth(old(faults), faults) ==> HeldByAnother(world, id, old(world.chats[id].phase.id))
      ensures r.Ok? ==>
                var p := old(world.chats[id].phase);
                id in world.chats && AtCommit(world, id) && world.chats[id].phase == Marking(p.id, p.now)
    {
      hide Run, Next, Executions, AtCommit, HeldByAnother, Follows, Smooth, Met, Inv, Start, LatestPending, DoCommit;
      LetOthersAct();
      var fault := NextFault();
      if fault != NoFault || world.chats[id].phase.id in world.locks {
        GiveUp();
        return Err(StatementFailed);
      }
      MarkingIsNext(config, trace, id);
      Take(MarkExpired(id));
      return Ok(());
    }

    /** Write EXPIRED over the row, whatever it is by then, and commit. */
    method WriteExpired() returns (r: Result<()>)
      requires Valid() && id in world.chats && world.chats[id].phase.Expiring?
      modifies this
      ensures Valid() && old(trace) <= trace && id !in world.chats && OwnExecutions() == old(OwnExecutions())
      ensures Follows(old(faults), faults) && (r.Ok? ==> Smooth(old(faults), faults))
      ensures r.Err? && Smooth(old(faults), faults) ==> HeldByAnother(world, id, old(world.chats[id].phase.id))
      ensures var named := old(world.chats[id].phase.id);
              r.Ok? ==> named in world.rows && world.rows[named].status.Expired?
                        && world.rows[named].expiresAt <= old(world.chats[id].phase.now)
    {
      hide Inv, Run, Next, Executions, DoCommit, AtCommit, HeldByAnother, Follows, Smooth;
      var marked := MarkRowExpired();
      if marked.Err? { return marked; }
      ghost var ahead := faults;
      var committed, before := CommitOrRollBack();
      MetJoins(old(faults), ahead, faults);
      if !committed { return Err(StatementFailed); }
      LapsedAnswer(before, id);
      return Ok(());
    }
  }

  lemma MarkingIsNext(config: Config, trace: seq<Action>, s: SessionId)
    requires var w := Run(Start(config), trace);
             s in w.chats && w.chats[s].phase.Expiring? && w.chats[s].phase.id !in w.locks
    ensures var w := Run(Start(config), trace);
            var v := Next(w, MarkExpired(s));
            s in v.chats && v.chats[s].phase == Marking(w.chats[s].phase.id, w.chats[s].phase.now) && AtCommit(v, s)
  {
    hide Inv, Run, WritesOk, ExecutionOk, InsertOk;
    RunsKeep(config, trace);
    KnownHere(Run(Start(config), trace), s);
  }

  lemma LapsedAnswer(w: World, s: SessionId)
    requires Inv(w) && s in w.chats && w.chats[s].phase.Marking?
    ensures var p := w.chats[s].phase;
            var v := DoCommit(w, s);
            s !in v.chats && p.id in v.rows && v.rows[p.id].status.Expired? && v.rows[p.id].expiresAt <= p.now
  {
    KnownHere(w, s);
    hide Inv, PhaseOk, ExecutionOk, InsertOk, Unlock;
  }

  /** What each answer to a confirm request says of the database. */
  ghost predicate AnswerIsRight(w: World, s: SessionId, id: ConfirmationId, user: Option<UserId>, now: Time,
                                answer: ConfirmOutcome)
  {
    match answer
    case Accepted(command) =>
      && s in w.chats && w.chats[s] == Chat(user, Executing(DecisionFor(command), command, Some(id)), map[])
      && Won(id, user, now) in w.log
      && id in w.rows && w.rows[id].user == user && w.rows[id].command == command && w.rows[id].status.Confirmed?
      && now < w.rows[id].expiresAt
    case AlreadyConfirmed => id in w.rows && w.rows[id].user == user && w.rows[id].status.Confirmed?
    case Withdrawn => id in w.rows && w.rows[id].user == user && w.rows[id].status.Cancelled?
    case Lapsed => id in w.rows && w.rows[id].user == user && w.rows[id].status.Expired?
    case NotFound => id in w.rows ==> w.rows[id].user != user
  }

  lemma WinnersAnswer(w: World, s: SessionId)
    requires Inv(w) && s in w.chats && w.chats[s].phase.Winning?
    ensures var p := w.chats[s].phase;
            p.id in w.chats[s].writes &&
            AnswerIsRight(DoCommit(w, s), s, p.id, w.chats[s].user, p.now, Accepted(w.chats[s].writes[p.id].command))
  {
    var p := w.chats[s].phase;
    WinIsOk(w, s);
    KnownHere(w, s);
    assert p.now < w.rows[p.id].expiresAt;
    hide Inv, PhaseOk, ExecutionOk, InsertOk, EventOk, RequestedBy, DoCommit;
    CommitWinIs(w, s, p.id, p.now, w.rows[p.id].(status := Confirmed));
  }

  ghost predicate AreExpired(rows: Table, ids: set<ConfirmationId>, now: Time) {
    forall id :: id in ids ==> id in rows && rows[id].status.Expired? && rows[id].expiresAt < now
  }

  /** Nothing that was PENDING past its time in `rows` is PENDING in `later`. */
  ghost predicate NoneOverdue(rows: Table, later: Table, now: Time) {
    forall id :: id in rows && rows[id].expiresAt < now ==> id in later && !later[id].status.Pending?
  }

  lemma CleanupBegins(w: World, s: SessionId, user: Option<UserId>, now: Time)
    requires s !in w.chats && Stale(w, now) !! w.locks.Keys
    ensures var v := Next(w, Cleanup(s, user, now));
            if Stale(w, now) == {}
            then v.rows == w.rows && s in v.chats && v.chats[s] == Chat(user, Interpreting, map[])
            else AtCommit(v, s) && v.log == w.log + [Expiry(Stale(w, now), now)]
  {
    CleanupIs(w, s, user, now);
    hide Next;
  }

  lemma NothingStaleIsExpired(rows: Table, w: World, now: Time)
    requires Stale(w, now) == {}
    ensures AreExpired(rows, Stale(w, now), now)
  {
  }

  lemma CleanupCommits(w: World, before: World, s: SessionId, user: Option<UserId>, now: Time)
    requires s !in w.chats && Stale(w, now) !! w.locks.Keys && Stale(w, now) != {}
    requires SameChat(Next(w, Cleanup(s, user, now)), before, s)
    ensures var u := DoCommit(before, s);
            && s in u.chats && u.chats[s] == Chat(user, Interpreting, map[])
            && AreExpired(u.rows, Stale(w, now), now)
  {
    CleanupIs(w, s, user, now);
    hide Next, Unlock, Lock;
  }

  lemma MarkedIsLogged(log: seq<Event>, between: seq<Event>, later: seq<Event>, ids: set<ConfirmationId>, now: Time)
    requires log <= between && between + [Expiry(ids, now)] <= later
    ensures log <= later && Expiry(ids, now) in later[|log|..]
  {
    assert later[|log|..][|between| - |log|] == later[|between|] == Expiry(ids, now);
  }

  lemma StaleAreNotOverdue(rows: Table, w: World, later: Table, now: Time)
    requires NoneGoesBack(rows, w.rows) && NoneGoesBack(w.rows, later) && AreExpired(later, Stale(w, now), now)
    ensures NoneOverdue(rows, later, now)
  {
  }

  class PendingConfirmationModule {
    const session: Session

    constructor (session: Session)
      ensures this.session == session
    {
      this.session := session;
    }

    /** Mark what has expired, and commit only if anything was marked.  The number returned is that of the rows marked
        by this call; they are EXPIRED and had expired; and what was expired when the call began is not PENDING any
        more.  It fails only when a statement does, or when another session holds a row to be marked. */
    method CleanupExpired(user: Option<UserId>, now: Time) returns (r: Result<nat>)
      requires session.Valid() && session.id !in session.world.chats
      modifies session
      ensures session.Valid() && old(session.trace) <= session.trace
      ensures session.OwnExecutions() == old(session.OwnExecutions())
      ensures Follows(old(session.faults), session.faults)
      ensures r.Ok? ==> Smooth(old(session.faults), session.faults)
      ensures r.Err? && Smooth(old(session.faults), session.faults) ==>
                var w := session.world;
                exists id :: id in w.rows && w.rows[id].status.Pending? && w.rows[id].expiresAt < now && id in w.locks
      ensures r.Err? ==> session.id !in session.world.chats
      ensures r.Ok? ==> session.id in session.world.chats
      ensures r.Ok? ==> session.world.chats[session.id] == Chat(user, Interpreting, map[])
      ensures old(session.world.log) <= session.world.log
      ensures r.Ok? ==> exists marked: set<ConfirmationId> ::
          && |marked| == r.value && AreExpired(session.world.rows, marked, now)
          && (marked != {} ==> Expiry(marked, now) in session.world.log[old(|session.world.log|)..])
      ensures r.Ok? ==> NoneOverdue(old(session.world.rows), session.world.rows, now)
    {
      hide Run, NoneGoesBack, Executions, Next, DoCommit, AtCommit, AreExpired, NoneOverdue, Inv;
      session.LetOthersAct();
      LogOnlyGrows(session.config, old(session.trace), session.trace);
      var fault := session.NextFault();
      var count := |Stale(session.world, now)|;
      if fault != NoFault || !(Stale(session.world, now) !! session.world.locks.Keys) { return Err(StatementFailed); }
      ghost var w, at := session.world, session.trace;
      CleanupBegins(w, session.id, user, now);
      session.Take(Cleanup(session.id, user, now));
      LaterNeverGoesBack(session.config, old(session.trace), at);
      if count > 0 {
        ghost var ahead, marking := session.faults, session.trace;
        var committed, before := session.CommitOrRollBack();
        MetJoins(old(session.faults), ahead, session.faults);
        LogOnlyGrows(session.config, marking, session.trace);
        MarkedIsLogged(old(session.world.log), w.log, session.world.log, Stale(w, now), now);
        if !committed { return Err(StatementFailed); }
        CleanupCommits(w, before, session.id, user, now);
      } else {
        NothingStaleIsExpired(session.world.rows, w, now);
      }
      LogOnlyGrows(session.config, old(session.trace), session.trace);
      LaterNeverGoesBack(session.config, at, session.trace);
      StaleAreNotOverdue(old(session.world.rows), w, session.world.rows, now);
      return Ok(count);
    }

    /** Insert the confirmation of the decision and commit it.  It fails only when a statement does, or when the id is
        not a new one. */
    method Create(id: ConfirmationId, now: Time, ttl: nat) returns (r: Result<ConfirmationId>)
      requires session.Valid() && session.id in session.world.chats
      requires session.world.chats[session.id].phase.Asking?
      modifies session
      ensures session.Valid() && old(session.trace) <= session.trace && session.id !in session.world.chats
      ensures session.OwnExecutions() == old(session.OwnExecutions())
      ensures Follows(old(session.faults), session.faults)
      ensures r.Ok? ==> Smooth(old(session.faults), session.faults)
      ensures r.Err? && Smooth(old(session.faults), session.faults) ==>
                id in session.world.used || id in session.world.named
      ensures r.Ok? ==> r.value == id && id in session.world.rows
      ensures r.Ok? ==> var chat := old(session.world.chats[session.id]);
                        session.world.rows[id]
                        == Confirmation(chat.user, chat.phase.decision.action, now, now + ttl, Pending)
    {
      hide Run, Executions, Next, Inv;
      session.LetOthersAct();
      var fault := session.NextFault();
      CreateIs(session.world, session.id, id, now, ttl);
      if fault != NoFault || id in session.world.used || id in session.world.named {
        session.GiveUp();
        return Err(StatementFailed);
      }
      session.Take(ConfirmationProtocol.Action.Create(session.id, id, now, ttl));
      ghost var ahead := session.faults;
      var committed, before := session.CommitOrRollBack();
      MetJoins(old(session.faults), ahead, session.faults);
      if !committed { return Err(StatementFailed); }
      return Ok(id);
    }

    /** The latest PENDING confirmation of the user, if there is one.  It fails only when the statement does. */
    method GetLatestPending() returns (r: Result<Option<ConfirmationId>>)
      requires session.Valid() && session.id in session.world.chats
      requires session.world.chats[session.id].phase.Interpreting?
      modifies session
      ensures session.Valid() && old(session.trace) <= session.trace
      ensures session.OwnExecutions() == old(session.OwnExecutions())
      ensures Follows(old(session.faults), session.faults) && (r.Ok? <==> Smooth(old(session.faults), session.faults))
      ensures r.Err? || r.value.None? ==> session.id !in session.world.chats
      ensures r.Ok? ==> r.value == LatestPending(session.world.rows, old(session.world.chats[session.id].user))
      ensures r.Ok? && r.value.Some? ==>
                && session.id in session.world.chats && session.world.chats[session.id].phase == Naming(r.value.value)
                && session.world.chats[session.id].user == old(session.world.chats[session.id].user)
    {
      hide Run, Executions, Next;
      session.LetOthersAct();
      var fault := session.NextFault();
      FindLatestIs(session.world, session.id);
      if fault != NoFault {
        session.GiveUp();
        return Err(StatementFailed);
      }
      var latest := LatestPending(session.world.rows, session.world.chats[session.id].user);
      session.Take(FindLatest(session.id));
      return Ok(latest);
    }

    /** Confirm the named row.  Accepted: this is the only request that is ever told so for this id, its clock was
        before the expiry, and the command is the one stored for this user.  Otherwise the answer names what the
        row is now, and nothing will be executed.  It fails only when a statement does, or when another session holds
        the row. */
    method Confirm(now: Time) returns (r: Result<ConfirmOutcome>)
      requires session.Valid() && session.id in session.world.chats
      requires session.world.chats[session.id].phase.Naming?
      modifies session
      ensures session.Valid() && old(session.trace) <= session.trace
      ensures session.OwnExecutions() == old(session.OwnExecutions())
      ensures Follows(old(session.faults), session.faults)
      ensures r.Ok? ==> Smooth(old(session.faults), session.faults)
      ensures r.Err? && Smooth(old(session.faults), session.faults) ==>
                HeldByAnother(session.world, session.id, old(session.world.chats[session.id].phase.id))
      ensures r.Err? || !r.value.Accepted? ==> session.id !in session.world.chats
      ensures var id, user := old(session.world.chats[session.id].phase.id), old(session.world.chats[session.id].user);
              r.Ok? ==> AnswerIsRight(session.world, session.id, id, user, now, r.value)
    {
      hide Run, Executions, Next, Inv, DoCommit;
      var user := session.world.chats[session.id].user;
      var updated := session.MarkConfirmedRow(now);
      if updated.Err? { return Err(StatementFailed); }
      if updated.value == 1 {
        var reloaded := session.world.chats[session.id].writes[session.world.chats[session.id].phase.id];
        ghost var ahead := session.faults;
        var committed, before := session.CommitOrRollBack();
        MetJoins(old(session.faults), ahead, session.faults);
        if !committed { return Err(StatementFailed); }
        WinnersAnswer(before, session.id);
        return Ok(Accepted(reloaded.command));
      }
      ghost var ahead := session.faults;
      var found := session.ReadForDiagnosis();
      MetJoins(old(session.faults), ahead, session.faults);
      if found.Err? { return Err(StatementFailed); }
      if found.value.None? || found.value.value.user != user { return Ok(NotFound); }
      match found.value.value.status
      case Confirmed => return Ok(AlreadyConfirmed);
      case Cancelled => return Ok(Withdrawn);
      case Expired => return Ok(Lapsed);
      case Pending =>
        ghost var diagnosed := session.trace;
        ahead := session.faults;
        var written := session.WriteExpired();
        MetJoins(old(session.faults), ahead, session.faults);
        LaterNeverGoesBack(session.config, diagnosed, session.trace);
        if written.Err? { return Err(StatementFailed); }
        return Ok(Lapsed);
    }
  }

  // ----- The chat handler -----

  /** What the model made of the message, once a proposal has been validated and resolved. */
  datatype Interpretation = Proposal(action: Command) | Confirming(id: Option<ConfirmationId>) | Other

  datatype Reply = Done(command: Command) | NotDispatched | ConfirmFirst(id: ConfirmationId) |
      Declined(decision: DecisionStatus)
    | NotConfirmed(outcome: ConfirmOutcome) | NothingPending | NoAction | Failed

  class AgentHandler {
    const session: Session
    const confirmations: PendingConfirmationModule

    constructor (session: Session)
      ensures this.session == session && confirmations.session == session
    {
      this.session := session;
      confirmations := new PendingConfirmationModule(session);
    }

    /** The executor: the gate, and then the one dispatch of the command. */
    method Execute() returns (reply: Reply)
      requires session.Valid() && session.id in session.world.chats
      requires session.world.chats[session.id].phase.Executing?
      modifies session
      ensures session.Valid() && old(session.trace) <= session.trace && session.id !in session.world.chats
      ensures session.world.rows == old(session.world.rows) && session.faults == old(session.faults)
      ensures var chat, log := old(session.world.chats[session.id]), old(session.world.log);
              if chat.phase.decision.status.Authorized? &&
                 chat.phase.command.action == chat.phase.decision.action.action
              then && reply == Done(chat.phase.command)
                   && session.world.log == log + [Executed(chat.user, chat.phase.command, chat.phase.confirmation)]
                   && session.OwnExecutions() == old(session.OwnExecutions()) + [|log|]
              else && reply == NotDispatched && session.world.log == log
                   && session.OwnExecutions() == old(session.OwnExecutions())
    {
      hide Run, Executions, Next;
      ExecuteIs(session.world, session.id);
      var p := session.world.chats[session.id].phase;
      session.Take(ConfirmationProtocol.Action.Execute(session.id));
      if Dispatches(p.decision, p.command) {
        return Done(p.command);
      }
      return NotDispatched;
    }

    /** The log entry `k` is the one execution this request has added, of `reply.command` for this user. */
    ghost predicate ExecutedHere(before: seq<nat>, k: nat, user: Option<UserId>, command: Command,
                                 confirmation: Option<ConfirmationId>)
      reads this, session
    {
      && session.OwnExecutions() == before + [k] && k < |session.world.log|
      && session.world.log[k] == Executed(user, command, confirmation)
    }

    /** At some moment since `trace` this was the user's latest pending confirmation. */
    ghost predicate WasLatest(trace: seq<ConfirmationProtocol.Action>, user: Option<UserId>, id: ConfirmationId)
      reads session
    {
      exists at :: trace <= at <= session.trace && LatestPending(Run(Start(session.config), at).rows, user) == Some(id)
    }

    /** The confirmation is the one named, or else the user's latest; a refusal says what its row is; and the request
        fails only when a statement did, or when another session held that row. */
    ghost predicate ConfirmReplyIsRight(
        faults: seq<Fault>, trace: seq<ConfirmationProtocol.Action>, named: Option<ConfirmationId>,
        user: Option<UserId>, now: Time, reply: Reply, confirmation: Option<ConfirmationId>)
      reads session
    {
      && Follows(faults, session.faults)
      && (confirmation.Some? ==>
            if named.Some? then confirmation == named else WasLatest(trace, user, confirmation.value))
      && match reply
         case Done(_) => Smooth(faults, session.faults)
         case NotConfirmed(outcome) =>
           && Smooth(faults, session.faults) && confirmation.Some? && !outcome.Accepted?
           && AnswerIsRight(session.world, session.id, confirmation.value, user, now, outcome)
         case NothingPending =>
           Smooth(faults, session.faults) && named.None? && LatestPending(session.world.rows, user).None?
         case Failed =>
           || !Smooth(faults, session.faults)
           || (confirmation.Some? && HeldByAnother(session.world, session.id, confirmation.value))
         case _ => false
    }

    /** Confirm the row, and execute its command if that succeeds. */
    method ConfirmAndExecute(now: Time) returns (reply: Reply, ghost at: nat)
      requires session.Valid() && confirmations.session == session && session.id in session.world.chats
      requires session.world.chats[session.id].phase.Naming?
      modifies session
      ensures session.Valid() && old(session.trace) <= session.trace && session.id !in session.world.chats
      ensures !reply.NothingPending?
      ensures var chat := old(session.world.chats[session.id]);
              ConfirmReplyIsRight(old(session.faults), old(session.trace), Some(chat.phase.id), chat.user, now, reply,
                                  Some(chat.phase.id))
      ensures !reply.Done? ==> session.OwnExecutions() == old(session.OwnExecutions())
      ensures reply.Done? ==>
                var chat := old(session.world.chats[session.id]);
                && old(|session.world.log|) <= at
                && ExecutedHere(old(session.OwnExecutions()), at, chat.user, reply.command, Some(chat.phase.id))
    {
      hide Run, Executions, Next;
      at := 0;
      var outcome := confirmations.Confirm(now);
      if outcome.Err? { return Failed, at; }
      if !outcome.value.Accepted? { return NotConfirmed(outcome.value), at; }
      LogOnlyGrows(session.config, old(session.trace), session.trace);
      at := |session.world.log|;
      reply := Execute();
    }

    /** Confirm the named row, or the latest pending one, and execute its command if that succeeds.  Done means exactly
        one execution by this request, of that confirmation; every other reply means none. */
    method HandleConfirmation(named: Option<ConfirmationId>, now: Time)
      returns (reply: Reply, ghost at: nat, ghost confirmation: Option<ConfirmationId>)
      requires session.Valid() && confirmations.session == session && session.id in session.world.chats
      requires session.world.chats[session.id].phase.Interpreting?
      modifies session
      ensures session.Valid() && old(session.trace) <= session.trace && session.id !in session.world.chats
      ensures ConfirmReplyIsRight(old(session.faults), old(session.trace), named,
                                  old(session.world.chats[session.id].user), now, reply, confirmation)
      ensures !reply.Done? ==> session.OwnExecutions() == old(session.OwnExecutions())
      ensures reply.Done? ==>
                var user := old(session.world.chats[session.id].user);
                && old(|session.world.log|) <= at && Answers(Confirming(named), reply.command, confirmation)
                && ExecutedHere(old(session.OwnExecutions()), at, user, reply.command, confirmation)
    {
      hide Run, Executions, Next, ConfirmReplyIsRight, LatestPending;
      ghost var user := session.world.chats[session.id].user;
      at, confirmation := 0, None;
      match named {
        case Some(id) =>
          var seen := session.NameRow(id);
          if !seen {
            NotFoundIsRight(old(session.faults), old(session.trace), id, user, now);
            return NotConfirmed(NotFound), at, named;
          }
        case None =>
          var latest := confirmations.GetLatestPending();
          if latest.Err? || latest.value.None? {
            reply := if latest.Err? then Failed else NothingPending;
            NothingToConfirmIsRight(old(session.faults), old(session.trace), user, now, reply);
            return reply, at, confirmation;
          }
      }
      LogOnlyGrows(session.config, old(session.trace), session.trace);
      ghost var id := session.world.chats[session.id].phase.id;
      ghost var ahead, found := session.faults, session.trace;
      confirmation := Some(id);
      reply, at := ConfirmAndExecute(now);
      ReplyIsForTheRow(old(session.faults), ahead, old(session.trace), found, named, id, user, now, reply);
    }

    lemma NotFoundIsRight(faults: seq<Fault>, trace: seq<ConfirmationProtocol.Action>, id: ConfirmationId,
                          user: Option<UserId>, now: Time)
      requires session.faults == faults && id !in session.world.rows
      ensures ConfirmReplyIsRight(faults, trace, Some(id), user, now, NotConfirmed(NotFound), Some(id))
    {
      NothingMet(faults);
    }

    lemma NothingToConfirmIsRight(faults: seq<Fault>, trace: seq<ConfirmationProtocol.Action>, user: Option<UserId>,
                                  now: Time, reply: Reply)
      requires Follows(faults, session.faults) && (reply.Failed? || reply.NothingPending?)
      requires reply.Failed? <==> !Smooth(faults, session.faults)
      requires reply.NothingPending? ==> LatestPending(session.world.rows, user).None?
      ensures ConfirmReplyIsRight(faults, trace, None, user, now, reply, None)
    {
    }

    lemma ReplyIsForTheRow(
        faults: seq<Fault>, ahead: seq<Fault>, trace: seq<ConfirmationProtocol.Action>,
        found: seq<ConfirmationProtocol.Action>, named: Option<ConfirmationId>, id: ConfirmationId,
        user: Option<UserId>, now: Time, reply: Reply)
      requires Follows(faults, ahead) && Smooth(faults, ahead) && trace <= found <= session.trace
      requires ConfirmReplyIsRight(ahead, found, Some(id), user, now, reply, Some(id)) && !reply.NothingPending?
      requires if named.Some? then named == Some(id)
               else LatestPending(Run(Start(session.config), found).rows, user) == Some(id)
      ensures ConfirmReplyIsRight(faults, trace, named, user, now, reply, Some(id))
    {
      MetJoins(faults, ahead, session.faults);
      hide Run, AnswerIsRight, HeldByAnother, LatestPending, Follows, Smooth;
    }

    lemma ReplyAfterCleanup(
        faults: seq<Fault>, ahead: seq<Fault>, trace: seq<ConfirmationProtocol.Action>,
        begun: seq<ConfirmationProtocol.Action>, named: Option<ConfirmationId>, user: Option<UserId>, now: Time,
        reply: Reply, confirmation: Option<ConfirmationId>)
      requires Smooth(faults, ahead) && trace <= begun <= session.trace
      requires ConfirmReplyIsRight(ahead, begun, named, user, now, reply, confirmation)
      ensures ConfirmReplyIsRight(faults, trace, named, user, now, reply, confirmation)
      ensures Follows(faults, session.faults) && (!reply.Failed? ==> Smooth(faults, session.faults))
      ensures reply.Done? || reply.NotConfirmed? || reply.NothingPending? || reply.Failed?
      ensures reply.Failed? ==>
                || !Smooth(faults, session.faults)
                || (confirmation.Some? && HeldByAnother(session.world, session.id, confirmation.value))
    {
      MetJoins(faults, ahead, session.faults);
      hide Run, AnswerIsRight, HeldByAnother, LatestPending, Follows, Smooth;
    }

    /** The housekeeping met a failing statement, or a row to be marked that another session held. */
    ghost predicate CleanupFailed(faults: seq<Fault>, now: Time, reply: Reply)
      reads session
    {
      && reply.Failed?
      && (!Smooth(faults, session.faults) ||
          exists id :: id in session.world.rows && session.world.rows[id].status.Pending? &&
            session.world.rows[id].expiresAt < now && id in session.world.locks)
    }

    /** A chat request from the housekeeping to its reply.  Done means that this request has executed exactly one
        command: the proposed one without a confirmation, or a confirmed one, the named one if one was named; and if it
        was a delete, then an authorized decision and a timely confirmation by the same user stand before it.  Every
        other reply means that this request has executed nothing. */
    method Process(user: Option<UserId>, message: Interpretation, cleanupNow: Time, now: Time, newId: ConfirmationId,
        ttl: nat)
      returns (reply: Reply, ghost at: nat, ghost confirmation: Option<ConfirmationId>)
      requires session.Valid() && confirmations.session == session && session.id !in session.world.chats
      modifies session
      ensures session.Valid() && old(session.trace) <= session.trace && session.id !in session.world.chats
      ensures Follows(old(session.faults), session.faults)
      ensures !reply.Failed? ==> Smooth(old(session.faults), session.faults)
      ensures !reply.Failed? ==> (reply.NoAction? <==> message.Other?)
      ensures message.Proposal? && !reply.Failed? ==>
                match Decide(session.config, message.action, user).status
                case Authorized => reply == Done(message.action)
                case ConfirmationRequired => reply == ConfirmFirst(newId)
                case refused => reply == Declined(refused)
      ensures reply.ConfirmFirst? ==>
                && message.Proposal? && newId in session.world.rows
                && session.world.rows[newId] == Confirmation(user, message.action, now, now + ttl, Pending)
      ensures message.Confirming? && !CleanupFailed(old(session.faults), cleanupNow, reply) ==>
                ConfirmReplyIsRight(old(session.faults), old(session.trace), message.id, user, now, reply, confirmation)
      ensures reply.Failed? ==>
                || CleanupFailed(old(session.faults), cleanupNow, reply)
                || !Smooth(old(session.faults), session.faults)
                || (message.Proposal? && (newId in session.world.used || newId in session.world.named))
                || (message.Confirming? && confirmation.Some? &&
                    HeldByAnother(session.world, session.id, confirmation.value))
      ensures !reply.Done? ==> session.OwnExecutions() == old(session.OwnExecutions())
      ensures reply.Done? ==>
                && old(|session.world.log|) <= at && Answers(message, reply.command, confirmation)
                && ExecutedHere(old(session.OwnExecutions()), at, user, reply.command, confirmation)
      ensures reply.Done? && (reply.command.action.DeleteTask? || reply.command.action.DeleteReminder?) ==>
                exists asked, won :: Justified(session.config, session.world.log, at, asked, won)
    {
      hide Run, Executions, Next, Decide, LogOk, ConfirmReplyIsRight, LatestPending, Follows, Smooth;
      at, confirmation := 0, None;
      var cleaned := confirmations.CleanupExpired(user, cleanupNow);
      if cleaned.Err? { return Failed, at, confirmation; }
      ghost var ahead, begun := session.faults, session.trace;
      LogOnlyGrows(session.config, old(session.trace), session.trace);
      match message {
        case Other =>
          session.GiveUp();
          reply := NoAction;
        case Confirming(named) =>
          reply, at, confirmation := HandleConfirmation(named, now);
          ReplyAfterCleanup(old(session.faults), ahead, old(session.trace), begun, named, user, now, reply,
                            confirmation);
        case Proposal(action) =>
          ConfigStays(session.config, session.trace);
          DecisionKeepsTheAction(session.config, action, user);
          ProposeIs(session.world, session.id, action);
          session.Take(Propose(session.id, action));
          var decision := Decide(session.config, action, user);
          match decision.status {
            case Authorized =>
              at := |session.world.log|;
              reply := Execute();
            case ConfirmationRequired =>
              var created := confirmations.Create(newId, now, ttl);
              MetJoins(old(session.faults), ahead, session.faults);
              reply := if created.Ok? then ConfirmFirst(created.value) else Failed;
            case _ =>
              reply := Declined(decision.status);
          }
      }
      if reply.Done? {
        DeleteHereIsJustified(session.config, session.trace, session.world, at);
      }
    }
  }

  lemma DeleteHereIsJustified(config: Config, trace: seq<Action>, w: World, k: nat)
    requires w == Run(Start(config), trace) && k < |w.log| && w.log[k].Executed?
    ensures w.log[k].command.action.DeleteTask? || w.log[k].command.action.DeleteReminder? ==>
              exists asked, won :: Justified(config, w.log, k, asked, won)
  {
    if w.log[k].command.action.DeleteTask? || w.log[k].command.action.DeleteReminder? {
      var asked, won := DeletesWereConfirmed(config, trace, k);
    }
  }

  /** What was executed is what the message asked for. */
  predicate Answers(message: Interpretation, command: Command, confirmation: Option<ConfirmationId>) {
    match message
    case Proposal(action) => command == action && confirmation == None
    case Confirming(named) => confirmation.Some? && (named.Some? ==> confirmation == named)
    case Other => false
  }
}
