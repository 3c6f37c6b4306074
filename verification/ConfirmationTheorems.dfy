/** What holds of the log and the rows in every run of chat requests. */
module ConfirmationTheorems {
  import opened Wrappers
  import opened Decisions
  import opened ConfirmationProtocol
  import opened ConfirmationSafety

  // ----- Once -----

  /** At most one confirm request per id is told CONFIRMED, whatever commits fail, are lost or are overwritten. */
  lemma ConfirmedAtMostOnce(config: Config, actions: seq<Action>, i: nat, j: nat)
    requires i < j < |Run(Start(config), actions).log|
    requires var log := Run(Start(config), actions).log; log[i].Won? && log[j].Won?
    ensures var log := Run(Start(config), actions).log; log[i].id != log[j].id
  {
    RunsKeep(config, actions);
    var log := Run(Start(config), actions).log;
    assert EventOk(config, log[..j], log[j]) by { ConfigStays(config, actions); }
    assert log[..j][i] == Won(log[i].id, log[i].user, log[i].now);
    assert log[..j][i] in log[..j];
  }

  /** And so its command is executed at most once. */
  lemma ExecutedAtMostOnce(config: Config, actions: seq<Action>, i: nat, j: nat)
    requires i < j < |Run(Start(config), actions).log|
    requires var log := Run(Start(config), actions).log; log[i].Executed? && log[j].Executed?
    ensures var log := Run(Start(config), actions).log;
            log[i].confirmation.Some? ==> log[i].confirmation != log[j].confirmation
  {
    RunsKeep(config, actions);
    var log := Run(Start(config), actions).log;
    assert EventOk(config, log[..j], log[j]) by { ConfigStays(config, actions); }
    if log[i].confirmation.Some? {
      assert log[..j][i] == Executed(log[i].user, log[i].command, Some(log[i].confirmation.value));
      assert log[..j][i] in log[..j];
    }
  }

  lemma {:induction false} ConfigStays(config: Config, actions: seq<Action>)
    ensures Run(Start(config), actions).config == config
    decreases |actions|
  {
    if actions != [] {
      ConfigStays(config, actions[..|actions| - 1]);
      hide LatestPending, Stale, Confirmable, Decide;
    }
  }

  // ----- Deletes -----

  lemma OneRequestPerId(config: Config, log: seq<Event>, j: nat, k: nat)
    requires LogOk(config, log) && j < |log| && k < |log|
    requires log[j].Requested? && log[k].Requested? && log[j].id == log[k].id
    ensures j == k
  {
    NoEarlierRequest(config, log, j, k);
    NoEarlierRequest(config, log, k, j);
  }

  lemma NoEarlierRequest(config: Config, log: seq<Event>, j: nat, k: nat)
    requires LogOk(config, log) && j < |log| && k < |log|
    requires log[j].Requested? && log[k].Requested? && log[j].id == log[k].id
    ensures !(j < k)
  {
    RequestedBefore(log, j, k);
    assert EventOk(config, log[..k], log[k]);
  }

  lemma RequestedBefore(log: seq<Event>, j: nat, k: nat)
    requires j < |log| && k < |log| && log[j].Requested?
    ensures j < k ==> RequestedIn(log[..k], log[j].id)
  {
    if j < k {
      assert log[..k][j] == Requested(log[j].id, log[j].user, log[j].command, log[j].expiresAt);
      assert log[..k][j] in log[..k];
    }
  }

  /** The deciding request and the confirmation behind an executed delete, in this order: an authorized
      CONFIRMATION_REQUIRED decision on the same command by the same user, and that user's confirmation strictly
      before its expiry. */
  ghost predicate Justified(config: Config, log: seq<Event>, k: nat, asked: nat, won: nat)
    requires k < |log| && log[k].Executed?
  {
    && asked < won < k
    && log[asked].Requested? && log[won].Won?
    && log[k].confirmation == Some(log[asked].id) && log[won].id == log[asked].id
    && log[asked].user == log[k].user == log[won].user && log[asked].command == log[k].command
    && log[won].now < log[asked].expiresAt
    && Decide(config, log[k].command, log[k].user).status.ConfirmationRequired?
    && (config.singleUserMode || (log[k].user.Some? && log[k].user == config.defaultUser))
  }

  /** The request a confirmation answers. */
  lemma RequestOf(config: Config, log: seq<Event>, won: nat) returns (asked: nat)
    requires LogOk(config, log) && won < |log| && log[won].Won?
    ensures asked < won && log[asked].Requested? && log[asked].id == log[won].id
    ensures log[asked].user == log[won].user && log[won].now < log[asked].expiresAt
  {
    var w := log[won];
    assert EventOk(config, log[..won], w);
    var command, expiresAt :| Requested(w.id, w.user, command, expiresAt) in log[..won] && w.now < expiresAt;
    asked :| 0 <= asked < won && log[..won][asked] == Requested(w.id, w.user, command, expiresAt);
  }

  /** The confirmation and the request an executed delete rests on. */
  lemma DeleteFollows(config: Config, log: seq<Event>, k: nat) returns (asked: nat, won: nat)
    requires LogOk(config, log) && k < |log| && log[k].Executed?
    requires log[k].command.action.DeleteTask? || log[k].command.action.DeleteReminder?
    ensures asked < k && won < k && log[asked].Requested? && log[won].Won?
    ensures log[k].confirmation == Some(log[asked].id) && log[won].id == log[asked].id
    ensures log[asked].user == log[k].user && log[asked].command == log[k].command
  {
    var e := log[k];
    assert EventOk(config, log[..k], e);
    var id := e.confirmation.value;
    var user, now :| Won(id, user, now) in log[..k];
    won :| 0 <= won < k && log[..k][won] == Won(id, user, now);
    var until :| Requested(id, e.user, e.command, until) in log[..k];
    asked :| 0 <= asked < k && log[..k][asked] == Requested(id, e.user, e.command, until);
  }

  lemma DeleteIsJustified(config: Config, log: seq<Event>, k: nat) returns (asked: nat, won: nat)
    requires LogOk(config, log) && k < |log| && log[k].Executed?
    requires log[k].command.action.DeleteTask? || log[k].command.action.DeleteReminder?
    ensures Justified(config, log, k, asked, won)
  {
    asked, won := DeleteFollows(config, log, k);
    var other := RequestOf(config, log, won);
    OneRequestPerId(config, log, asked, other);
    assert EventOk(config, log[..k], log[k]);
    assert EventOk(config, log[..asked], log[asked]);
    hide LogOk;
    DeletesNeedConfirmation(config, log[k].command, log[k].user);
  }

  /** Every delete executed through chat has its own earlier decision and confirmation: no two share them. */
  lemma DeletesWereConfirmed(config: Config, actions: seq<Action>, k: nat) returns (asked: nat, won: nat)
    requires var log := Run(Start(config), actions).log;
             && k < |log| && log[k].Executed?
             && (log[k].command.action.DeleteTask? || log[k].command.action.DeleteReminder?)
    ensures var log := Run(Start(config), actions).log;
            && Justified(config, log, k, asked, won)
            && forall other, w | 0 <= other < |log| && log[other].Executed? && Justified(config, log, other, asked, w)
                 :: other == k
  {
    RunsKeep(config, actions);
    ConfigStays(config, actions);
    var log := Run(Start(config), actions).log;
    asked, won := DeleteIsJustified(config, log, k);
    hide Inv, Run;
    forall other, w | 0 <= other < |log| && log[other].Executed? && Justified(config, log, other, asked, w)
      ensures other == k
    {
      if other < k {
        ExecutedAtMostOnce(config, actions, other, k);
      } else if k < other {
        ExecutedAtMostOnce(config, actions, k, other);
      }
    }
  }

  // ----- Expiry -----

  /** Only what has expired by the caller's clock is marked EXPIRED, by the housekeeping or by a confirm request. */
  lemma OnlyExpiredAreMarked(config: Config, actions: seq<Action>, k: nat, id: ConfirmationId) returns (j: nat)
    requires var log := Run(Start(config), actions).log; k < |log| && log[k].Expiry? && id in log[k].ids
    ensures var log := Run(Start(config), actions).log;
            j < k && log[j].Requested? && log[j].id == id && log[j].expiresAt <= log[k].now
  {
    RunsKeep(config, actions);
    ConfigStays(config, actions);
    var log := Run(Start(config), actions).log;
    assert EventOk(config, log[..k], log[k]);
    assert RequestPassed(log[..k], id, log[k].now);
    var user, command, expiresAt :| Requested(id, user, command, expiresAt) in log[..k] && expiresAt <= log[k].now;
    j :| 0 <= j < k && log[..k][j] == Requested(id, user, command, expiresAt);
  }

  /** The last branch of confirm is reached only with an expired row, whatever other sessions have done between the
      update that matched nothing and the read that still saw PENDING. */
  lemma FallThroughIsExpired(config: Config, actions: seq<Action>, s: SessionId)
    requires s in Run(Start(config), actions).chats
    ensures var w := Run(Start(config), actions);
            w.chats[s].phase.Expiring? ==>
              w.chats[s].phase.id in w.rows && w.rows[w.chats[s].phase.id].expiresAt <= w.chats[s].phase.now
  {
    RunsKeep(config, actions);
    KnownHere(Run(Start(config), actions), s);
  }

  // ----- Committed rows -----

  lemma CommitSetsRows(w: World, a: Action)
    requires (a.Commit? || a.CommitUnacknowledged?) && AtCommit(w, a.session)
    requires WritesOk(w.rows, w.chats[a.session])
    ensures Next(w, a).rows == w.rows + w.chats[a.session].writes
  {
    hide Unlock;
  }

  lemma OtherStepsKeepRows(w: World, a: Action)
    requires !((a.Commit? || a.CommitUnacknowledged?) && AtCommit(w, a.session))
    ensures Next(w, a).rows == w.rows
  {
    hide Confirmable, LatestPending, Stale, Decide, Dispatches, Unlock, Lock, AsExpired;
  }

  lemma NextAdvancesRows(w: World, a: Action)
    requires Inv(w)
    ensures RowsAdvance(w.rows, Next(w, a).rows, w.used)
  {
    RowsAdvanceReflexive(w.rows, w.used);
    hide Inv, RowsAdvance, WritesOk, PhaseOk, ExecutionOk, InsertOk, Next;
    if (a.Commit? || a.CommitUnacknowledged?) && AtCommit(w, a.session) {
      KnownHere(w, a.session);
      CommitSetsRows(w, a);
      CommitAdvancesRows(w.rows, w.used, w.named, w.config, w.chats[a.session]);
    } else {
      OtherStepsKeepRows(w, a);
    }
  }

  /** No committed step goes back to PENDING, and none changes whose confirmation it is, of what, or until when. */
  lemma NeverBackToPending(config: Config, actions: seq<Action>, a: Action, id: ConfirmationId)
    requires id in Run(Start(config), actions).rows
    ensures var w := Run(Start(config), actions);
            var v := Next(w, a);
            && id in v.rows && Same(w.rows[id], v.rows[id])
            && (v.rows[id].status.Pending? ==> w.rows[id].status.Pending?)
  {
    RunsKeep(config, actions);
    NextAdvancesRows(Run(Start(config), actions), a);
  }

  /** The commit of a confirm request that fell through, for `id`. */
  ghost predicate Overwrites(w: World, a: Action, id: ConfirmationId) {
    && (a.Commit? || a.CommitUnacknowledged?) && a.session in w.chats
    && w.chats[a.session].phase.Marking? && w.chats[a.session].phase.id == id
  }

  lemma CommitOverConfirmed(w: World, v: World, a: Action, id: ConfirmationId)
    requires (a.Commit? || a.CommitUnacknowledged?) && AtCommit(w, a.session)
    requires WritesOk(w.rows, w.chats[a.session]) && v.rows == w.rows + w.chats[a.session].writes
    requires id in w.rows && w.rows[id].status.Confirmed?
    ensures id in v.rows && (v.rows[id] != w.rows[id] <==> Overwrites(w, a, id))
    ensures Overwrites(w, a, id) ==> v.rows[id] == w.rows[id].(status := Expired)
                                     && w.rows[id].expiresAt <= w.chats[a.session].phase.now
  {
  }

  /** CONFIRMED is not terminal.  It is left exactly by the commit of a request that fell through, and then for
      EXPIRED; that request's clock was at or past the expiry, later than the clock that confirmed. */
  lemma ConfirmedIsLeftExactlyBy(config: Config, actions: seq<Action>, a: Action, id: ConfirmationId)
    requires id in Run(Start(config), actions).rows && Run(Start(config), actions).rows[id].status.Confirmed?
    ensures var w := Run(Start(config), actions);
            var v := Next(w, a);
            && id in v.rows
            && (v.rows[id] != w.rows[id] <==> Overwrites(w, a, id))
            && (Overwrites(w, a, id) ==> v.rows[id] == w.rows[id].(status := Expired)
                                         && w.rows[id].expiresAt <= w.chats[a.session].phase.now)
            && (Overwrites(w, a, id) ==> forall user, now :: Won(id, user, now) in w.log ==>
                now < w.chats[a.session].phase.now)
  {
    RunsKeep(config, actions);
    var w := Run(Start(config), actions);
    hide Inv, Run, Next, WritesOk;
    if (a.Commit? || a.CommitUnacknowledged?) && AtCommit(w, a.session) {
      KnownHere(w, a.session);
      CommitSetsRows(w, a);
      CommitOverConfirmed(w, Next(w, a), a, id);
      forall user, now | Won(id, user, now) in w.log ensures now < w.rows[id].expiresAt {
        WonBeforeExpiry(w, id, user, now);
      }
    } else {
      OtherStepsKeepRows(w, a);
    }
  }

  lemma WonBeforeExpiry(w: World, id: ConfirmationId, user: Option<UserId>, now: Time)
    requires Inv(w) && id in w.rows && Won(id, user, now) in w.log
    ensures now < w.rows[id].expiresAt
  {
    hide LocksOk, ChatsOk, Exclusive;
    var k :| 0 <= k < |w.log| && w.log[k] == Won(id, user, now);
    assert EventOk(w.config, w.log[..k], w.log[k]);
    var command, expiresAt :| Requested(id, user, command, expiresAt) in w.log[..k] && now < expiresAt;
    var j :| 0 <= j < k && w.log[..k][j] == Requested(id, user, command, expiresAt);
    var i :| 0 <= i < |w.log| && w.log[i] == Requested(id, w.rows[id].user, w.rows[id].command, w.rows[id].expiresAt);
    OneRequestPerId(w.config, w.log, i, j);
  }

  // ----- Two clocks on both sides of the expiry -----

  /** The steps of two requests for the same confirmation, the first with a clock before the expiry and the second
      with one at or past it.  The second's update does not match and does not wait; its read still sees PENDING. */
  function Straddle(s: SessionId, t: SessionId, early: Time, late: Time): seq<Action> {
    [MarkConfirmed(s, early), MarkConfirmed(t, late), Diagnose(t), Commit(s), MarkExpired(t), Commit(t)]
  }

  ghost predicate BothName(w: World, s: SessionId, t: SessionId, id: ConfirmationId, early: Time, late: Time) {
    && s != t && s in w.chats && t in w.chats && id in w.rows && id !in w.locks
    && w.chats[s].phase == Naming(id) && w.chats[t].phase == Naming(id)
    && w.chats[s].user == w.chats[t].user == w.rows[id].user
    && w.rows[id].status.Pending? && early < w.rows[id].expiresAt <= late
  }

  lemma RunSix(w: World, a: Action, b: Action, c: Action, d: Action, e: Action, f: Action)
    ensures Run(w, [a, b, c, d, e, f]) == Next(Next(Next(Next(Next(Next(w, a), b), c), d), e), f)
  {
    hide Next;
    RunOne(w, a);
    assert [a, b][..1] == [a];
    assert [a, b, c][..2] == [a, b];
    assert [a, b, c, d][..3] == [a, b, c];
    assert [a, b, c, d, e][..4] == [a, b, c, d];
    assert [a, b, c, d, e, f][..5] == [a, b, c, d, e];
    assert Run(w, [a, b]) == Next(Run(w, [a]), b);
    assert Run(w, [a, b, c]) == Next(Run(w, [a, b]), c);
    assert Run(w, [a, b, c, d]) == Next(Run(w, [a, b, c]), d);
  }

  lemma FirstWinsSecondLoses(w: World, s: SessionId, t: SessionId, id: ConfirmationId, early: Time, late: Time)
    requires BothName(w, s, t, id, early, late)
    ensures var x := Next(Next(Next(w, MarkConfirmed(s, early)), MarkConfirmed(t, late)), Diagnose(t));
            && x.rows == w.rows && s in x.chats && t in x.chats && id in x.locks && x.locks[id] == s
            && x.chats[s].phase == Winning(id, early) &&
                x.chats[s].writes == map[id := w.rows[id].(status := Confirmed)]
            && x.chats[t].phase == Expiring(id, late)
  {
    var u := Next(w, MarkConfirmed(s, early));
    assert u.rows == w.rows && u.chats[t] == w.chats[t];
    var v := Next(u, MarkConfirmed(t, late));
    assert v.chats[s] == u.chats[s] && v.locks == u.locks;
  }

  /** CONFIRMED is committed and its command goes to the executor, and then EXPIRED is written over it. */
  lemma StraddlingClocksOverwrite(w: World, s: SessionId, t: SessionId, id: ConfirmationId, early: Time, late: Time)
    requires BothName(w, s, t, id, early, late)
    ensures var confirmed := Run(w, Straddle(s, t, early, late)[..4]);
            var v := Run(w, Straddle(s, t, early, late));
            && id in confirmed.rows && confirmed.rows[id].status.Confirmed?
            && s in confirmed.chats && Executes(confirmed.chats[s], id)
            && id in v.rows && v.rows[id].status.Expired? && s in v.chats && Executes(v.chats[s], id)
  {
    var p := Straddle(s, t, early, late);
    RunSix(w, p[0], p[1], p[2], p[3], p[4], p[5]);
    RunFour(w, p[0], p[1], p[2], p[3]);
    assert p[..4] == [p[0], p[1], p[2], p[3]] && p == [p[0], p[1], p[2], p[3], p[4], p[5]];
    FirstWinsSecondLoses(w, s, t, id, early, late);
    var x := Next(Next(Next(w, p[0]), p[1]), p[2]);
    hide Run;
    ThenBothCommit(x, s, t, id, early, late);
  }

  /** The winner's commit: its row is CONFIRMED and free, its command goes to the executor, the other stands still. */
  lemma WinnerCommits(x: World, s: SessionId, t: SessionId, id: ConfirmationId, early: Time)
    requires s != t && s in x.chats && t in x.chats && id in x.locks && x.locks[id] == s && id in x.rows
    requires x.chats[s].phase == Winning(id, early) && x.chats[s].writes == map[id := x.rows[id].(status := Confirmed)]
    ensures var y := Next(x, Commit(s));
            && id in y.rows && y.rows[id].status.Confirmed? && id !in y.locks
            && s in y.chats && Executes(y.chats[s], id) && t in y.chats && y.chats[t] == x.chats[t]
  {
    CommitIs(x, s);
    hide Next;
  }

  lemma LoserMarks(y: World, s: SessionId, t: SessionId, id: ConfirmationId, late: Time)
    requires s != t && s in y.chats && t in y.chats && id in y.rows && id !in y.locks &&
        y.chats[t].phase == Expiring(id, late)
    ensures var u := Next(y, MarkExpired(t));
            && u.rows == y.rows && s in u.chats && u.chats[s] == y.chats[s]
            && t in u.chats && u.chats[t].phase == Marking(id, late) && u.chats[t].writes == AsExpired(y.rows, {id})
  {
    MarkExpiredIs(y, t);
    hide Next, Lock;
  }

  lemma LoserCommits(u: World, s: SessionId, t: SessionId, id: ConfirmationId, late: Time)
    requires s != t && s in u.chats && t in u.chats && id in u.rows
    requires u.chats[t].phase == Marking(id, late) && u.chats[t].writes == AsExpired(u.rows, {id})
    ensures var z := Next(u, Commit(t));
            id in z.rows && z.rows[id].status.Expired? && s in z.chats && z.chats[s] == u.chats[s]
  {
    CommitIs(u, t);
    hide Next, Unlock;
  }

  lemma ThenBothCommit(x: World, s: SessionId, t: SessionId, id: ConfirmationId, early: Time, late: Time)
    requires s != t && s in x.chats && t in x.chats && id in x.locks && x.locks[id] == s && id in x.rows
    requires x.chats[s].phase == Winning(id, early) && x.chats[s].writes == map[id := x.rows[id].(status := Confirmed)]
    requires x.chats[t].phase == Expiring(id, late)
    ensures var y := Next(x, Commit(s));
            var z := Next(Next(y, MarkExpired(t)), Commit(t));
            && id in y.rows && y.rows[id].status.Confirmed? && s in y.chats && Executes(y.chats[s], id)
            && id in z.rows && z.rows[id].status.Expired? && s in z.chats && Executes(z.chats[s], id)
  {
    hide Next, Executes;
    WinnerCommits(x, s, t, id, early);
    var y := Next(x, Commit(s));
    LoserMarks(y, s, t, id, late);
    LoserCommits(Next(y, MarkExpired(t)), s, t, id, late);
  }

  lemma RunFour(w: World, a: Action, b: Action, c: Action, d: Action)
    ensures Run(w, [a, b, c, d]) == Next(Next(Next(Next(w, a), b), c), d)
  {
    hide Next;
    RunOne(w, a);
    assert [a, b][..1] == [a];
    assert [a, b, c][..2] == [a, b];
    assert [a, b, c, d][..3] == [a, b, c];
    assert Run(w, [a, b]) == Next(Run(w, [a]), b);
    assert Run(w, [a, b, c]) == Next(Run(w, [a, b]), c);
  }

  const DELETE_FIVE: Command := Command(DeleteTask, Some(5), map[])
  const SINGLE_USER: Config := Config(true, None)
  const ASKING: seq<Action> := [Cleanup(1, None, 0), Propose(1, DELETE_FIVE), Create(1, 9, 0, 300), Commit(1)]
  const ANSWERING: seq<Action> := [Cleanup(2, None, 200), Cleanup(3, None, 200), Name(2, 9), Name(3, 9)]

  /** The request of one chat is interpreted: its housekeeping found nothing to mark. */
  lemma OpensChat(w: World, s: SessionId, user: Option<UserId>, now: Time)
    requires s !in w.chats && Stale(w, now) == {}
    ensures Next(w, Cleanup(s, user, now)) == w.(chats := w.chats[s := Chat(user, Interpreting, map[])])
  {
    CleanupIs(w, s, user, now);
    hide Next;
  }

  lemma AsksFirst(w: World)
    requires w.config == SINGLE_USER && w.chats == map[1 := Chat(None, Interpreting, map[])]
    ensures Next(w, Propose(1, DELETE_FIVE))
         == w.(chats := map[1 := Chat(None, Asking(Decision(ConfirmationRequired, DELETE_FIVE)), map[])])
  {
    ProposeIs(w, 1, DELETE_FIVE);
    hide Next;
  }

  lemma Inserts(w: World)
    requires w.chats == map[1 := Chat(None, Asking(Decision(ConfirmationRequired, DELETE_FIVE)), map[])]
    requires w.rows == map[] && w.locks == map[] && 9 !in w.used && 9 !in w.named
    ensures var v := Next(w, Create(1, 9, 0, 300));
            && v.chats == map[1 := Chat(None, Asked(9), map[9 := Confirmation(None, DELETE_FIVE, 0, 300, Pending)])]
            && v.rows == map[] && v.locks == map[]
  {
    CreateIs(w, 1, 9, 0, 300);
    hide Next;
  }

  lemma CommitsIt(w: World, row: Confirmation)
    requires w.chats == map[1 := Chat(None, Asked(9), map[9 := row])] && w.rows == map[] && w.locks == map[]
    ensures var v := Next(w, Commit(1)); v.rows == map[9 := row] && v.locks == map[] && v.chats == map[]
  {
    CommitIs(w, 1);
    hide Next;
    assert map[] + map[9 := row] == map[9 := row];
  }

  /** A run that gets there: in single-user mode, request 1 asks to delete task 5, and requests 2 and 3 answer yes. */
  lemma StraddleIsReachable()
    ensures BothName(Run(Run(Start(SINGLE_USER), ASKING), ANSWERING), 2, 3, 9, 299, 300)
  {
    var start := Start(SINGLE_USER);
    var row := Confirmation(None, DELETE_FIVE, 0, 300, Pending);
    assert Stale(start, 0) == {};
    hide Next, Run, BothName;
    RunFour(start, ASKING[0], ASKING[1], ASKING[2], ASKING[3]);
    assert ASKING == [ASKING[0], ASKING[1], ASKING[2], ASKING[3]];
    OpensChat(start, 1, None, 0);
    var w1 := Next(start, ASKING[0]);
    AsksFirst(w1);
    var w2 := Next(w1, ASKING[1]);
    Inserts(w2);
    var w3 := Next(w2, ASKING[2]);
    CommitsIt(w3, row);
    var w4 := Next(w3, ASKING[3]);
    NameTwice(w4, row);
    RunFour(w4, ANSWERING[0], ANSWERING[1], ANSWERING[2], ANSWERING[3]);
    assert ANSWERING == [ANSWERING[0], ANSWERING[1], ANSWERING[2], ANSWERING[3]];
  }

  lemma NamesIt(w: World, s: SessionId, id: ConfirmationId)
    requires s in w.chats && w.chats[s].phase.Interpreting? && id in w.rows
    ensures Next(w, Name(s, id)) == w.(chats := w.chats[s := w.chats[s].(phase := Naming(id))])
  {
    NameIs(w, s, id);
    hide Next;
  }

  lemma NameTwice(w: World, row: Confirmation)
    requires w.rows == map[9 := row] && w.locks == map[] && w.chats == map[]
    requires row.user == None && row.status.Pending? && row.expiresAt == 300
    ensures BothName(Next(Next(Next(Next(w, Cleanup(2, None, 200)), Cleanup(3, None, 200)), Name(2, 9)), Name(3, 9)),
                     2, 3, 9, 299, 300)
  {
    hide Next;
    assert Stale(w, 200) == {};
    OpensChat(w, 2, None, 200);
    var x := Next(w, Cleanup(2, None, 200));
    assert Stale(x, 200) == {};
    OpensChat(x, 3, None, 200);
    var y := Next(x, Cleanup(3, None, 200));
    NamesIt(y, 2, 9);
    NamesIt(Next(y, Name(2, 9)), 3, 9);
  }
}
