/** Chat requests on one PostgreSQL database: housekeeping, decisions, pending confirmations and the execution of
    confirmed commands, one step per SQL statement.

    As for the scheduler, the table holds committed rows only, uncommitted writes belong to the session that made
    them, and a statement that would change a locked row waits.  A conditional update whose committed row fails the
    condition does not wait: it updates nothing. */
module ConfirmationProtocol {
  import opened Wrappers
  import opened Decisions

  type Time = int
  type ConfirmationId = nat
  type SessionId = nat

  datatype Status = Pending | Confirmed | Expired | Cancelled

  datatype Confirmation = Confirmation(user: Option<UserId>, command: Command, createdAt: Time, expiresAt: Time,
      status: Status)

  type Table = map<ConfirmationId, Confirmation>

  /** Where a chat request stands.

      - `CleaningUp`: `mark_expired` has written; the commit is next.
      - `Interpreting`: the model's answer is next.
      - `Asking`: a confirmation is to be created; `Asked`: it is inserted, the commit is next.
      - `Naming`: the row to confirm is known, the conditional update is next.
      - `Winning`: that update has written; `Losing`: it matched nothing, the diagnosis read is next.
      - `Expiring`: the diagnosis read saw a PENDING row; `Marking`: EXPIRED is written, the commit is next.
      - `Executing`: the executor is next, with the decision and the command it is given. */
  datatype Phase =
    | CleaningUp
    | Interpreting
    | Asking(decision: Decision)
    | Asked(id: ConfirmationId)
    | Naming(id: ConfirmationId)
    | Winning(id: ConfirmationId, now: Time)
    | Losing(id: ConfirmationId, now: Time)
    | Expiring(id: ConfirmationId, now: Time)
    | Marking(id: ConfirmationId, now: Time)
    | Executing(decision: Decision, command: Command, confirmation: Option<ConfirmationId>)

  datatype Chat = Chat(user: Option<UserId>, phase: Phase, writes: Table)

  /** What has happened, in order. */
  datatype Event =
    | Requested(id: ConfirmationId, user: Option<UserId>, command: Command, expiresAt: Time)
    | Won(id: ConfirmationId, user: Option<UserId>, now: Time)
    | Expiry(ids: set<ConfirmationId>, now: Time)
    | Executed(user: Option<UserId>, command: Command, confirmation: Option<ConfirmationId>)

  /** `used` are the ids of rows, committed or not; `named` are the ids a confirm request has named that no row
      had.  Ids are random, so a request names a committed row or an id that no row ever gets. */
  datatype World = World(
    config: Config,
    rows: Table,
    locks: map<ConfirmationId, SessionId>,
    chats: map<SessionId, Chat>,
    used: set<ConfirmationId>,
    named: set<ConfirmationId>,
    log: seq<Event>)

  datatype Action =
    | Cleanup(session: SessionId, user: Option<UserId>, now: Time)
    | Propose(session: SessionId, action: Command)
    | Create(session: SessionId, id: ConfirmationId, now: Time, ttl: nat)
    | FindLatest(session: SessionId)
    | Name(session: SessionId, id: ConfirmationId)
    | MarkConfirmed(session: SessionId, now: Time)
    | Diagnose(session: SessionId)
    | MarkExpired(session: SessionId)
    | Commit(session: SessionId)
    | CommitUnacknowledged(session: SessionId)
    | Execute(session: SessionId)
    | End(session: SessionId)

  function Start(config: Config): World {
    World(config, map[], map[], map[], {}, {}, [])
  }

  function Goto(w: World, s: SessionId, phase: Phase): World
    requires s in w.chats
  {
    w.(chats := w.chats[s := w.chats[s].(phase := phase)])
  }

  /** The session ends; whatever it has not committed is gone. */
  function Drop(w: World, s: SessionId): World
    requires s in w.chats
  {
    w.(locks := Unlock(w.locks, s), chats := w.chats - {s})
  }

  /** The rows `mark_expired` selects. */
  function Stale(w: World, now: Time): set<ConfirmationId> {
    set id | id in w.rows && w.rows[id].status.Pending? && w.rows[id].expiresAt < now
  }

  function AsExpired(rows: Table, ids: set<ConfirmationId>): Table
    requires ids <= rows.Keys
  {
    map id | id in ids :: rows[id].(status := Expired)
  }

  function Lock(locks: map<ConfirmationId, SessionId>, ids: set<ConfirmationId>, s: SessionId)
    : map<ConfirmationId, SessionId>
  {
    locks + map id | id in ids :: s
  }

  function Unlock(locks: map<ConfirmationId, SessionId>, s: SessionId): map<ConfirmationId, SessionId> {
    map id | id in locks && locks[id] != s :: locks[id]
  }

  /** A request begins with the housekeeping update, which waits while a row it selects is locked. */
  function DoCleanup(w: World, s: SessionId, user: Option<UserId>, now: Time): World {
    var stale := Stale(w, now);
    if s in w.chats || !(stale !! w.locks.Keys) then w
    else if stale == {} then w.(chats := w.chats[s := Chat(user, Interpreting, map[])])
    else
      w.(chats := w.chats[s := Chat(user, CleaningUp, AsExpired(w.rows, stale))],
         locks := Lock(w.locks, stale, s),
         log := w.log + [Expiry(stale, now)])
  }

  /** A proposal has been validated and resolved; decide, and go on by the decision. */
  function DoPropose(w: World, s: SessionId, action: Command): World {
    if s !in w.chats || !w.chats[s].phase.Interpreting? then w
    else
      var decision := Decide(w.config, action, w.chats[s].user);
      match decision.status
      case Authorized => Goto(w, s, Executing(decision, decision.action, None))
      case ConfirmationRequired => Goto(w, s, Asking(decision))
      case _ => Drop(w, s)
  }

  /** Insert the confirmation, with an id nobody has used or named. */
  function DoCreate(w: World, s: SessionId, id: ConfirmationId, now: Time, ttl: nat): World {
    if s !in w.chats || !w.chats[s].phase.Asking? || id in w.used || id in w.named then w
    else
      var chat := w.chats[s];
      var row := Confirmation(chat.user, chat.phase.decision.action, now, now + ttl, Pending);
      w.(chats := w.chats[s := chat.(phase := Asked(id), writes := map[id := row])],
         used := w.used + {id},
         log := w.log + [Requested(id, row.user, row.command, row.expiresAt)])
  }

  /** The order of `find_latest_pending_by_user`: created later, or at the same time with the larger id. */
  predicate Later(rows: Table, a: ConfirmationId, b: ConfirmationId)
    requires a in rows && b in rows
  {
    rows[a].createdAt > rows[b].createdAt || (rows[a].createdAt == rows[b].createdAt && a > b)
  }

  predicate IsLatest(rows: Table, ids: set<ConfirmationId>, last: ConfirmationId)
    requires ids <= rows.Keys
  {
    last in ids && forall id :: id in ids && id != last ==> Later(rows, last, id)
  }

  lemma LatestExists(rows: Table, ids: set<ConfirmationId>) returns (last: ConfirmationId)
    requires ids != {} && ids <= rows.Keys
    ensures IsLatest(rows, ids, last)
    decreases ids
  {
    var some :| some in ids;
    if ids == {some} {
      last := some;
    } else {
      var rest := LatestExists(rows, ids - {some});
      last := if Later(rows, some, rest) then some else rest;
      forall id | id in ids && id != last ensures Later(rows, last, id) {
        assert id == some || id in ids - {some};
      }
    }
  }

  function Pendings(rows: Table, user: Option<UserId>): set<ConfirmationId> {
    set id | id in rows && rows[id].user == user && rows[id].status.Pending?
  }

  lemma LatestIs(rows: Table, user: Option<UserId>, last: ConfirmationId)
    requires IsLatest(rows, Pendings(rows, user), last)
    ensures forall id :: id in rows && rows[id].user == user && rows[id].status.Pending? && id != last ==>
              rows[last].createdAt > rows[id].createdAt ||
              (rows[last].createdAt == rows[id].createdAt && last > id)
  {
    forall id | id in rows && rows[id].user == user && rows[id].status.Pending? && id != last
      ensures rows[last].createdAt > rows[id].createdAt ||
              (rows[last].createdAt == rows[id].createdAt && last > id)
    {
      assert id in Pendings(rows, user);
    }
  }

  /** `find_latest_pending_by_user`: the user's PENDING row that was created last, the one with the larger id among
      those created at the same time. */
  function LatestPending(rows: Table, user: Option<UserId>): (latest: Option<ConfirmationId>)
    ensures latest.None? <==> forall id :: id in rows ==> rows[id].user != user || !rows[id].status.Pending?
    ensures latest.Some? ==>
              latest.value in rows && rows[latest.value].user == user && rows[latest.value].status.Pending?
    ensures latest.Some? ==>
              forall id :: id in rows && rows[id].user == user && rows[id].status.Pending? && id != latest.value ==>
                rows[latest.value].createdAt > rows[id].createdAt ||
                (rows[latest.value].createdAt == rows[id].createdAt && latest.value > id)
  {
    var ids := Pendings(rows, user);
    if ids == {} then
      assert forall id :: id in rows && rows[id].user == user && rows[id].status.Pending? ==> id in ids;
      None
    else
      assert exists id :: IsLatest(rows, ids, id) by {
        var last := LatestExists(rows, ids);
      }
      var id :| IsLatest(rows, ids, id);
      LatestIs(rows, user, id);
      Some(id)
  }

  function DoFindLatest(w: World, s: SessionId): World {
    if s !in w.chats || !w.chats[s].phase.Interpreting? then w
    else
      match LatestPending(w.rows, w.chats[s].user)
      case Some(id) => Goto(w, s, Naming(id))
      case None => Drop(w, s)
  }

  function DoName(w: World, s: SessionId, id: ConfirmationId): World {
    if s !in w.chats || !w.chats[s].phase.Interpreting? || (id !in w.rows && id in w.used) then w
    else Goto(w, s, Naming(id)).(named := if id in w.rows then w.named else w.named + {id})
  }

  /** The WHERE clause of `mark_confirmed` on the committed row. */
  predicate Confirmable(w: World, id: ConfirmationId, user: Option<UserId>, now: Time) {
    id in w.rows && w.rows[id].user == user && w.rows[id].status.Pending? && w.rows[id].expiresAt > now
  }

  function DoMarkConfirmed(w: World, s: SessionId, now: Time): World {
    if s !in w.chats || !w.chats[s].phase.Naming? then w
    else
      var chat := w.chats[s];
      var id := chat.phase.id;
      if !Confirmable(w, id, chat.user, now) then Goto(w, s, Losing(id, now))
      else if id in w.locks then w
      else
        w.(chats := w.chats[s := chat.(phase := Winning(id, now),
            writes := map[id := w.rows[id].(status := Confirmed)])],
           locks := Lock(w.locks, {id}, s))
  }

  /** Why did the update match nothing?  Everything but a PENDING row of the user ends the request. */
  function DoDiagnose(w: World, s: SessionId): World {
    if s !in w.chats || !w.chats[s].phase.Losing? then w
    else
      var chat := w.chats[s];
      var id := chat.phase.id;
      if id in w.rows && w.rows[id].user == chat.user && w.rows[id].status.Pending?
      then Goto(w, s, Expiring(id, chat.phase.now))
      else Drop(w, s)
  }

  /** `confirmation.status = EXPIRED`: the update names the row by its id and nothing else. */
  function DoMarkExpired(w: World, s: SessionId): World {
    if s !in w.chats || !w.chats[s].phase.Expiring? then w
    else
      var chat := w.chats[s];
      var id := chat.phase.id;
      if id in w.locks || id !in w.rows then w
      else
        w.(chats := w.chats[s := chat.(phase := Marking(id, chat.phase.now), writes := AsExpired(w.rows, {id}))],
           locks := Lock(w.locks, {id}, s),
           log := w.log + [Expiry({id}, chat.phase.now)])
  }

  /** The session's writes become the committed rows, and its locks go. */
  function Committed(w: World, s: SessionId): World
    requires s in w.chats
  {
    w.(rows := w.rows + w.chats[s].writes,
       locks := Unlock(w.locks, s),
       chats := w.chats[s := w.chats[s].(writes := map[])])
  }

  predicate AtCommit(w: World, s: SessionId) {
    && s in w.chats
    && (w.chats[s].phase.CleaningUp? || w.chats[s].phase.Asked? || w.chats[s].phase.Winning? ||
        w.chats[s].phase.Marking?)
  }

  function DoCommit(w: World, s: SessionId): World {
    if !AtCommit(w, s) then w
    else
      var chat := w.chats[s];
      var v := Committed(w, s);
      match chat.phase
      case CleaningUp => Goto(v, s, Interpreting)
      case Winning(id, now) =>
        if id in chat.writes then
          var command := chat.writes[id].command;
          Goto(v, s, Executing(DecisionFor(command), command, Some(id))).(log := w.log + [Won(id, chat.user, now)])
        else w
      case _ => Drop(v, s)
  }

  /** The commit takes effect but its answer is lost: the caller sees an error and the request ends. */
  function DoCommitUnacknowledged(w: World, s: SessionId): World {
    if !AtCommit(w, s) then w else Drop(Committed(w, s), s)
  }

  function DoExecute(w: World, s: SessionId): World {
    if s !in w.chats || !w.chats[s].phase.Executing? then w
    else
      var chat := w.chats[s];
      var v := Drop(w, s);
      if Dispatches(chat.phase.decision, chat.phase.command)
      then v.(log := w.log + [Executed(chat.user, chat.phase.command, chat.phase.confirmation)])
      else v
  }

  function Next(w: World, a: Action): World {
    match a
    case Cleanup(s, user, now) => DoCleanup(w, s, user, now)
    case Propose(s, action) => DoPropose(w, s, action)
    case Create(s, id, now, ttl) => DoCreate(w, s, id, now, ttl)
    case FindLatest(s) => DoFindLatest(w, s)
    case Name(s, id) => DoName(w, s, id)
    case MarkConfirmed(s, now) => DoMarkConfirmed(w, s, now)
    case Diagnose(s) => DoDiagnose(w, s)
    case MarkExpired(s) => DoMarkExpired(w, s)
    case Commit(s) => DoCommit(w, s)
    case CommitUnacknowledged(s) => DoCommitUnacknowledged(w, s)
    case Execute(s) => DoExecute(w, s)
    case End(s) => if s in w.chats then Drop(w, s) else w
  }

  // ----- One statement at a time -----

  lemma CleanupIs(w: World, s: SessionId, user: Option<UserId>, now: Time)
    ensures Next(w, Cleanup(s, user, now)) == DoCleanup(w, s, user, now)
  {
  }

  lemma ProposeIs(w: World, s: SessionId, action: Command)
    ensures Next(w, Propose(s, action)) == DoPropose(w, s, action)
  {
  }

  lemma CreateIs(w: World, s: SessionId, id: ConfirmationId, now: Time, ttl: nat)
    ensures Next(w, Create(s, id, now, ttl)) == DoCreate(w, s, id, now, ttl)
  {
  }

  lemma FindLatestIs(w: World, s: SessionId)
    ensures Next(w, FindLatest(s)) == DoFindLatest(w, s)
  {
  }

  lemma NameIs(w: World, s: SessionId, id: ConfirmationId)
    ensures Next(w, Name(s, id)) == DoName(w, s, id)
  {
  }

  lemma MarkConfirmedIs(w: World, s: SessionId, now: Time)
    ensures Next(w, MarkConfirmed(s, now)) == DoMarkConfirmed(w, s, now)
  {
  }

  lemma DiagnoseIs(w: World, s: SessionId)
    ensures Next(w, Diagnose(s)) == DoDiagnose(w, s)
  {
  }

  lemma MarkExpiredIs(w: World, s: SessionId)
    ensures Next(w, MarkExpired(s)) == DoMarkExpired(w, s)
  {
  }

  lemma CommitIs(w: World, s: SessionId)
    ensures Next(w, Commit(s)) == DoCommit(w, s)
  {
  }

  lemma ExecuteIs(w: World, s: SessionId)
    ensures Next(w, Action.Execute(s)) == DoExecute(w, s)
  {
  }

  function Run(w: World, actions: seq<Action>): World {
    if actions == [] then w else Next(Run(w, actions[..|actions| - 1]), actions[|actions| - 1])
  }

  lemma {:induction false} RunAppend(w: World, before: seq<Action>, after: seq<Action>)
    ensures Run(w, before + after) == Run(Run(w, before), after)
    decreases |after|
  {
    hide Next;
    if after == [] {
      assert before + after == before;
    } else {
      var n := |after| - 1;
      assert (before + after)[..|before + after| - 1] == before + after[..n];
      RunAppend(w, before, after[..n]);
    }
  }

  lemma RunOne(w: World, a: Action)
    ensures Run(w, [a]) == Next(w, a)
  {
    assert [a][..0] == [];
  }
}
