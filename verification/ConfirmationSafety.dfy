/** What every interleaving of chat requests keeps: nothing is confirmed or executed twice, nothing is deleted
    without a confirmed decision, and only what has expired is marked so. */
module ConfirmationSafety {
  import opened Wrappers
  import opened Decisions
  import opened ConfirmationProtocol

  // ----- The log -----

  ghost predicate WonIn(log: seq<Event>, id: ConfirmationId) {
    exists user, now :: Won(id, user, now) in log
  }

  ghost predicate ExecutedIn(log: seq<Event>, id: ConfirmationId) {
    exists user, command :: Executed(user, command, Some(id)) in log
  }

  ghost predicate RequestedIn(log: seq<Event>, id: ConfirmationId) {
    exists user, command, expiresAt :: Requested(id, user, command, expiresAt) in log
  }

  /** The request of `id`, in time for `now`. */
  ghost predicate RequestedUntil(log: seq<Event>, id: ConfirmationId, user: Option<UserId>, now: Time) {
    exists command, expiresAt :: Requested(id, user, command, expiresAt) in log && now < expiresAt
  }

  ghost predicate RequestedBy(log: seq<Event>, id: ConfirmationId, user: Option<UserId>, command: Command) {
    exists expiresAt :: Requested(id, user, command, expiresAt) in log
  }

  ghost predicate RequestPassed(log: seq<Event>, id: ConfirmationId, now: Time) {
    exists user, command, expiresAt :: Requested(id, user, command, expiresAt) in log && expiresAt <= now
  }

  /** What must have happened before an event. */
  ghost predicate EventOk(config: Config, before: seq<Event>, e: Event) {
    match e
    case Requested(id, user, command, _) =>
      !RequestedIn(before, id) && Decide(config, command, user).status.ConfirmationRequired?
    case Won(id, user, now) => RequestedUntil(before, id, user, now) && !WonIn(before, id)
    case Expiry(ids, now) => forall id :: id in ids ==> RequestPassed(before, id, now)
    case Executed(user, command, None) => !command.action.DeleteTask? && !command.action.DeleteReminder?
    case Executed(user, command, Some(id)) =>
      RequestedBy(before, id, user, command) && WonIn(before, id) && !ExecutedIn(before, id)
  }

  ghost predicate LogOk(config: Config, log: seq<Event>) {
    forall k :: 0 <= k < |log| ==> EventOk(config, log[..k], log[k])
  }

  lemma LogAppend(config: Config, log: seq<Event>, e: Event)
    requires LogOk(config, log) && EventOk(config, log, e)
    ensures LogOk(config, log + [e])
  {
    hide EventOk;
    var all := log + [e];
    forall k | 0 <= k < |all| ensures EventOk(config, all[..k], all[k]) {
      if k < |log| {
        assert all[..k] == log[..k];
      } else {
        assert all[..k] == log;
      }
    }
  }

  // ----- The state -----

  ghost predicate Same(row: Confirmation, other: Confirmation) {
    row.user == other.user && row.command == other.command && row.createdAt == other.createdAt
    && row.expiresAt == other.expiresAt
  }

  /** A session's uncommitted writes are those of its phase, on rows that are, as committed, what it found. */
  ghost predicate WritesOk(rows: Table, chat: Chat) {
    match chat.phase
    case CleaningUp =>
      forall id :: id in chat.writes ==>
        id in rows && rows[id].status.Pending? && chat.writes[id] == rows[id].(status := Expired)
    case Asked(id) =>
      id !in rows && chat.writes.Keys == {id} && chat.writes[id].status.Pending? && chat.writes[id].user == chat.user
    case Winning(id, now) =>
      && chat.writes.Keys == {id} && id in rows && rows[id].status.Pending? && rows[id].user == chat.user
      && now < rows[id].expiresAt && chat.writes[id] == rows[id].(status := Confirmed)
    case Marking(id, now) =>
      && chat.writes.Keys == {id} && id in rows && rows[id].expiresAt <= now
      && chat.writes[id] == rows[id].(status := Expired)
    case _ => chat.writes == map[]
  }

  /** A row is locked exactly by the session that has changed it and not yet ended. */
  ghost predicate LocksOk(w: World) {
    && (forall id :: id in w.locks ==> id in w.rows && w.locks[id] in w.chats && id in w.chats[w.locks[id]].writes)
    && (forall s, id :: s in w.chats && id in w.chats[s].writes && id in w.rows ==> id in w.locks && w.locks[id] == s)
  }

  /** What a session knows of the row it deals with; nothing another session does makes it false. */
  ghost predicate PhaseOk(config: Config, rows: Table, used: set<ConfirmationId>, named: set<ConfirmationId>,
      chat: Chat) {
    match chat.phase
    case Asking(decision) =>
      decision == Decide(config, decision.action, chat.user) && decision.status.ConfirmationRequired?
    case Asked(id) => id in used
    case Naming(id) => id in rows || id in named
    case Losing(id, now) =>
      && (id in rows || id in named)
      && (id in rows ==> rows[id].user != chat.user || !rows[id].status.Pending? || rows[id].expiresAt <= now)
    case Expiring(id, now) => id in rows && rows[id].expiresAt <= now
    case Executing(decision, command, None) =>
      decision == Decide(config, command, chat.user) && decision.status.Authorized?
    case _ => true
  }

  /** A confirmed command about to be executed: confirmed by this user, and not executed before. */
  ghost predicate ExecutionOk(log: seq<Event>, chat: Chat) {
    chat.phase.Executing? && chat.phase.confirmation.Some? ==>
      var id := chat.phase.confirmation.value;
      RequestedBy(log, id, chat.user, chat.phase.command) && WonIn(log, id) && !ExecutedIn(log, id)
  }

  ghost predicate Executes(chat: Chat, id: ConfirmationId) {
    chat.phase.Executing? && chat.phase.confirmation == Some(id)
  }

  /** No two sessions insert the same id, and no two execute the same confirmation. */
  ghost predicate Exclusive(chats: map<SessionId, Chat>) {
    && (forall s, t, id: ConfirmationId :: s in chats && t in chats && s != t && chats[s].phase == Asked(id) ==>
        chats[t].phase != Asked(id))
    && (forall s, t, id: ConfirmationId :: s in chats && t in chats && s != t && Executes(chats[s], id) ==>
        !Executes(chats[t], id))
  }

  /** Rows come from requests; a row that was won is no longer PENDING. */
  ghost predicate RowsOk(w: World) {
    && w.rows.Keys <= w.used && w.named !! w.used
    && (forall id :: id in w.rows ==> Requested(id, w.rows[id].user, w.rows[id].command, w.rows[id].expiresAt) in w.log)
    && (forall id: ConfirmationId :: WonIn(w.log, id) ==> id in w.rows && !w.rows[id].status.Pending?)
    && (forall id: ConfirmationId :: RequestedIn(w.log, id) ==> id in w.used)
    && (forall id: ConfirmationId :: ExecutedIn(w.log, id) ==> WonIn(w.log, id))
  }

  ghost predicate InsertOk(log: seq<Event>, chat: Chat) {
    chat.phase.Asked? && chat.phase.id in chat.writes ==>
      var row := chat.writes[chat.phase.id];
      Requested(chat.phase.id, row.user, row.command, row.expiresAt) in log
  }

  /** Everything a single session's state must satisfy. */
  ghost predicate ChatOk(w: World, chat: Chat) {
    && WritesOk(w.rows, chat)
    && PhaseOk(w.config, w.rows, w.used, w.named, chat)
    && ExecutionOk(w.log, chat)
    && InsertOk(w.log, chat)
  }

  ghost predicate ChatsOk(w: World) {
    forall s :: s in w.chats ==> ChatOk(w, w.chats[s])
  }

  ghost predicate Inv(w: World) {
    LocksOk(w) && ChatsOk(w) && Exclusive(w.chats) && RowsOk(w) && LogOk(w.config, w.log)
  }

  // ----- How one step changes the world -----

  ghost predicate RowsAdvance(rows: Table, after: Table, used: set<ConfirmationId>) {
    && (forall id :: id in rows ==> id in after && Same(rows[id], after[id]) &&
                                    (after[id].status.Pending? ==> rows[id].status.Pending?))
    && (forall id :: id in after && id !in rows ==> id in used)
  }

  ghost predicate LogAdvances(log: seq<Event>, after: seq<Event>) {
    forall e :: e in log ==> e in after
  }

  ghost predicate Advances(w: World, v: World) {
    && v.config == w.config && w.used <= v.used && w.named <= v.named
    && RowsAdvance(w.rows, v.rows, w.used) && LogAdvances(w.log, v.log)
  }

  /** Only `s` acts: it touches no row but those it has written, and executes only what it was about to. */
  ghost predicate OnlyBy(w: World, v: World, s: SessionId) {
    && v.chats - {s} == w.chats - {s}
    && (forall id :: id in w.rows && id in v.rows && v.rows[id] != w.rows[id] ==>
        s in w.chats && id in w.chats[s].writes)
    && (forall id :: id in v.rows && id !in w.rows ==> s in w.chats && w.chats[s].phase == Asked(id))
    && (forall id: ConfirmationId :: ExecutedIn(v.log, id) && !ExecutedIn(w.log, id) ==>
        s in w.chats && Executes(w.chats[s], id))
  }

  lemma PhaseStays(w: World, v: World, chat: Chat)
    requires Advances(w, v) && PhaseOk(w.config, w.rows, w.used, w.named, chat) && w.named !! w.used
    ensures PhaseOk(v.config, v.rows, v.used, v.named, chat)
  {
    hide LogAdvances;
  }

  lemma WritesStay(rows: Table, after: Table, used: set<ConfirmationId>, chat: Chat)
    requires WritesOk(rows, chat)
    requires forall id :: id in chat.writes && id in rows ==> id in after && after[id] == rows[id]
    requires chat.phase.Asked? ==> chat.phase.id !in after
    ensures WritesOk(after, chat)
  {
  }

  lemma ExecutionStays(log: seq<Event>, after: seq<Event>, chat: Chat)
    requires ExecutionOk(log, chat) && LogAdvances(log, after)
    requires forall id: ConfirmationId :: Executes(chat, id) && ExecutedIn(after, id) ==> ExecutedIn(log, id)
    ensures ExecutionOk(after, chat)
  {
    if chat.phase.Executing? && chat.phase.confirmation.Some? {
      assert Executes(chat, chat.phase.confirmation.value);
    }
  }

  lemma OtherChatStays(w: World, v: World, s: SessionId, t: SessionId)
    requires Inv(w) && Advances(w, v) && OnlyBy(w, v, s) && t in w.chats && t != s
    ensures t in v.chats && v.chats[t] == w.chats[t] && ChatOk(v, w.chats[t])
  {
    var chat := w.chats[t];
    assert t in w.chats - {s};
    assert t in v.chats && v.chats[t] == chat by { assert (v.chats - {s})[t] == (w.chats - {s})[t]; }
    assert ChatOk(w, chat);
    hide EventOk, LogOk, LogAdvances, PhaseOk, WritesOk, ExecutionOk;
    PhaseStays(w, v, chat);
    OtherWritesAreUntouched(w, v, s, t);
    WritesStay(w.rows, v.rows, w.used, chat);
    ExecutionStays(w.log, v.log, chat);
    InsertStays(w.log, v.log, chat);
  }

  lemma InsertStays(log: seq<Event>, after: seq<Event>, chat: Chat)
    requires InsertOk(log, chat) && LogAdvances(log, after)
    ensures InsertOk(after, chat)
  {
  }

  lemma OtherWritesAreUntouched(w: World, v: World, s: SessionId, t: SessionId)
    requires LocksOk(w) && Exclusive(w.chats) && RowsAdvance(w.rows, v.rows, w.used) && OnlyBy(w, v, s) &&
        t in w.chats && t != s
    requires WritesOk(w.rows, w.chats[t])
    ensures forall id :: id in w.chats[t].writes && id in w.rows ==> id in v.rows && v.rows[id] == w.rows[id]
    ensures w.chats[t].phase.Asked? ==> w.chats[t].phase.id !in v.rows
  {
    forall id | id in w.chats[t].writes && id in w.rows ensures id in v.rows && v.rows[id] == w.rows[id] {
      assert w.locks[id] == t;
    }
  }

  lemma ChatsStay(w: World, v: World, s: SessionId)
    requires Inv(w) && Advances(w, v) && OnlyBy(w, v, s)
    requires s in v.chats ==> ChatOk(v, v.chats[s])
    ensures ChatsOk(v)
  {
    forall t | t in v.chats ensures ChatOk(v, v.chats[t]) {
      if t != s {
        assert t in v.chats - {s};
        assert t in w.chats;
        hide Inv, Advances, OnlyBy, ChatOk;
        OtherChatStays(w, v, s, t);
      }
    }
  }

  // ----- Events -----

  lemma LogGrows(log: seq<Event>, e: Event)
    ensures LogAdvances(log, log + [e])
    ensures forall id: ConfirmationId :: WonIn(log + [e], id) <==> WonIn(log, id) || (e.Won? && e.id == id)
    ensures forall id: ConfirmationId :: RequestedIn(log + [e], id) <==>
        RequestedIn(log, id) || (e.Requested? && e.id == id)
    ensures forall id: ConfirmationId :: ExecutedIn(log + [e], id) <==>
        ExecutedIn(log, id) || (e.Executed? && e.confirmation == Some(id))
  {
    var all := log + [e];
    assert forall x :: x in all <==> x in log || x == e;
    forall id: ConfirmationId ensures WonIn(all, id) <==> WonIn(log, id) || (e.Won? && e.id == id) {
      if WonIn(log, id) {
        var u, n :| Won(id, u, n) in log;
        assert Won(id, u, n) in all;
      } else if e.Won? && e.id == id {
        assert Won(id, e.user, e.now) in all;
      }
    }
    forall id: ConfirmationId ensures RequestedIn(all, id) <==> RequestedIn(log, id) || (e.Requested? && e.id == id) {
      if RequestedIn(log, id) {
        var u, c, x :| Requested(id, u, c, x) in log;
        assert Requested(id, u, c, x) in all;
      } else if e.Requested? && e.id == id {
        assert Requested(id, e.user, e.command, e.expiresAt) in all;
      }
    }
    forall id: ConfirmationId
      ensures ExecutedIn(all, id) <==> ExecutedIn(log, id) || (e.Executed? && e.confirmation == Some(id))
    {
      if ExecutedIn(log, id) {
        var u, c :| Executed(u, c, Some(id)) in log;
        assert Executed(u, c, Some(id)) in all;
      } else if e.Executed? && e.confirmation == Some(id) {
        assert Executed(e.user, e.command, Some(id)) in all;
      }
    }
  }

  // ----- One step keeps the invariant, when -----

  lemma StepKeeps(w: World, v: World, s: SessionId)
    requires Inv(w) && Advances(w, v) && OnlyBy(w, v, s)
    requires s in v.chats ==> ChatOk(v, v.chats[s])
    requires LocksOk(v) && Exclusive(v.chats) && RowsOk(v) && LogOk(v.config, v.log)
    ensures Inv(v)
  {
    hide LocksOk, Exclusive, RowsOk, LogOk, Advances, OnlyBy, ChatOk;
    ChatsStay(w, v, s);
  }

  lemma RowsAdvanceReflexive(rows: Table, used: set<ConfirmationId>)
    ensures RowsAdvance(rows, rows, used)
  {
  }

  /** No committed row changes, and nothing is executed. */
  lemma QuietAdvance(w: World, v: World, s: SessionId)
    requires v.rows == w.rows && v.config == w.config && w.used <= v.used && w.named <= v.named
    requires v.chats - {s} == w.chats - {s} && LogAdvances(w.log, v.log)
    requires forall id: ConfirmationId :: ExecutedIn(v.log, id) <==> ExecutedIn(w.log, id)
    ensures Advances(w, v) && OnlyBy(w, v, s)
  {
    hide LogAdvances, ExecutedIn;
  }

  lemma OthersSame(chats: map<SessionId, Chat>, s: SessionId, chat: Chat)
    ensures chats[s := chat] - {s} == chats - {s}
  {
  }

  ghost predicate Private(phase: Phase) {
    !phase.Asked? && (phase.Executing? ==> phase.confirmation.None?)
  }

  lemma ExclusiveStays(chats: map<SessionId, Chat>, s: SessionId, chat: Chat)
    requires Exclusive(chats) && Private(chat.phase)
    ensures Exclusive(chats[s := chat])
  {
  }

  lemma ExclusiveDrops(chats: map<SessionId, Chat>, s: SessionId)
    requires Exclusive(chats)
    ensures Exclusive(chats - {s})
  {
  }

  // ----- Steps that write nothing -----

  lemma PhaseStepLocks(w: World, s: SessionId, chat: Chat, named: set<ConfirmationId>)
    requires LocksOk(w) && (s in w.chats ==> w.chats[s].writes == map[]) && chat.writes == map[]
    ensures LocksOk(w.(chats := w.chats[s := chat], named := named))
  {
  }

  /** A session without uncommitted writes begins or moves on to another phase. */
  lemma PhaseStepKeeps(w: World, s: SessionId, chat: Chat, named: set<ConfirmationId>)
    requires Inv(w) && (s in w.chats ==> w.chats[s].writes == map[]) && chat.writes == map[]
    requires w.named <= named && named !! w.used && Private(chat.phase)
    requires ChatOk(w.(chats := w.chats[s := chat], named := named), chat)
    ensures Inv(w.(chats := w.chats[s := chat], named := named))
  {
    var v := w.(chats := w.chats[s := chat], named := named);
    assert RowsOk(v);
    hide ChatOk, EventOk, LogOk, LocksOk, Exclusive, RowsOk, Advances, OnlyBy, ChatsOk, ExecutedIn;
    OthersSame(w.chats, s, chat);
    QuietAdvance(w, v, s);
    PhaseStepLocks(w, s, chat, named);
    ExclusiveStays(w.chats, s, chat);
    StepKeeps(w, v, s);
  }

  lemma DropLocks(w: World, s: SessionId)
    requires LocksOk(w) && s in w.chats
    ensures LocksOk(Drop(w, s))
  {
  }

  lemma DropKeeps(w: World, s: SessionId)
    requires Inv(w) && s in w.chats
    ensures Inv(Drop(w, s))
  {
    var v := Drop(w, s);
    assert RowsOk(v);
    assert v.chats - {s} == w.chats - {s};
    hide ChatOk, EventOk, LogOk, LocksOk, Exclusive, ChatsOk, RowsOk, Advances, OnlyBy, ExecutedIn;
    QuietAdvance(w, v, s);
    DropLocks(w, s);
    ExclusiveDrops(w.chats, s);
    StepKeeps(w, v, s);
  }

  lemma NoWritesHere(w: World, s: SessionId)
    requires Inv(w) && s in w.chats
    requires var p := w.chats[s].phase; !p.CleaningUp? && !p.Asked? && !p.Winning? && !p.Marking?
    ensures w.chats[s].writes == map[]
  {
    assert ChatOk(w, w.chats[s]);
    hide LocksOk, Exclusive, RowsOk, LogOk, ExecutionOk, InsertOk, PhaseOk;
  }

  lemma KnownHere(w: World, s: SessionId)
    requires Inv(w) && s in w.chats
    ensures ChatOk(w, w.chats[s]) && w.named !! w.used && w.rows.Keys <= w.used
  {
    hide ChatOk;
  }

  lemma ProposeKeeps(w: World, s: SessionId, action: Command)
    requires Inv(w)
    ensures Inv(DoPropose(w, s, action))
  {
    hide Inv, Decide;
    if s in w.chats && w.chats[s].phase.Interpreting? {
      NoWritesHere(w, s);
      KnownHere(w, s);
      var decision := Decide(w.config, action, w.chats[s].user);
      DecisionKeepsTheAction(w.config, action, w.chats[s].user);
      match decision.status
      case Authorized => PhaseStepKeeps(w, s, w.chats[s].(phase := Executing(decision, decision.action, None)),
          w.named);
      case ConfirmationRequired => PhaseStepKeeps(w, s, w.chats[s].(phase := Asking(decision)), w.named);
      case _ => DropKeeps(w, s);
    }
  }

  lemma FindLatestKeeps(w: World, s: SessionId)
    requires Inv(w)
    ensures Inv(DoFindLatest(w, s))
  {
    if s in w.chats && w.chats[s].phase.Interpreting? {
      hide Inv;
      NoWritesHere(w, s);
      KnownHere(w, s);
      match LatestPending(w.rows, w.chats[s].user)
      case Some(id) => PhaseStepKeeps(w, s, w.chats[s].(phase := Naming(id)), w.named);
      case None => DropKeeps(w, s);
    }
  }

  lemma NameKeeps(w: World, s: SessionId, id: ConfirmationId)
    requires Inv(w)
    ensures Inv(DoName(w, s, id))
  {
    if s in w.chats && w.chats[s].phase.Interpreting? && (id in w.rows || id !in w.used) {
      hide Inv;
      NoWritesHere(w, s);
      KnownHere(w, s);
      PhaseStepKeeps(w, s, w.chats[s].(phase := Naming(id)), if id in w.rows then w.named else w.named + {id});
    }
  }

  lemma DiagnoseKeeps(w: World, s: SessionId)
    requires Inv(w)
    ensures Inv(DoDiagnose(w, s))
  {
    if s in w.chats && w.chats[s].phase.Losing? {
      hide Inv;
      var chat := w.chats[s];
      var id := chat.phase.id;
      if id in w.rows && w.rows[id].user == chat.user && w.rows[id].status.Pending? {
        NoWritesHere(w, s);
        KnownHere(w, s);
        PhaseStepKeeps(w, s, chat.(phase := Expiring(id, chat.phase.now)), w.named);
      } else {
        DropKeeps(w, s);
      }
    }
  }

  // ----- Steps that write under a lock -----

  lemma WriteLocks(w: World, s: SessionId, chat: Chat, log: seq<Event>)
    requires LocksOk(w) && (s in w.chats ==> w.chats[s].writes == map[])
    requires chat.writes.Keys <= w.rows.Keys && chat.writes.Keys !! w.locks.Keys
    ensures LocksOk(w.(chats := w.chats[s := chat], locks := Lock(w.locks, chat.writes.Keys, s), log := log))
  {
  }

  ghost predicate ExpiryOnly(config: Config, log: seq<Event>, after: seq<Event>) {
    || after == log
    || exists ids, now :: after == log + [Expiry(ids, now)] && EventOk(config, log, Expiry(ids, now))
  }

  lemma ExpiryKeepsLog(config: Config, log: seq<Event>, after: seq<Event>)
    requires LogOk(config, log) && ExpiryOnly(config, log, after)
    ensures LogOk(config, after) && LogAdvances(log, after)
    ensures forall id: ConfirmationId :: WonIn(after, id) <==> WonIn(log, id)
    ensures forall id: ConfirmationId :: RequestedIn(after, id) <==> RequestedIn(log, id)
    ensures forall id: ConfirmationId :: ExecutedIn(after, id) <==> ExecutedIn(log, id)
  {
    if after != log {
      var ids, now :| after == log + [Expiry(ids, now)] && EventOk(config, log, Expiry(ids, now));
      LogGrows(log, Expiry(ids, now));
      LogAppend(config, log, Expiry(ids, now));
    }
  }

  /** A session writes rows that were free, and locks them. */
  lemma WriteStepKeeps(w: World, s: SessionId, chat: Chat, log: seq<Event>)
    requires Inv(w) && (s in w.chats ==> w.chats[s].writes == map[])
    requires chat.writes.Keys <= w.rows.Keys && chat.writes.Keys !! w.locks.Keys
    requires !chat.phase.Asked? && !chat.phase.Executing?
    requires ExpiryOnly(w.config, w.log, log)
    requires WritesOk(w.rows, chat) && PhaseOk(w.config, w.rows, w.used, w.named, chat)
    ensures Inv(w.(chats := w.chats[s := chat], locks := Lock(w.locks, chat.writes.Keys, s), log := log))
  {
    var v := w.(chats := w.chats[s := chat], locks := Lock(w.locks, chat.writes.Keys, s), log := log);
    assert ChatOk(v, chat);
    hide ChatOk, EventOk, LogOk, LocksOk, Exclusive, ChatsOk, Lock, WonIn, RequestedIn, ExecutedIn, ExpiryOnly,
         Advances, OnlyBy;
    ExpiryKeepsLog(w.config, w.log, log);
    ExpiryKeepsRows(w, v);
    hide RowsOk;
    WriteLocks(w, s, chat, log);
    ExclusiveStays(w.chats, s, chat);
    OthersSame(w.chats, s, chat);
    QuietAdvance(w, v, s);
    StepKeeps(w, v, s);
  }

  lemma ExpiryKeepsRows(w: World, v: World)
    requires RowsOk(w) && v.rows == w.rows && v.used == w.used && v.named == w.named && LogAdvances(w.log, v.log)
    requires forall id: ConfirmationId :: WonIn(v.log, id) <==> WonIn(w.log, id)
    requires forall id: ConfirmationId :: RequestedIn(v.log, id) <==> RequestedIn(w.log, id)
    requires forall id: ConfirmationId :: ExecutedIn(v.log, id) <==> ExecutedIn(w.log, id)
    ensures RowsOk(v)
  {
    hide WonIn, RequestedIn, ExecutedIn;
  }

  lemma RowsWereRequested(w: World, id: ConfirmationId, now: Time)
    requires RowsOk(w) && id in w.rows && w.rows[id].expiresAt <= now
    ensures RequestPassed(w.log, id, now)
  {
  }

  lemma ExpiryIsOk(w: World, ids: set<ConfirmationId>, now: Time)
    requires Inv(w) && forall id :: id in ids ==> id in w.rows && w.rows[id].expiresAt <= now
    ensures ExpiryOnly(w.config, w.log, w.log + [Expiry(ids, now)])
  {
    forall id | id in ids ensures RequestPassed(w.log, id, now) {
      RowsWereRequested(w, id, now);
    }
    hide Inv, RequestPassed;
    assert EventOk(w.config, w.log, Expiry(ids, now));
  }

  lemma MarkedIsOk(rows: Table, ids: set<ConfirmationId>, user: Option<UserId>)
    requires ids <= rows.Keys && forall id :: id in ids ==> rows[id].status.Pending?
    ensures WritesOk(rows, Chat(user, CleaningUp, AsExpired(rows, ids))) && AsExpired(rows, ids).Keys == ids
  {
  }

  lemma StaleIsMarkable(w: World, now: Time)
    ensures forall id :: id in Stale(w, now) ==>
        id in w.rows && w.rows[id].status.Pending? && w.rows[id].expiresAt <= now
    ensures Stale(w, now) <= w.rows.Keys
  {
  }

  lemma CleanupKeeps(w: World, s: SessionId, user: Option<UserId>, now: Time)
    requires Inv(w)
    ensures Inv(DoCleanup(w, s, user, now))
  {
    var stale := Stale(w, now);
    if s !in w.chats && stale !! w.locks.Keys {
      if stale == {} {
        hide Inv;
        NamedAreUnused(w);
        PhaseStepKeeps(w, s, Chat(user, Interpreting, map[]), w.named);
      } else {
        StaleIsMarkable(w, now);
        hide Inv, AsExpired, Lock, WritesOk, Stale, ExpiryOnly, EventOk;
        ExpiryIsOk(w, stale, now);
        MarkedIsOk(w.rows, stale, user);
        WriteStepKeeps(w, s, Chat(user, CleaningUp, AsExpired(w.rows, stale)), w.log + [Expiry(stale, now)]);
      }
    }
  }

  lemma NamedAreUnused(w: World)
    requires Inv(w)
    ensures w.named !! w.used
  {
  }

  lemma MarkConfirmedKeeps(w: World, s: SessionId, now: Time)
    requires Inv(w)
    ensures Inv(DoMarkConfirmed(w, s, now))
  {
    if s in w.chats && w.chats[s].phase.Naming? {
      hide Inv, Lock;
      NoWritesHere(w, s);
      KnownHere(w, s);
      var chat := w.chats[s];
      var id := chat.phase.id;
      if !Confirmable(w, id, chat.user, now) {
        PhaseStepKeeps(w, s, chat.(phase := Losing(id, now)), w.named);
      } else if id !in w.locks {
        var next := chat.(phase := Winning(id, now), writes := map[id := w.rows[id].(status := Confirmed)]);
        hide ChatOk;
        assert next.writes.Keys == {id};
        WriteStepKeeps(w, s, next, w.log);
      }
    }
  }

  lemma MarkExpiredKeeps(w: World, s: SessionId)
    requires Inv(w)
    ensures Inv(DoMarkExpired(w, s))
  {
    if s in w.chats && w.chats[s].phase.Expiring? && w.chats[s].phase.id !in w.locks && w.chats[s].phase.id in w.rows {
      hide Inv, Lock;
      NoWritesHere(w, s);
      KnownHere(w, s);
      var chat := w.chats[s];
      var id := chat.phase.id;
      var next := chat.(phase := Marking(id, chat.phase.now), writes := AsExpired(w.rows, {id}));
      assert w.rows[id].expiresAt <= chat.phase.now;
      hide ChatOk;
      assert next.writes.Keys == {id};
      ExpiryIsOk(w, {id}, chat.phase.now);
      WriteStepKeeps(w, s, next, w.log + [Expiry({id}, chat.phase.now)]);
    }
  }

  // ----- Insert, commit, execute -----

  lemma InsertedIsUsed(w: World, t: SessionId)
    requires ChatsOk(w) && t in w.chats && w.chats[t].phase.Asked?
    ensures w.chats[t].phase.id in w.used
  {
    assert ChatOk(w, w.chats[t]);
  }

  lemma ExclusiveInserts(w: World, s: SessionId, chat: Chat, id: ConfirmationId)
    requires Exclusive(w.chats) && ChatsOk(w) && id !in w.used && chat.phase == Asked(id)
    ensures Exclusive(w.chats[s := chat])
  {
    hide ChatsOk;
    forall t | t in w.chats ensures w.chats[t].phase != Asked(id) {
      if w.chats[t].phase.Asked? { InsertedIsUsed(w, t); }
    }
  }

  lemma InsertLocks(w: World, v: World, s: SessionId, chat: Chat, id: ConfirmationId)
    requires LocksOk(w) && v.rows == w.rows && v.locks == w.locks && v.chats == w.chats[s := chat]
    requires s in w.chats && w.chats[s].writes == map[] && chat.writes.Keys == {id} && id !in w.rows
    ensures LocksOk(v)
  {
  }

  lemma RequestIsOk(w: World, id: ConfirmationId, user: Option<UserId>, command: Command, expiresAt: Time)
    requires RowsOk(w) && LogOk(w.config, w.log) && id !in w.used
    requires Decide(w.config, command, user).status.ConfirmationRequired?
    ensures LogOk(w.config, w.log + [Requested(id, user, command, expiresAt)])
  {
    hide LogOk;
    assert !RequestedIn(w.log, id);
    LogAppend(w.config, w.log, Requested(id, user, command, expiresAt));
  }

  lemma RequestKeepsRows(w: World, v: World, id: ConfirmationId, user: Option<UserId>, command: Command,
      expiresAt: Time)
    requires RowsOk(w) && v.rows == w.rows && v.used == w.used + {id} && v.named == w.named && id !in w.named
    requires v.log == w.log + [Requested(id, user, command, expiresAt)]
    ensures RowsOk(v) && LogAdvances(w.log, v.log)
    ensures forall id: ConfirmationId :: ExecutedIn(v.log, id) <==> ExecutedIn(w.log, id)
  {
    LogGrows(w.log, Requested(id, user, command, expiresAt));
    hide WonIn, RequestedIn, ExecutedIn;
  }

  lemma InsertedChatIsOk(w: World, chat: Chat, id: ConfirmationId, row: Confirmation)
    requires chat.phase == Asked(id) && chat.writes == map[id := row] && row.status.Pending? && row.user == chat.user
    requires id !in w.rows && id in w.used && Requested(id, row.user, row.command, row.expiresAt) in w.log
    ensures ChatOk(w, chat)
  {
  }

  lemma CreateKeeps(w: World, s: SessionId, id: ConfirmationId, now: Time, ttl: nat)
    requires Inv(w)
    ensures Inv(DoCreate(w, s, id, now, ttl))
  {
    if s in w.chats && w.chats[s].phase.Asking? && id !in w.used && id !in w.named {
      var v := DoCreate(w, s, id, now, ttl);
      var chat := w.chats[s];
      var row := Confirmation(chat.user, chat.phase.decision.action, now, now + ttl, Pending);
      NoWritesHere(w, s);
      KnownHere(w, s);
      assert v.log == w.log + [Requested(id, row.user, row.command, row.expiresAt)];
      assert v.log[|w.log|] in v.log;
      assert v.chats == w.chats[s := v.chats[s]];
      assert PhaseOk(w.config, w.rows, w.used, w.named, chat);
      hide ChatsOk, Exclusive, LocksOk, RowsOk, LogOk, ChatOk, Advances, OnlyBy, ExecutedIn, LogAdvances, DoCreate;
      RequestIsOk(w, id, row.user, row.command, row.expiresAt);
      RequestKeepsRows(w, v, id, row.user, row.command, row.expiresAt);
      InsertedChatIsOk(v, v.chats[s], id, row);
      InsertLocks(w, v, s, v.chats[s], id);
      ExclusiveInserts(w, s, v.chats[s], id);
      OthersSame(w.chats, s, v.chats[s]);
      QuietAdvance(w, v, s);
      StepKeeps(w, v, s);
    }
  }

  /** What committing the writes of a session does to the rows. */
  lemma CommitAdvancesRows(rows: Table, used: set<ConfirmationId>, named: set<ConfirmationId>, config: Config,
      chat: Chat)
    requires WritesOk(rows, chat) && PhaseOk(config, rows, used, named, chat)
    ensures RowsAdvance(rows, rows + chat.writes, used)
    ensures forall id :: id in chat.writes && id !in rows ==> chat.phase == Asked(id)
  {
  }

  lemma UncommittedInsert(w: World, t: SessionId, id: ConfirmationId)
    requires ChatsOk(w) && t in w.chats && id in w.chats[t].writes && id !in w.rows
    ensures w.chats[t].phase == Asked(id)
  {
    assert ChatOk(w, w.chats[t]);
  }

  lemma SameElsewhere<K, V>(m: map<K, V>, n: map<K, V>, s: K)
    requires m - {s} == n - {s}
    ensures forall t :: t != s ==> (t in m <==> t in n) && (t in m ==> t in m - {s} && n[t] == m[t])
  {
    forall t | t != s
      ensures (t in m <==> t in n) && (t in m ==> t in m - {s} && n[t] == m[t])
    {
      assert t in m <==> t in m - {s};
      assert t in n <==> t in n - {s};
      assert t in m ==> (m - {s})[t] == m[t];
      assert t in n ==> (n - {s})[t] == n[t];
    }
  }

  /** What another session has written to a row that exists after the commit of `s` was of a row that existed before. */
  lemma OthersWriteOldRows(w: World, s: SessionId, t: SessionId, id: ConfirmationId)
    requires ChatsOk(w) && Exclusive(w.chats) && s in w.chats && t in w.chats && t != s
    requires id in w.chats[t].writes && id in w.rows + w.chats[s].writes
    ensures id in w.rows
  {
    hide ChatsOk;
    if id !in w.rows {
      UncommittedInsert(w, s, id);
      UncommittedInsert(w, t, id);
    }
  }

  lemma CommitLocksWrites(w: World, v: World, s: SessionId, t: SessionId, id: ConfirmationId)
    requires LocksOk(w) && ChatsOk(w) && Exclusive(w.chats) && s in w.chats
    requires v.rows == w.rows + w.chats[s].writes && v.locks == Unlock(w.locks, s)
    requires v.chats - {s} == w.chats - {s} && (s in v.chats ==> v.chats[s].writes == map[])
    requires t in v.chats && id in v.chats[t].writes && id in v.rows
    ensures id in v.locks && v.locks[id] == t
  {
    hide ChatsOk, Exclusive;
    SameElsewhere(w.chats, v.chats, s);
    OthersWriteOldRows(w, s, t, id);
  }

  lemma CommitKeepsOtherLocks(w: World, v: World, s: SessionId, id: ConfirmationId)
    requires LocksOk(w) && s in w.chats
    requires v.rows == w.rows + w.chats[s].writes && v.locks == Unlock(w.locks, s)
    requires v.chats - {s} == w.chats - {s}
    requires id in v.locks
    ensures id in v.rows && v.locks[id] in v.chats && id in v.chats[v.locks[id]].writes
  {
    SameElsewhere(w.chats, v.chats, s);
  }

  /** After the commit `s` has nothing written and nothing locked. */
  lemma CommitLocks(w: World, v: World, s: SessionId)
    requires LocksOk(w) && ChatsOk(w) && Exclusive(w.chats) && s in w.chats
    requires v.rows == w.rows + w.chats[s].writes && v.locks == Unlock(w.locks, s)
    requires v.chats - {s} == w.chats - {s} && (s in v.chats ==> v.chats[s].writes == map[])
    ensures LocksOk(v)
  {
    hide ChatsOk, Exclusive, Unlock;
    forall t, id | t in v.chats && id in v.chats[t].writes && id in v.rows
      ensures id in v.locks && v.locks[id] == t
    {
      CommitLocksWrites(w, v, s, t, id);
    }
    forall id | id in v.locks
      ensures id in v.rows && v.locks[id] in v.chats && id in v.chats[v.locks[id]].writes
    {
      CommitKeepsOtherLocks(w, v, s, id);
    }
  }

  /** Rows after a commit, when the log has not changed, still come from requests. */
  lemma CommitKeepsRows(w: World, s: SessionId)
    requires RowsOk(w) && s in w.chats && ChatOk(w, w.chats[s])
    ensures RowsOk(w.(rows := w.rows + w.chats[s].writes))
  {
    hide WonIn, RequestedIn, ExecutedIn, ExecutionOk;
  }

  lemma CommitAdvances(w: World, v: World, s: SessionId)
    requires Inv(w) && s in w.chats && v.config == w.config && v.used == w.used && v.named == w.named
    requires v.rows == w.rows + w.chats[s].writes && v.chats - {s} == w.chats - {s} && LogAdvances(w.log, v.log)
    requires forall id: ConfirmationId :: ExecutedIn(v.log, id) <==> ExecutedIn(w.log, id)
    ensures Advances(w, v) && OnlyBy(w, v, s)
  {
    KnownHere(w, s);
    hide Inv, LogAdvances, ExecutedIn, ExecutionOk, InsertOk;
    hide WritesOk, PhaseOk;
    CommitAdvancesRows(w.rows, w.used, w.named, w.config, w.chats[s]);
  }

  lemma CommitAndDropIs(w: World, s: SessionId)
    requires s in w.chats
    ensures Drop(Committed(w, s), s)
         == w.(rows := w.rows + w.chats[s].writes, locks := Unlock(w.locks, s), chats := w.chats - {s})
  {
    assert Unlock(Unlock(w.locks, s), s) == Unlock(w.locks, s);
  }

  /** The session ends with its commit, acknowledged or not. */
  lemma CommitAndDropKeeps(w: World, s: SessionId)
    requires Inv(w) && s in w.chats
    ensures Inv(Drop(Committed(w, s), s))
  {
    var v := Drop(Committed(w, s), s);
    CommitAndDropIs(w, s);
    KnownHere(w, s);
    hide ChatOk, ChatsOk, LocksOk, LogOk, Advances, OnlyBy, ExecutedIn, Unlock, Drop, Committed;
    assert v.chats - {s} == w.chats - {s};
    CommitAdvances(w, v, s);
    CommitLocks(w, v, s);
    ExclusiveDrops(w.chats, s);
    hide Exclusive;
    CommitKeepsRows(w, s);
    RowsOkOf(w.(rows := w.rows + w.chats[s].writes), v);
    hide RowsOk;
    StepKeeps(w, v, s);
  }

  lemma RowsOkOf(w: World, v: World)
    requires RowsOk(w) && v.rows == w.rows && v.used == w.used && v.named == w.named && v.log == w.log
    ensures RowsOk(v)
  {
  }

  lemma CommitCleanupKeeps(w: World, s: SessionId)
    requires Inv(w) && s in w.chats && w.chats[s].phase.CleaningUp?
    ensures Inv(Goto(Committed(w, s), s, Interpreting))
  {
    KnownHere(w, s);
    var chat := w.chats[s].(phase := Interpreting, writes := map[]);
    var v := Goto(Committed(w, s), s, Interpreting);
    assert v.chats == w.chats[s := chat] && v.locks == Unlock(w.locks, s);
    assert ChatOk(v, chat);
    OthersSame(w.chats, s, chat);
    ExclusiveStays(w.chats, s, chat);
    hide ChatOk, ChatsOk, LocksOk, LogOk, Advances, OnlyBy, ExecutedIn, Unlock, Exclusive;
    CommitAdvances(w, v, s);
    CommitLocksOf(w, v, s);
    CommitKeepsRows(w, s);
    RowsOkOf(w.(rows := w.rows + w.chats[s].writes), v);
    hide RowsOk;
    StepKeeps(w, v, s);
  }

  lemma CommitLocksOf(w: World, v: World, s: SessionId)
    requires Inv(w) && s in w.chats
    requires v.rows == w.rows + w.chats[s].writes && v.locks == Unlock(w.locks, s)
    requires v.chats - {s} == w.chats - {s} && (s in v.chats ==> v.chats[s].writes == map[])
    ensures LocksOk(v)
  {
    hide ChatsOk, LocksOk, LogOk, RowsOk, Exclusive;
    CommitLocks(w, v, s);
  }

  // Winning: the row was PENDING until now, so nobody won or executed it before.

  lemma NobodyWonBefore(w: World, s: SessionId, id: ConfirmationId)
    requires Inv(w) && s in w.chats && w.chats[s].phase.Winning? && w.chats[s].phase.id == id
    ensures !WonIn(w.log, id) && !ExecutedIn(w.log, id)
    ensures forall t :: t in w.chats ==> !Executes(w.chats[t], id)
  {
    KnownHere(w, s);
    hide WonIn, ExecutedIn, LogOk, LocksOk, Exclusive;
    forall t | t in w.chats ensures !Executes(w.chats[t], id) {
      assert ChatOk(w, w.chats[t]);
    }
  }

  lemma RowWasRequested(w: World, id: ConfirmationId)
    requires Inv(w) && id in w.rows
    ensures var row := w.rows[id]; Requested(id, row.user, row.command, row.expiresAt) in w.log
  {
    hide LogOk, LocksOk, Exclusive, ChatsOk;
  }

  lemma WinIsOk(w: World, s: SessionId)
    requires Inv(w) && s in w.chats && w.chats[s].phase.Winning?
    ensures var p := w.chats[s].phase; EventOk(w.config, w.log, Won(p.id, w.chats[s].user, p.now))
    ensures var p := w.chats[s].phase; p.id in w.rows && w.rows[p.id].user == w.chats[s].user &&
                                       w.chats[s].writes == map[p.id := w.rows[p.id].(status := Confirmed)]
    ensures var p := w.chats[s].phase; RequestedBy(w.log, p.id, w.chats[s].user, w.rows[p.id].command)
  {
    hide Inv, LogOk, LocksOk, Exclusive, ChatsOk, RowsOk, WonIn, ExecutedIn, RequestedIn;
    var p := w.chats[s].phase;
    KnownHere(w, s);
    NobodyWonBefore(w, s, p.id);
    RowWasRequested(w, p.id);
    assert w.chats[s].writes == map[p.id := w.chats[s].writes[p.id]];
  }

  lemma WinKeepsRows(w: World, v: World, id: ConfirmationId, user: Option<UserId>, now: Time)
    requires RowsOk(w) && id in w.rows && v.rows == w.rows[id := w.rows[id].(status := Confirmed)]
    requires v.used == w.used && v.named == w.named && v.log == w.log + [Won(id, user, now)]
    ensures RowsOk(v)
  {
    LogGrows(w.log, Won(id, user, now));
    hide WonIn, RequestedIn, ExecutedIn;
    assert forall e :: e in w.log ==> e in v.log;
  }

  lemma WinnerMayExecute(w: World, v: World, chat: Chat, id: ConfirmationId, now: Time, command: Command)
    requires chat.phase == Executing(DecisionFor(command), command, Some(id)) && chat.writes == map[]
    requires v.log == w.log + [Won(id, chat.user, now)] && RequestedBy(w.log, id, chat.user, command) &&
        !ExecutedIn(w.log, id)
    ensures ChatOk(v, chat)
  {
    LogGrows(w.log, Won(id, chat.user, now));
    var x :| Requested(id, chat.user, command, x) in w.log;
    assert Requested(id, chat.user, command, x) in v.log;
  }

  lemma ExclusiveWinner(chats: map<SessionId, Chat>, s: SessionId, chat: Chat, id: ConfirmationId)
    requires Exclusive(chats) && Executes(chat, id) && forall t :: t in chats ==> !Executes(chats[t], id)
    ensures Exclusive(chats[s := chat])
  {
  }

  lemma CommitWinIs(w: World, s: SessionId, id: ConfirmationId, now: Time, row: Confirmation)
    requires s in w.chats && w.chats[s].phase == Winning(id, now) && w.chats[s].writes == map[id := row]
    ensures DoCommit(w, s)
         == w.(rows := w.rows[id := row], locks := Unlock(w.locks, s), log := w.log + [Won(id, w.chats[s].user, now)],
               chats := w.chats[s := Chat(w.chats[s].user,
                                          Executing(DecisionFor(row.command), row.command, Some(id)), map[])])
    ensures DoCommit(w, s).rows == w.rows + w.chats[s].writes
  {
    assert w.rows + map[id := row] == w.rows[id := row];
  }

  lemma CommitWinKeeps(w: World, s: SessionId)
    requires Inv(w) && s in w.chats && w.chats[s].phase.Winning?
    ensures Inv(DoCommit(w, s))
  {
    var v := DoCommit(w, s);
    var p, user := w.chats[s].phase, w.chats[s].user;
    WinIsOk(w, s);
    NobodyWonBefore(w, s, p.id);
    var command := w.rows[p.id].command;
    var chat := Chat(user, Executing(DecisionFor(command), command, Some(p.id)), map[]);
    hide ChatOk, ChatsOk, LocksOk, LogOk, Advances, OnlyBy, ExecutedIn, WonIn, Unlock, Exclusive, RowsOk, EventOk,
         DoCommit, RequestedBy;
    CommitWinIs(w, s, p.id, p.now, w.rows[p.id].(status := Confirmed));
    WinKeepsRows(w, v, p.id, user, p.now);
    WinnerMayExecute(w, v, chat, p.id, p.now, command);
    ExclusiveWinner(w.chats, s, chat, p.id);
    LogGrows(w.log, Won(p.id, user, p.now));
    LogAppend(w.config, w.log, Won(p.id, user, p.now));
    OthersSame(w.chats, s, chat);
    CommitAdvances(w, v, s);
    CommitLocksOf(w, v, s);
    StepKeeps(w, v, s);
  }

  lemma CommitKeeps(w: World, s: SessionId)
    requires Inv(w)
    ensures Inv(DoCommit(w, s))
  {
    if AtCommit(w, s) {
      hide Inv, Committed, Goto, Drop;
      match w.chats[s].phase
      case CleaningUp => CommitCleanupKeeps(w, s);
      case Winning(_, _) => CommitWinKeeps(w, s);
      case _ => CommitAndDropKeeps(w, s);
    }
  }

  lemma ExecutionIsOk(w: World, s: SessionId)
    requires Inv(w) && s in w.chats && w.chats[s].phase.Executing?
    requires Dispatches(w.chats[s].phase.decision, w.chats[s].phase.command)
    ensures EventOk(w.config, w.log, Executed(w.chats[s].user, w.chats[s].phase.command, w.chats[s].phase.confirmation))
  {
    KnownHere(w, s);
    hide Inv, WritesOk, InsertOk, WonIn, ExecutedIn, RequestedBy;
    var p := w.chats[s].phase;
    if p.confirmation.None? {
      DeletesNeedConfirmation(w.config, p.command, w.chats[s].user);
    }
  }

  lemma ExecutionKeepsRows(w: World, v: World, e: Event)
    requires RowsOk(w) && v.rows == w.rows && v.used == w.used && v.named == w.named
    requires v.log == w.log + [e] && e.Executed? && (e.confirmation.Some? ==> WonIn(w.log, e.confirmation.value))
    ensures RowsOk(v)
  {
    LogGrows(w.log, e);
    hide WonIn, RequestedIn, ExecutedIn;
    assert forall x :: x in w.log ==> x in v.log;
  }

  lemma ExecuteKeeps(w: World, s: SessionId)
    requires Inv(w)
    ensures Inv(DoExecute(w, s))
  {
    if s in w.chats && w.chats[s].phase.Executing? {
      var chat := w.chats[s];
      var d := Drop(w, s);
      DropKeeps(w, s);
      if Dispatches(chat.phase.decision, chat.phase.command) {
        var e := Executed(chat.user, chat.phase.command, chat.phase.confirmation);
        var v := d.(log := w.log + [e]);
        ExecutionIsOk(w, s);
        hide ChatOk, ChatsOk, LogOk, Exclusive, RowsOk, Dispatches;
        assert d.log == w.log && d.rows == w.rows && d.used == w.used && d.named == w.named && d.config == w.config;
        assert d.chats == w.chats - {s};
        assert v.chats - {s} == w.chats - {s};
        LocksOkOf(d, v);
        hide LocksOk, Drop;
        ExecutionKeepsRows(d, v, e);
        LogAppend(w.config, w.log, e);
        ExecutionAdvances(w, v, s, e);
        hide Advances, OnlyBy;
        StepKeeps(w, v, s);
      }
    }
  }

  lemma LocksOkOf(w: World, v: World)
    requires LocksOk(w) && v.rows == w.rows && v.locks == w.locks && v.chats == w.chats
    ensures LocksOk(v)
  {
  }

  lemma ExecutionAdvances(w: World, v: World, s: SessionId, e: Event)
    requires s in w.chats && w.chats[s].phase.Executing? && e.Executed? &&
        e.confirmation == w.chats[s].phase.confirmation
    requires v.rows == w.rows && v.config == w.config && v.used == w.used && v.named == w.named
    requires v.chats - {s} == w.chats - {s} && v.log == w.log + [e]
    ensures Advances(w, v) && OnlyBy(w, v, s)
  {
    LogGrows(w.log, e);
    hide LogAdvances, ExecutedIn, WonIn, RequestedIn;
  }

  lemma NextKeeps(w: World, a: Action)
    requires Inv(w)
    ensures Inv(Next(w, a))
  {
    hide Inv;
    match a
    case Cleanup(s, user, now) => CleanupKeeps(w, s, user, now);
    case Propose(s, action) => ProposeKeeps(w, s, action);
    case Create(s, id, now, ttl) => CreateKeeps(w, s, id, now, ttl);
    case FindLatest(s) => FindLatestKeeps(w, s);
    case Name(s, id) => NameKeeps(w, s, id);
    case MarkConfirmed(s, now) => MarkConfirmedKeeps(w, s, now);
    case Diagnose(s) => DiagnoseKeeps(w, s);
    case MarkExpired(s) => MarkExpiredKeeps(w, s);
    case Commit(s) => CommitKeeps(w, s);
    case CommitUnacknowledged(s) => if AtCommit(w, s) { CommitAndDropKeeps(w, s); }
    case Execute(s) => ExecuteKeeps(w, s);
    case End(s) => if s in w.chats { DropKeeps(w, s); }
  }

  lemma {:induction false} RunsKeep(config: Config, actions: seq<Action>)
    ensures Inv(Run(Start(config), actions))
    decreases |actions|
  {
    if actions != [] {
      RunsKeep(config, actions[..|actions| - 1]);
      hide Inv, Next;
      NextKeeps(Run(Start(config), actions[..|actions| - 1]), actions[|actions| - 1]);
    }
  }
}
