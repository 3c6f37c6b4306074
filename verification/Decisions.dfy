/** Who may have what done: authorization, the safety policy, and the executor's gate. */
module Decisions {
  import opened Wrappers

  type UserId = nat

  datatype ActionType =
    | CreateTask | UpdateTask | DeleteTask
    | CreateReminder | UpdateReminder | DeleteReminder
    | AnalyzeWorkload | SuggestRescheduling

  /** A validated action and the command made of it carry the same three things. */
  datatype Command = Command(action: ActionType, resource: Option<nat>, parameters: map<string, string>)

  datatype DecisionStatus = Authorized | Denied | NotConfigured | ConfirmationRequired

  datatype Decision = Decision(status: DecisionStatus, action: Command)

  datatype Config = Config(singleUserMode: bool, defaultUser: Option<UserId>)

  datatype AuthorizationStatus = Allowed | Refused | Unknown

  /** The caller is the configured default user, or the application serves a single user. */
  function Authorize(config: Config, user: Option<UserId>): AuthorizationStatus {
    if config.singleUserMode then Allowed
    else if user.Some? && config.defaultUser.Some? && user.value == config.defaultUser.value then Allowed
    else Unknown
  }

  const SUPPORTED: set<ActionType> :=
    {CreateTask, UpdateTask, DeleteTask, CreateReminder, UpdateReminder, DeleteReminder, AnalyzeWorkload,
        SuggestRescheduling}

  const DESTRUCTIVE: set<ActionType> := {DeleteTask, DeleteReminder}

  function Evaluate(action: Command): Decision {
    if action.action !in SUPPORTED then Decision(Denied, action)
    else if action.action in DESTRUCTIVE then Decision(ConfirmationRequired, action)
    else Decision(Authorized, action)
  }

  function Decide(config: Config, action: Command, user: Option<UserId>): Decision {
    match Authorize(config, user)
    case Unknown => Decision(NotConfigured, action)
    case Refused => Decision(Denied, action)
    case Allowed => Evaluate(action)
  }

  lemma DecisionKeepsTheAction(config: Config, action: Command, user: Option<UserId>)
    ensures Decide(config, action, user).action == action
  {
  }

  /** The executor dispatches only an authorized decision, and only a command of the decided type. */
  predicate Dispatches(decision: Decision, command: Command) {
    decision.status.Authorized? && command.action == decision.action.action
  }

  /** The decision the handler rebuilds for a confirmed command. */
  function DecisionFor(command: Command): Decision {
    Decision(Authorized, command)
  }

  /** The four answers, exactly: a caller is allowed in single-user mode or as the configured user, and deleting a task
      or a reminder needs a confirmation.  So the pipeline on its own never dispatches a delete. */
  lemma DeletesNeedConfirmation(config: Config, action: Command, user: Option<UserId>)
    ensures var allowed := config.singleUserMode || (user.Some? && user == config.defaultUser);
            var delete := action.action.DeleteTask? || action.action.DeleteReminder?;
            var decision := Decide(config, action, user);
            && (decision.status.ConfirmationRequired? <==> allowed && delete)
            && (decision.status.Authorized? <==> allowed && !delete)
            && (decision.status.NotConfigured? <==> !allowed)
            && (forall command :: Dispatches(decision, command) <==>
                  allowed && !delete && command.action == action.action)
  {
  }
}
