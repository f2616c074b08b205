/** The undo log's building blocks: the actions it records and the step
    that holds one undoable change as a list of rollback actions and a list
    of rollforward actions. */
module Backups {
  import opened Common

  /** What an action does when it is played back. */
  datatype ActionType =
    | NAME | DESCRIPTION | CHECKED | ORDER | PRIORITY | DIFFICULTY | CONTENT
    | COLOR | PATTERN | EMBLEM | LABELS | COORDINATES | LINKS | THEME
    | CLOSED | ENCRYPTED
    | ADD_CHILD | REMOVE_CHILD
    | GALAXY_CHANGE | ITEM_CHANGE
    | DATE

  /** The value an action carries. The source types it `any`; these are the
      shapes the recorded actions use. */
  datatype Value =
    | Text(s: string)
    | Flag(b: bool)
    | Num(n: int)
    | Colour(c: TaskColor)
    | Point(p: Coord)
    | Labels(ls: seq<string>)
    | Item(id: TaskId)
    | Change(code: int)

  /** One recorded action: play `value` of kind `kind` onto task `item`. */
  datatype Action = Action(item: TaskId, value: Value, kind: ActionType)

  /** One undoable change. The lists are the step's own (`addRollback` and
      `addRollforward` append in place). */
  class BackupStep {
    var rollback: seq<Action>
    var rollforward: seq<Action>

    /** `new BackupStep(rollback, rollforward)`; both default to empty. */
    constructor (rollback: seq<Action>, rollforward: seq<Action>)
      ensures this.rollback == rollback && this.rollforward == rollforward
    {
      this.rollback := rollback;
      this.rollforward := rollforward;
    }

    method AddRollback(a: Action)
      modifies this`rollback
      ensures rollback == old(rollback) + [a]
    {
      rollback := rollback + [a];
    }

    method AddRollforward(a: Action)
      modifies this`rollforward
      ensures rollforward == old(rollforward) + [a]
    {
      rollforward := rollforward + [a];
    }

    /** `addAllRollback`: every action, in order, each through `addRollback`. */
    method AddAllRollback(actions: seq<Action>)
      modifies this`rollback
      ensures rollback == old(rollback) + actions
    {
      for i := 0 to |actions|
        invariant rollback == old(rollback) + actions[..i]
      {
        AddRollback(actions[i]);
        assert actions[..i + 1] == actions[..i] + [actions[i]];
      }
      assert actions[..|actions|] == actions;
    }

    /** `addAllRollforward`: every action, in order, each through
        `addRollforward`. */
    method AddAllRollforward(actions: seq<Action>)
      modifies this`rollforward
      ensures rollforward == old(rollforward) + actions
    {
      for i := 0 to |actions|
        invariant rollforward == old(rollforward) + actions[..i]
      {
        AddRollforward(actions[i]);
        assert actions[..i + 1] == actions[..i] + [actions[i]];
      }
      assert actions[..|actions|] == actions;
    }
  }
}
