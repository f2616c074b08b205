/** The undo log of a galaxy: recording a step (`backup`), undoing and
    redoing the newest step (`rollback`, `rollforward`) and playing a list of
    recorded actions back onto the tasks (`playBackupActions`). */
module History {
  import opened Common
  import opened TaskTree
  import opened Checking
  import opened TaskSpec
  import opened Backups
  import opened Tasks

  /** `MAX_BKP_LENGTH`: how many steps the history keeps. */
  const MAX_BKP_LENGTH := 9

  // ---------------------------------------------------------------------
  // The two stacks

  /** The history (`bkps`, oldest first) and the undone steps
      (`bkpsForward`, most recently undone last). */
  datatype Stacks = Stacks(back: seq<BackupStep>, forward: seq<BackupStep>)
  {
    function Size(): nat
    {
      |back| + |forward|
    }
  }

  /** `backup`'s stack update: the oldest step goes when the history is
      full, the new step goes on top and the undone steps are dropped. */
  function Pushed(h: Stacks, step: BackupStep): (r: Stacks)
    ensures r.forward == [] && |r.back| > 0 && r.back[|r.back| - 1] == step
    ensures |h.back| <= MAX_BKP_LENGTH ==> |r.back| <= MAX_BKP_LENGTH
    ensures |r.back| == if |h.back| >= MAX_BKP_LENGTH then |h.back| else |h.back| + 1
  {
    var kept := if |h.back| >= MAX_BKP_LENGTH then h.back[1..] else h.back;
    Stacks(kept + [step], [])
  }

  /** `rollback`'s stack update: the newest step moves to the forward
      stack; nothing happens on an empty history. */
  function Undone(h: Stacks): (r: Stacks)
    ensures r.Size() == h.Size()
    ensures h.back == [] ==> r == h
    ensures h.back != [] ==> |r.forward| > 0 && r.back + [r.forward[|r.forward| - 1]] == h.back
  {
    if h.back == [] then h
    else Stacks(h.back[..|h.back| - 1], h.forward + [h.back[|h.back| - 1]])
  }

  /** `rollforward`'s stack update: the most recently undone step moves
      back to the history; nothing happens when nothing was undone. */
  function Redone(h: Stacks): (r: Stacks)
    ensures r.Size() == h.Size()
    ensures h.forward == [] ==> r == h
    ensures h.forward != [] ==> |r.back| > 0 && r.forward + [r.back[|r.back| - 1]] == h.forward
  {
    if h.forward == [] then h
    else Stacks(h.back + [h.forward[|h.forward| - 1]], h.forward[..|h.forward| - 1])
  }

  /** Undoing a step and redoing it gives back both stacks. */
  lemma RedoUndo(h: Stacks)
    requires h.back != []
    ensures Redone(Undone(h)) == h
  {
    var u := Undone(h);
    assert u.forward[|u.forward| - 1] == h.back[|h.back| - 1];
    assert u.forward[..|u.forward| - 1] == h.forward;
    assert u.back + [h.back[|h.back| - 1]] == h.back;
  }

  /** Redoing a step and undoing it gives back both stacks. */
  lemma UndoRedo(h: Stacks)
    requires h.forward != []
    ensures Undone(Redone(h)) == h
  {
    var r := Redone(h);
    assert r.back[|r.back| - 1] == h.forward[|h.forward| - 1];
    assert r.back[..|r.back| - 1] == h.back;
    assert r.forward + [h.forward[|h.forward| - 1]] == h.forward;
  }

  /** No more than `MAX_BKP_LENGTH` steps are ever held, undone or not:
      `backup` keeps at most that many and empties the forward stack, and
      the other two only move steps between the stacks. */
  ghost predicate Bounded(h: Stacks)
  {
    h.Size() <= MAX_BKP_LENGTH
  }

  lemma BoundedKept(h: Stacks, step: BackupStep)
    requires Bounded(h)
    ensures Bounded(Pushed(h, step)) && Bounded(Undone(h)) && Bounded(Redone(h))
  {
  }

  ghost function StacksOf(g: Galaxy): Stacks
    reads g`bkps, g`bkpsForward
  {
    Stacks(g.bkps, g.bkpsForward)
  }

  // ---------------------------------------------------------------------
  // Playing actions back

  /** The plain task fields that played-back actions overwrite, in three
      groups: the text fields, the numeric fields and the rest. */
  datatype Texts = Texts(name: map<TaskId, string>, description: map<TaskId, string>,
                         content: map<TaskId, string>, emblem: map<TaskId, string>,
                         theme: map<TaskId, string>)
  datatype Numbers = Numbers(order: map<TaskId, int>, priority: map<TaskId, int>,
                             difficulty: map<TaskId, int>, pattern: map<TaskId, int>)
  datatype Looks = Looks(color: map<TaskId, TaskColor>, coords: map<TaskId, Coord>,
                         encrypted: set<TaskId>)
  datatype Plain = Plain(texts: Texts, numbers: Numbers, looks: Looks)

  /** Everything played-back actions change, as one value: the plain
      fields, the checked and closed flags, and the galaxy's modification
      date and unsaved mark. */
  datatype Fields = Fields(plain: Plain, checked: set<TaskId>, closed: set<TaskId>,
                           lastModificationDate: string, needToSave: bool)

  ghost function TextsOf(g: Galaxy): Texts
    reads g`name, g`description, g`content, g`emblem, g`theme
  {
    Texts(g.name, g.description, g.content, g.emblem, g.theme)
  }

  ghost function NumbersOf(g: Galaxy): Numbers
    reads g`order, g`priority, g`difficulty, g`pattern
  {
    Numbers(g.order, g.priority, g.difficulty, g.pattern)
  }

  ghost function LooksOf(g: Galaxy): Looks
    reads g`color, g`coords, g`encrypted
  {
    Looks(g.color, g.coords, g.encrypted)
  }

  ghost function PlainOf(g: Galaxy): Plain
    reads g`name, g`description, g`content, g`emblem, g`theme,
          g`order, g`priority, g`difficulty, g`pattern, g`color, g`coords, g`encrypted
  {
    Plain(TextsOf(g), NumbersOf(g), LooksOf(g))
  }

  ghost function FieldsOf(g: Galaxy): Fields
    reads g`name, g`description, g`content, g`emblem, g`theme,
          g`order, g`priority, g`difficulty, g`pattern, g`color, g`coords, g`encrypted,
          g`checked, g`closed, g`lastModificationDate, g`needToSave
  {
    Fields(PlainOf(g), g.checked, g.closed, g.lastModificationDate, g.needToSave)
  }

  predicate TextKind(k: ActionType)
  {
    k.NAME? || k.DESCRIPTION? || k.CONTENT? || k.EMBLEM? || k.THEME?
  }

  predicate NumberKind(k: ActionType)
  {
    k.ORDER? || k.PRIORITY? || k.DIFFICULTY? || k.PATTERN?
  }

  predicate LookKind(k: ActionType)
  {
    k.COLOR? || k.COORDINATES? || k.ENCRYPTED?
  }

  /** The kinds of action that overwrite one plain field of their task. */
  predicate Overwrites(k: ActionType)
  {
    TextKind(k) || NumberKind(k) || LookKind(k)
  }

  /** The kinds of action that change no modelled state when played: link
      changes and change notifications. */
  predicate Silent(k: ActionType)
  {
    k.LINKS? || k.GALAXY_CHANGE? || k.ITEM_CHANGE?
  }

  /** The actions this model plays back, each carrying a value of the shape
      its field holds. Label, add-child and remove-child actions are not
      played here. */
  predicate Playable(a: Action)
  {
    if TextKind(a.kind) || a.kind == DATE then a.value.Text?
    else if NumberKind(a.kind) then a.value.Num?
    else if a.kind == COLOR then a.value.Colour?
    else if a.kind == COORDINATES then a.value.Point?
    else if a.kind.CHECKED? || a.kind.CLOSED? || a.kind.ENCRYPTED? then a.value.Flag?
    else Silent(a.kind)
  }

  /** Every action is playable and names a task of the tree. */
  ghost predicate Plays(tr: Tree, actions: seq<Action>)
  {
    forall a :: a in actions ==> a.item in tr.kind && Playable(a)
  }

  function WriteText(t: Texts, k: ActionType, i: TaskId, s: string): Texts
  {
    match k
    case NAME => t.(name := t.name[i := s])
    case DESCRIPTION => t.(description := t.description[i := s])
    case CONTENT => t.(content := t.content[i := s])
    case EMBLEM => t.(emblem := t.emblem[i := s])
    case THEME => t.(theme := t.theme[i := s])
    case _ => t
  }

  function WriteNumber(n: Numbers, k: ActionType, i: TaskId, x: int): Numbers
  {
    match k
    case ORDER => n.(order := n.order[i := x])
    case PRIORITY => n.(priority := n.priority[i := x])
    case DIFFICULTY => n.(difficulty := n.difficulty[i := x])
    case PATTERN => n.(pattern := n.pattern[i := x])
    case _ => n
  }

  function WriteLook(l: Looks, a: Action): Looks
    requires LookKind(a.kind) && Playable(a)
  {
    var i := a.item;
    match a.kind
    case COLOR => l.(color := l.color[i := a.value.c])
    case COORDINATES => l.(coords := l.coords[i := a.value.p])
    case ENCRYPTED => l.(encrypted := if a.value.b then l.encrypted + {i} else l.encrypted - {i})
    case _ => l
  }

  /** The plain fields after an overwriting action. */
  function Write(p: Plain, a: Action): Plain
    requires Overwrites(a.kind) && Playable(a)
  {
    if TextKind(a.kind) then p.(texts := WriteText(p.texts, a.kind, a.item, a.value.s))
    else if NumberKind(a.kind) then p.(numbers := WriteNumber(p.numbers, a.kind, a.item, a.value.n))
    else p.(looks := WriteLook(p.looks, a))
  }

  /** What field `k` of task `i` holds, as an action value (None when the
      task has no such field set). */
  function Get(p: Plain, k: ActionType, i: TaskId): Option<Value>
    requires Overwrites(k)
  {
    if TextKind(k) then GetText(p.texts, k, i)
    else if NumberKind(k) then GetNumber(p.numbers, k, i)
    else GetLook(p.looks, k, i)
  }

  function GetText(t: Texts, k: ActionType, i: TaskId): Option<Value>
  {
    var m := match k
      case NAME => t.name
      case DESCRIPTION => t.description
      case CONTENT => t.content
      case EMBLEM => t.emblem
      case _ => t.theme;
    if i in m then Some(Text(m[i])) else None
  }

  function GetNumber(n: Numbers, k: ActionType, i: TaskId): Option<Value>
  {
    var m := match k
      case ORDER => n.order
      case PRIORITY => n.priority
      case DIFFICULTY => n.difficulty
      case _ => n.pattern;
    if i in m then Some(Num(m[i])) else None
  }

  function GetLook(l: Looks, k: ActionType, i: TaskId): Option<Value>
  {
    match k
    case COLOR => if i in l.color then Some(Colour(l.color[i])) else None
    case COORDINATES => if i in l.coords then Some(Point(l.coords[i])) else None
    case _ => Some(Flag(i in l.encrypted))
  }

  /** An overwriting action sets its own field of its own task to the
      value it carries, and every other field of every task keeps its
      value. */
  lemma WriteOwnField(p: Plain, a: Action, k: ActionType, i: TaskId)
    requires Overwrites(a.kind) && Playable(a) && Overwrites(k)
    ensures Get(Write(p, a), k, i) == if k == a.kind && i == a.item then Some(a.value) else Get(p, k, i)
  {
    if TextKind(a.kind) && TextKind(k) {
      TextOwnField(p.texts, a.kind, a.item, a.value.s, k, i);
    } else if NumberKind(a.kind) && NumberKind(k) {
      NumberOwnField(p.numbers, a.kind, a.item, a.value.n, k, i);
    } else if LookKind(a.kind) && LookKind(k) {
      LookOwnField(p.looks, a, k, i);
    }
  }

  lemma TextOwnField(t: Texts, ka: ActionType, ia: TaskId, s: string, k: ActionType, i: TaskId)
    requires TextKind(ka) && TextKind(k)
    ensures GetText(WriteText(t, ka, ia, s), k, i) == if k == ka && i == ia then Some(Text(s)) else GetText(t, k, i)
  {
  }

  lemma NumberOwnField(n: Numbers, ka: ActionType, ia: TaskId, x: int, k: ActionType, i: TaskId)
    requires NumberKind(ka) && NumberKind(k)
    ensures GetNumber(WriteNumber(n, ka, ia, x), k, i) == if k == ka && i == ia then Some(Num(x)) else GetNumber(n, k, i)
  {
  }

  lemma LookOwnField(l: Looks, a: Action, k: ActionType, i: TaskId)
    requires LookKind(a.kind) && Playable(a) && LookKind(k)
    ensures GetLook(WriteLook(l, a), k, i) == if k == a.kind && i == a.item then Some(a.value) else GetLook(l, k, i)
  {
  }

  /** A later write to the same field of the same task wins. */
  lemma LastWriteWins(p: Plain, a: Action, b: Action)
    requires Overwrites(a.kind) && Playable(a) && Playable(b)
    requires b.kind == a.kind && b.item == a.item
    ensures Write(Write(p, a), b) == Write(p, b)
  {
    if TextKind(a.kind) {
      TextLastWins(p.texts, a.kind, a.item, a.value.s, b.value.s);
    } else if NumberKind(a.kind) {
      NumberLastWins(p.numbers, a.kind, a.item, a.value.n, b.value.n);
    } else {
      LookLastWins(p.looks, a, b);
    }
  }

  lemma TextLastWins(t: Texts, k: ActionType, i: TaskId, s1: string, s2: string)
    requires TextKind(k)
    ensures WriteText(WriteText(t, k, i, s1), k, i, s2) == WriteText(t, k, i, s2)
  {
    match k
    case NAME => assert t.name[i := s1][i := s2] == t.name[i := s2];
    case DESCRIPTION => assert t.description[i := s1][i := s2] == t.description[i := s2];
    case CONTENT => assert t.content[i := s1][i := s2] == t.content[i := s2];
    case EMBLEM => assert t.emblem[i := s1][i := s2] == t.emblem[i := s2];
    case THEME => assert t.theme[i := s1][i := s2] == t.theme[i := s2];
  }

  lemma NumberLastWins(n: Numbers, k: ActionType, i: TaskId, x1: int, x2: int)
    requires NumberKind(k)
    ensures WriteNumber(WriteNumber(n, k, i, x1), k, i, x2) == WriteNumber(n, k, i, x2)
  {
  }

  lemma LookLastWins(l: Looks, a: Action, b: Action)
    requires LookKind(a.kind) && Playable(a) && Playable(b)
    requires b.kind == a.kind && b.item == a.item
    ensures WriteLook(WriteLook(l, a), b) == WriteLook(l, b)
  {
  }

  /** The fields after one action; `date` is the galaxy's saved date. A
      date action writes the galaxy's modification date (the model holds
      one galaxy) and marks it unsaved exactly when that date differs from
      the saved one. Link and change-notification actions change nothing. */
  ghost function Step(tr: Tree, date: string, f: Fields, a: Action): Fields
    requires tr.Wf() && a.item in tr.kind && Playable(a)
  {
    if Overwrites(a.kind) then f.(plain := Write(f.plain, a))
    else if a.kind == CHECKED then f.(checked := After(tr, a.item, a.value.b, false, f.checked))
    else if a.kind == CLOSED then f.(closed := if a.value.b then f.closed + Sub(tr, a.item) else f.closed - {a.item})
    else if a.kind == DATE then f.(lastModificationDate := a.value.s, needToSave := a.value.s != date)
    else f
  }

  /** The fields after the actions, played in list order. */
  ghost function Replay(tr: Tree, date: string, f: Fields, actions: seq<Action>): Fields
    requires tr.Wf() && Plays(tr, actions)
  {
    if actions == [] then f
    else
      var n := |actions| - 1;
      assert actions[n] in actions;
      Step(tr, date, Replay(tr, date, f, actions[..n]), actions[n])
  }

  /** An overwriting action changes the plain fields alone. */
  lemma StepWrites(tr: Tree, date: string, f: Fields, a: Action)
    requires tr.Wf() && a.item in tr.kind && Overwrites(a.kind) && Playable(a)
    ensures Step(tr, date, f, a) == f.(plain := Write(f.plain, a))
  {
  }

  /** A checked action moves the checked flags as `setChecked(value, false)` does. */
  lemma StepChecks(tr: Tree, date: string, f: Fields, a: Action)
    requires tr.Wf() && a.item in tr.kind && a.kind == CHECKED && Playable(a)
    ensures Step(tr, date, f, a) == f.(checked := After(tr, a.item, a.value.b, false, f.checked))
  {
  }

  /** A closed action closes the task's subtree, or reopens the task alone. */
  lemma StepCloses(tr: Tree, date: string, f: Fields, a: Action)
    requires tr.Wf() && a.item in tr.kind && a.kind == CLOSED && Playable(a)
    ensures Step(tr, date, f, a) == f.(closed := if a.value.b then f.closed + Sub(tr, a.item) else f.closed - {a.item})
  {
  }

  /** A link or change-notification action changes nothing. */
  lemma StepSilent(tr: Tree, date: string, f: Fields, a: Action)
    requires tr.Wf() && a.item in tr.kind && Silent(a.kind) && Playable(a)
    ensures Step(tr, date, f, a) == f
  {
  }

  /** A date action changes the modification date and the unsaved mark alone. */
  lemma StepDates(tr: Tree, date: string, f: Fields, a: Action)
    requires tr.Wf() && a.item in tr.kind && a.kind == DATE && Playable(a)
    ensures Step(tr, date, f, a) == f.(lastModificationDate := a.value.s, needToSave := a.value.s != date)
  {
  }

  /** Replaying one more action of a list is one more step. */
  lemma ReplayNext(tr: Tree, date: string, f: Fields, actions: seq<Action>, i: nat)
    requires tr.Wf() && Plays(tr, actions) && i < |actions|
    ensures actions[i].item in tr.kind && Playable(actions[i])
    ensures Replay(tr, date, f, actions[..i + 1]) == Step(tr, date, Replay(tr, date, f, actions[..i]), actions[i])
  {
    assert actions[i] in actions;
    assert actions[..i + 1][..i] == actions[..i];
  }

  /** Playing two lists one after the other is playing them joined. */
  lemma {:induction false} ReplayConcat(tr: Tree, date: string, f: Fields, xs: seq<Action>, ys: seq<Action>)
    requires tr.Wf() && Plays(tr, xs) && Plays(tr, ys)
    ensures Plays(tr, xs + ys)
    ensures Replay(tr, date, f, xs + ys) == Replay(tr, date, Replay(tr, date, f, xs), ys)
  {
    if ys == [] {
      assert xs + ys == xs;
    } else {
      var n := |ys| - 1;
      assert (xs + ys)[..|xs + ys| - 1] == xs + ys[..n];
      assert ys[n] in ys;
      ReplayConcat(tr, date, f, xs, ys[..n]);
    }
  }

  /** Playing any action a second time changes nothing: a written value is
      written again, a checked or closed flag is already set. */
  lemma StepTwice(tr: Tree, date: string, f: Fields, a: Action)
    requires tr.Wf() && a.item in tr.kind && Playable(a)
    ensures Step(tr, date, Step(tr, date, f, a), a) == Step(tr, date, f, a)
  {
    if Overwrites(a.kind) {
      LastWriteWins(f.plain, a, a);
    } else if a.kind == CHECKED {
      AfterSettles(tr, a.item, a.value.b, false, f.checked);
    } else if a.kind == CLOSED && a.value.b {
      assert a.item in Sub(tr, a.item);
    }
  }

  /** Link and change-notification actions leave every field as it was. */
  lemma {:induction false} SilentActions(tr: Tree, date: string, f: Fields, actions: seq<Action>)
    requires tr.Wf() && Plays(tr, actions)
    requires forall a :: a in actions ==> Silent(a.kind)
    ensures Replay(tr, date, f, actions) == f
  {
    if actions != [] {
      var n := |actions| - 1;
      assert actions[n] in actions;
      assert forall a :: a in actions[..n] ==> a in actions;
      SilentActions(tr, date, f, actions[..n]);
      StepSilent(tr, date, f, actions[n]);
    }
  }

  /** A list that ends with a date action leaves that date as the
      modification date, and the galaxy unsaved exactly when it differs
      from the saved date: what undoing or redoing a step recorded by
      `backup` ends with. */
  lemma {:induction false} EndsWithDate(tr: Tree, date: string, f: Fields, actions: seq<Action>, d: string)
    requires tr.Wf() && Plays(tr, actions) && actions != []
    requires actions[|actions| - 1].kind == DATE && actions[|actions| - 1].value == Text(d)
    ensures Replay(tr, date, f, actions).lastModificationDate == d
    ensures Replay(tr, date, f, actions).needToSave <==> d != date
  {
    assert actions[|actions| - 1] in actions;
  }

  /** An overwriting action: the one field assignment. */
  method PlayWrite(g: Galaxy, a: Action)
    requires g.Valid() && a.item in g.kind && Overwrites(a.kind) && Playable(a)
    modifies g`name, g`description, g`content, g`emblem, g`theme,
             g`order, g`priority, g`difficulty, g`pattern, g`color, g`coords, g`encrypted
    ensures g.Valid() && g.View() == old(g.View())
    ensures FieldsOf(g) == Step(g.View(), g.date, old(FieldsOf(g)), a)
    ensures g.CounterSlack() == old(g.CounterSlack())
  {
    ghost var tr := g.View();
    StepWrites(tr, g.date, FieldsOf(g), a);
    PlayPlain(g, a);
    assert forall x :: x in g.kind && g.kind[x] == PLANET ==> x in g.difficulty;
  }

  /** The field assignment of an overwriting action; nothing else changes. */
  method PlayPlain(g: Galaxy, a: Action)
    requires Overwrites(a.kind) && Playable(a)
    modifies g`name, g`description, g`content, g`emblem, g`theme,
             g`order, g`priority, g`difficulty, g`pattern, g`color, g`coords, g`encrypted
    ensures FieldsOf(g) == old(FieldsOf(g)).(plain := Write(old(FieldsOf(g)).plain, a))
    ensures old(g.difficulty).Keys <= g.difficulty.Keys
    ensures g.View() == old(g.View()) && g.CounterSlack() == old(g.CounterSlack())
  {
    PlayGroup(g, a);
  }

  /** The field assignment of an overwriting action, by field group. */
  method PlayGroup(g: Galaxy, a: Action)
    requires Overwrites(a.kind) && Playable(a)
    modifies g`name, g`description, g`content, g`emblem, g`theme,
             g`order, g`priority, g`difficulty, g`pattern, g`color, g`coords, g`encrypted
    ensures PlainOf(g) == Write(old(PlainOf(g)), a)
    ensures old(g.difficulty).Keys <= g.difficulty.Keys
  {
    if TextKind(a.kind) {
      PlayText(g, a);
    } else if NumberKind(a.kind) {
      PlayNumber(g, a);
    } else {
      PlayLook(g, a);
    }
  }

  method PlayText(g: Galaxy, a: Action)
    requires TextKind(a.kind) && Playable(a)
    modifies g`name, g`description, g`content, g`emblem, g`theme
    ensures PlainOf(g) == Write(old(PlainOf(g)), a)
  {
    var i, s := a.item, a.value.s;
    match a.kind
    case NAME => g.name := g.name[i := s];
    case DESCRIPTION => g.description := g.description[i := s];
    case CONTENT => g.content := g.content[i := s];
    case EMBLEM => g.emblem := g.emblem[i := s];
    case THEME => g.theme := g.theme[i := s];
  }

  method PlayNumber(g: Galaxy, a: Action)
    requires NumberKind(a.kind) && Playable(a)
    modifies g`order, g`priority, g`difficulty, g`pattern
    ensures PlainOf(g) == Write(old(PlainOf(g)), a)
    ensures old(g.difficulty).Keys <= g.difficulty.Keys
  {
    var i, x := a.item, a.value.n;
    match a.kind
    case ORDER => g.order := g.order[i := x];
    case PRIORITY => g.priority := g.priority[i := x];
    case DIFFICULTY => g.difficulty := g.difficulty[i := x];
    case PATTERN => g.pattern := g.pattern[i := x];
  }

  method PlayLook(g: Galaxy, a: Action)
    requires LookKind(a.kind) && Playable(a)
    modifies g`color, g`coords, g`encrypted
    ensures PlainOf(g) == Write(old(PlainOf(g)), a)
  {
    var i := a.item;
    match a.kind
    case COLOR => g.color := g.color[i := a.value.c];
    case COORDINATES => g.coords := g.coords[i := a.value.p];
    case ENCRYPTED => g.encrypted := if a.value.b then g.encrypted + {i} else g.encrypted - {i};
  }

  /** A checked action: `setChecked(value, false)`. */
  method PlayChecked(g: Galaxy, a: Action)
    requires g.Valid() && a.item in g.kind && a.kind == CHECKED && Playable(a)
    modifies g`checked, g`stats
    ensures g.Valid() && g.View() == old(g.View())
    ensures FieldsOf(g) == Step(g.View(), g.date, old(FieldsOf(g)), a)
    ensures g.CounterSlack() == old(g.CounterSlack())
  {
    ghost var tr, f0 := g.View(), FieldsOf(g);
    StepChecks(tr, g.date, f0, a);
    g.SetChecked(a.item, a.value.b, false);
    assert g.View() == tr;
    assert FieldsOf(g) == f0.(checked := g.checked);
  }

  /** A closed action: `setClosed(value)`. */
  method PlayClosed(g: Galaxy, a: Action)
    requires g.Valid() && a.item in g.kind && a.kind == CLOSED && Playable(a)
    modifies g`closed
    ensures g.Valid() && g.View() == old(g.View())
    ensures FieldsOf(g) == Step(g.View(), g.date, old(FieldsOf(g)), a)
    ensures g.CounterSlack() == old(g.CounterSlack())
  {
    ghost var tr, f0 := g.View(), FieldsOf(g);
    StepCloses(tr, g.date, f0, a);
    g.SetClosed(a.item, a.value.b);
    assert g.View() == tr;
    assert FieldsOf(g) == f0.(closed := g.closed);
  }

  /** A date action. */
  method PlayDate(g: Galaxy, a: Action)
    requires g.Valid() && a.item in g.kind && a.kind == DATE && Playable(a)
    modifies g`lastModificationDate, g`needToSave
    ensures g.Valid() && g.View() == old(g.View())
    ensures FieldsOf(g) == Step(g.View(), g.date, old(FieldsOf(g)), a)
    ensures g.CounterSlack() == old(g.CounterSlack())
  {
    StepDates(g.View(), g.date, FieldsOf(g), a);
    SetModified(g, a.value.s);
    assert forall x :: x in g.kind && g.kind[x] == PLANET ==> x in g.difficulty;
  }

  /** The modification date becomes `s`, and the galaxy is unsaved exactly
      when `s` differs from its saved date. */
  method SetModified(g: Galaxy, s: string)
    modifies g`lastModificationDate, g`needToSave
    ensures FieldsOf(g) == old(FieldsOf(g)).(lastModificationDate := s, needToSave := s != g.date)
    ensures g.View() == old(g.View()) && g.difficulty == old(g.difficulty)
    ensures g.CounterSlack() == old(g.CounterSlack())
  {
    g.lastModificationDate := s;
    if g.lastModificationDate != g.date {
      g.needToSave := true;
    } else {
      g.needToSave := false;
    }
  }

  /** The body of `playBackupActions`' loop: one action. */
  method PlayAction(g: Galaxy, a: Action)
    requires g.Valid() && a.item in g.kind && Playable(a)
    modifies g`name, g`description, g`content, g`emblem, g`theme,
             g`order, g`priority, g`difficulty, g`pattern, g`color, g`coords, g`encrypted,
             g`checked, g`stats, g`closed, g`lastModificationDate, g`needToSave
    ensures g.Valid() && g.View() == old(g.View())
    ensures FieldsOf(g) == Step(g.View(), g.date, old(FieldsOf(g)), a)
    ensures g.CounterSlack() == old(g.CounterSlack())
  {
    if Overwrites(a.kind) {
      PlayWrite(g, a);
    } else if a.kind == CHECKED {
      PlayChecked(g, a);
    } else if a.kind == CLOSED {
      PlayClosed(g, a);
    } else if a.kind == DATE {
      PlayDate(g, a);
    }
  }

  /** `playBackupActions(actions)`: every action, in list order. The tree
      keeps its shape, and the completion counters move with the checked
      flags as `setChecked` moves them. */
  method PlayBackupActions(g: Galaxy, actions: seq<Action>)
    requires g.Valid() && Plays(g.View(), actions)
    modifies g`name, g`description, g`content, g`emblem, g`theme,
             g`order, g`priority, g`difficulty, g`pattern, g`color, g`coords, g`encrypted,
             g`checked, g`stats, g`closed, g`lastModificationDate, g`needToSave
    ensures g.Valid() && g.View() == old(g.View())
    ensures FieldsOf(g) == Replay(g.View(), g.date, old(FieldsOf(g)), actions)
    ensures g.CounterSlack() == old(g.CounterSlack())
  {
    ghost var tr, f0, slack := g.View(), FieldsOf(g), g.CounterSlack();
    for i := 0 to |actions|
      invariant g.Valid() && g.View() == tr
      invariant FieldsOf(g) == Replay(tr, g.date, f0, actions[..i])
      invariant g.CounterSlack() == slack
    {
      ReplayNext(tr, g.date, f0, actions, i);
      PlayAction(g, actions[i]);
    }
    assert actions[..|actions|] == actions;
  }

  // ---------------------------------------------------------------------
  // Recording, undoing and redoing

  /** `backup(galaxy, step)` at clock time `now`: the step learns to restore
      the old modification date and to reapply the new one, the galaxy is
      marked unsaved, and the step goes on top of the history. */
  method Backup(g: Galaxy, step: BackupStep, now: string)
    modifies g`needToSave, g`lastModificationDate, g`bkps, g`bkpsForward, step
    ensures g.needToSave && g.lastModificationDate == now
    ensures step.rollback == old(step.rollback) + [Action(g.root, Text(old(g.lastModificationDate)), DATE)]
    ensures step.rollforward == old(step.rollforward) + [Action(g.root, Text(now), DATE)]
    ensures StacksOf(g) == Pushed(old(StacksOf(g)), step)
  {
    g.needToSave := true;
    step.AddRollback(Action(g.root, Text(g.lastModificationDate), DATE));
    g.lastModificationDate := now;
    step.AddRollforward(Action(g.root, Text(g.lastModificationDate), DATE));
    if |g.bkps| >= MAX_BKP_LENGTH {
      g.bkps := g.bkps[1..];
    }
    g.bkpsForward := [];
    g.bkps := g.bkps + [step];
  }

  /** `rollback(galaxy)`: the newest step moves to the forward stack and its
      rollback actions are played. */
  method Rollback(g: Galaxy)
    requires g.Valid() && (g.bkps != [] ==> Plays(g.View(), g.bkps[|g.bkps| - 1].rollback))
    modifies g`bkps, g`bkpsForward
    modifies g`name, g`description, g`content, g`emblem, g`theme,
             g`order, g`priority, g`difficulty, g`pattern, g`color, g`coords, g`encrypted,
             g`checked, g`stats, g`closed, g`lastModificationDate, g`needToSave
    ensures g.Valid() && g.View() == old(g.View())
    ensures StacksOf(g) == Undone(old(StacksOf(g)))
    ensures old(g.bkps) == [] ==> FieldsOf(g) == old(FieldsOf(g))
    ensures old(g.bkps) != [] ==>
      FieldsOf(g) == Replay(g.View(), g.date, old(FieldsOf(g)), old(g.bkps[|g.bkps| - 1].rollback))
    ensures g.CounterSlack() == old(g.CounterSlack())
  {
    if |g.bkps| == 0 {
      return;
    }
    var step := g.bkps[|g.bkps| - 1];
    g.bkps := g.bkps[..|g.bkps| - 1];
    g.bkpsForward := g.bkpsForward + [step];
    PlayBackupActions(g, step.rollback);
  }

  /** `rollforward(galaxy)`: the most recently undone step moves back to the
      history and its rollforward actions are played. */
  method Rollforward(g: Galaxy)
    requires g.Valid() && (g.bkpsForward != [] ==> Plays(g.View(), g.bkpsForward[|g.bkpsForward| - 1].rollforward))
    modifies g`bkps, g`bkpsForward
    modifies g`name, g`description, g`content, g`emblem, g`theme,
             g`order, g`priority, g`difficulty, g`pattern, g`color, g`coords, g`encrypted,
             g`checked, g`stats, g`closed, g`lastModificationDate, g`needToSave
    ensures g.Valid() && g.View() == old(g.View())
    ensures StacksOf(g) == Redone(old(StacksOf(g)))
    ensures old(g.bkpsForward) == [] ==> FieldsOf(g) == old(FieldsOf(g))
    ensures old(g.bkpsForward) != [] ==>
      FieldsOf(g) == Replay(g.View(), g.date, old(FieldsOf(g)), old(g.bkpsForward[|g.bkpsForward| - 1].rollforward))
    ensures g.CounterSlack() == old(g.CounterSlack())
  {
    if |g.bkpsForward| == 0 {
      return;
    }
    var step := g.bkpsForward[|g.bkpsForward| - 1];
    g.bkpsForward := g.bkpsForward[..|g.bkpsForward| - 1];
    g.bkps := g.bkps + [step];
    PlayBackupActions(g, step.rollforward);
  }
}
