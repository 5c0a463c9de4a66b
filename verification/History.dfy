/** The undo history: a list of changes with a cursor, and the two stacks it stands for. */
module History {
  import opened Containers

  const MAX_UNDOS: nat := 100
  const GUTTER: string := "nothing"

  datatype UndoableChange<C> = UndoableChange(undo: C, redo: C, desc: string)

  datatype UndoState = UndoState(undo: Option<string>, redo: Option<string>)

  /** `idx` is absent when the cursor is on the last change. */
  datatype Log<C> = Log(changes: seq<UndoableChange<C>>, idx: Option<nat>)

  predicate Valid<C>(l: Log<C>) {
    && 1 <= |l.changes| <= MAX_UNDOS
    && (l.idx.Some? ==> l.idx.value < |l.changes| - 1)
  }

  function New<C>(ping: C): Log<C> {
    Log([UndoableChange(ping, ping, GUTTER)], None)
  }

  function Cursor<C>(l: Log<C>): (c: nat)
    requires Valid(l)
    ensures c < |l.changes|
  {
    match l.idx case Some(i) => i case None => |l.changes| - 1
  }

  function Register<C>(l: Log<C>, ch: UndoableChange<C>): (r: Log<C>)
    requires Valid(l)
    ensures Valid(r)
  {
    var kept := match l.idx case Some(i) => l.changes[..i + 1] case None => l.changes;
    var changes := kept + [ch];
    Log(if |changes| > MAX_UNDOS then changes[1..] else changes, None)
  }

  predicate CanUndo<C>(l: Log<C>)
    requires Valid(l)
  {
    l.changes[Cursor(l)].desc != GUTTER
  }

  predicate CanRedo<C>(l: Log<C>)
    requires Valid(l)
  {
    Cursor(l) + 1 < |l.changes|
  }

  /** `Underflow` is the subtraction of one from a cursor of zero. */
  datatype Move<C> = Stay | Underflow | Go(log: Log<C>, cmd: C)

  function Undo<C>(l: Log<C>): Move<C>
    requires Valid(l)
  {
    if !CanUndo(l) then Stay
    else if Cursor(l) == 0 then Underflow
    else Go(l.(idx := Some(Cursor(l) - 1)), l.changes[Cursor(l)].undo)
  }

  function Redo<C>(l: Log<C>): Move<C>
    requires Valid(l)
  {
    if !CanRedo(l) then Stay
    else
      var i := Cursor(l) + 1;
      Go(l.(idx := if i == |l.changes| - 1 then None else Some(i)), l.changes[i].redo)
  }

  function State<C>(l: Log<C>): UndoState
    requires Valid(l)
  {
    UndoState(if CanUndo(l) then Some(l.changes[Cursor(l)].desc) else None,
              if CanRedo(l) then Some(l.changes[Cursor(l) + 1].desc) else None)
  }

  // ---- the two stacks ----

  /** Done changes, oldest first; undone changes, next to redo first. */
  datatype Stacks<C> = Stacks(done: seq<UndoableChange<C>>, undone: seq<UndoableChange<C>>)

  /** Only the sentinel may be called "nothing", and it may already have been evicted. */
  ghost predicate Proper<C>(l: Log<C>) {
    && Valid(l)
    && (forall i :: 1 <= i < |l.changes| ==> l.changes[i].desc != GUTTER)
  }

  predicate Evicted<C>(l: Log<C>)
    requires |l.changes| >= 1
  {
    l.changes[0].desc != GUTTER
  }

  function Abstract<C>(l: Log<C>): Stacks<C>
    requires Valid(l)
  {
    Stacks(l.changes[if Evicted(l) then 0 else 1..Cursor(l) + 1], l.changes[Cursor(l) + 1..])
  }

  /** The done stack keeps the last `MAX_UNDOS` changes. */
  function Latest<T>(s: seq<T>): seq<T> {
    if |s| > MAX_UNDOS then s[|s| - MAX_UNDOS..] else s
  }

  function PushDone<C>(s: Stacks<C>, ch: UndoableChange<C>): Stacks<C> {
    Stacks(Latest(s.done + [ch]), [])
  }

  function PopDone<C>(s: Stacks<C>): Stacks<C>
    requires s.done != []
  {
    Stacks(s.done[..|s.done| - 1], [s.done[|s.done| - 1]] + s.undone)
  }

  function PopUndone<C>(s: Stacks<C>): Stacks<C>
    requires s.undone != []
  {
    Stacks(s.done + [s.undone[0]], s.undone[1..])
  }

  lemma SlicePush<T>(s: seq<T>, b: nat, e: nat, x: T)
    requires b <= e <= |s|
    ensures s[b..e] + [x] == (s[..e] + [x])[b..]
  {
  }

  lemma LatestOfOneTooMany<T>(s: seq<T>)
    requires |s| == MAX_UNDOS + 1
    ensures Latest(s) == s[1..] && Latest(s[1..]) == s[1..]
  {
  }

  lemma LatestPush<T>(s: seq<T>, x: T)
    ensures Latest(Latest(s) + [x]) == Latest(s + [x])
  {
  }

  /** Registering pushes onto the done stack and clears exactly the undone one. */
  lemma RegisterPushes<C>(l: Log<C>, ch: UndoableChange<C>)
    requires Proper(l) && ch.desc != GUTTER
    ensures Proper(Register(l, ch)) && Register(l, ch).idx.None?
    ensures Abstract(Register(l, ch)) == PushDone(Abstract(l), ch)
  {
    var c := Cursor(l);
    var base := if Evicted(l) then 0 else 1;
    var changes := l.changes[..c + 1] + [ch];
    SlicePush(l.changes, base, c + 1, ch);
    assert l.idx.None? ==> l.changes[..c + 1] == l.changes;
    hide Latest;
    if |changes| > MAX_UNDOS {
      LatestOfOneTooMany(changes);
      assert Register(l, ch) == Log(changes[1..], None) && changes[1..][0] == changes[1];
      AbstractOfEvicted(Log(changes[1..], None));
    } else {
      LatestOfFew(changes[base..]);
      assert Register(l, ch) == Log(changes, None) && changes[0] == l.changes[0];
      assert changes[base..|changes|] == changes[base..];
    }
  }

  lemma LatestOfFew<T>(s: seq<T>)
    requires |s| <= MAX_UNDOS
    ensures Latest(s) == s
  {
  }

  lemma AbstractOfEvicted<C>(l: Log<C>)
    requires Valid(l) && l.idx.None? && Evicted(l)
    ensures Abstract(l) == Stacks(l.changes, [])
  {
  }

  /** Undoing pops the done stack, except that the oldest change left after the sentinel was evicted
      cannot be undone: that is exactly when the cursor underflows. */
  lemma UndoPops<C>(l: Log<C>)
    requires Proper(l)
    ensures Undo(l) == Stay <==> Abstract(l).done == []
    ensures Undo(l) == Underflow <==> Evicted(l) && |Abstract(l).done| == 1
    ensures Undo(l).Go? ==>
              && Proper(Undo(l).log)
              && Abstract(Undo(l).log) == PopDone(Abstract(l))
              && Undo(l).cmd == Abstract(l).done[|Abstract(l).done| - 1].undo
  {
    var c := Cursor(l);
    if Undo(l).Go? {
      var base := if Evicted(l) then 0 else 1;
      assert l.changes[c..] == [l.changes[c]] + l.changes[c + 1..];
      assert l.changes[base..c + 1][..c - base] == l.changes[base..c];
    }
  }

  lemma RedoPops<C>(l: Log<C>)
    requires Proper(l)
    ensures Redo(l) == Stay <==> Abstract(l).undone == []
    ensures Redo(l) != Underflow
    ensures Redo(l).Go? ==>
              && Proper(Redo(l).log)
              && Abstract(Redo(l).log) == PopUndone(Abstract(l))
              && Redo(l).cmd == Abstract(l).undone[0].redo
  {
    var c := Cursor(l);
    if Redo(l).Go? {
      assert l.changes[c + 1..] == [l.changes[c + 1]] + l.changes[c + 2..];
      var base := if Evicted(l) then 0 else 1;
      assert l.changes[base..c + 2] == l.changes[base..c + 1] + [l.changes[c + 1]];
    }
  }

  /** The reported state names the tops of the two stacks. */
  lemma StateNamesTops<C>(l: Log<C>)
    requires Proper(l)
    ensures
      var s := Abstract(l);
      State(l) == UndoState(if s.done == [] then None else Some(s.done[|s.done| - 1].desc),
                            if s.undone == [] then None else Some(s.undone[0].desc))
  {
  }

  /** Undo and redo are inverse on the history and speak of the same change. */
  lemma UndoThenRedo<C>(l: Log<C>)
    requires Proper(l) && Undo(l).Go?
    ensures var back := Redo(Undo(l).log);
            back.Go? && back.log == l && back.cmd == l.changes[Cursor(l)].redo
              && Undo(l).cmd == l.changes[Cursor(l)].undo
  {
  }

  lemma RedoThenUndo<C>(l: Log<C>)
    requires Proper(l) && Redo(l).Go?
    ensures var back := Undo(Redo(l).log);
            back.Go? && back.log == l && back.cmd == l.changes[Cursor(l) + 1].undo
              && Redo(l).cmd == l.changes[Cursor(l) + 1].redo
  {
  }

  function RegisterAll<C>(l: Log<C>, chs: seq<UndoableChange<C>>): (r: Log<C>)
    requires Valid(l)
    ensures Valid(r)
  {
    if chs == [] then l else Register(RegisterAll(l, chs[..|chs| - 1]), chs[|chs| - 1])
  }

  lemma {:induction false} RegisterAllCounts<C>(ping: C, chs: seq<UndoableChange<C>>)
    requires forall k :: 0 <= k < |chs| ==> chs[k].desc != GUTTER
    ensures
      var l := RegisterAll(New(ping), chs);
      && Proper(l) && l.idx.None?
      && (Evicted(l) <==> |chs| >= MAX_UNDOS)
      && |l.changes| == if |chs| >= MAX_UNDOS then MAX_UNDOS else |chs| + 1
  {
    if chs != [] {
      RegisterAllCounts(ping, chs[..|chs| - 1]);
    }
  }

  lemma NothingDone<C>(ping: C)
    ensures Abstract(New(ping)) == Stacks(Latest([]), [])
  {
  }

  lemma {:induction false} RegisterAllDone<C>(ping: C, chs: seq<UndoableChange<C>>)
    requires forall k :: 0 <= k < |chs| ==> chs[k].desc != GUTTER
    ensures
      var l := RegisterAll(New(ping), chs);
      && Proper(l) && l.idx.None? && Abstract(l) == Stacks(Latest(chs), [])
      && (Evicted(l) <==> |chs| >= MAX_UNDOS)
      && |l.changes| == if |chs| >= MAX_UNDOS then MAX_UNDOS else |chs| + 1
  {
    hide Register, Abstract, Latest, Evicted;
    RegisterAllCounts(ping, chs);
    if chs != [] {
      var init, last := chs[..|chs| - 1], chs[|chs| - 1];
      RegisterAllDone(ping, init);
      RegisterPushes(RegisterAll(New(ping), init), last);
      assert init + [last] == chs;
      LatestPush(init, last);
    } else {
      NothingDone(ping);
    }
  }

  /** `n` undos in a row, as long as nothing underflows. */
  function UndoMany<C>(l: Log<C>, n: nat): Option<Log<C>>
    requires Valid(l)
  {
    if n == 0 then Some(l)
    else
      match UndoMany(l, n - 1)
      case None => None
      case Some(m) => if Valid(m) && Undo(m).Go? then Some(Undo(m).log) else None
  }

  lemma {:induction false} UndoManyPops<C>(l: Log<C>, n: nat)
    requires Proper(l) && n < |Abstract(l).done|
    ensures
      var m := UndoMany(l, n);
      && m.Some? && Proper(m.value) && m.value.changes == l.changes
      && Abstract(m.value).done == Abstract(l).done[..|Abstract(l).done| - n]
  {
    if n > 0 {
      UndoManyPops(l, n - 1);
      UndoPops(UndoMany(l, n - 1).value);
    } else {
      assert Abstract(l).done[..|Abstract(l).done|] == Abstract(l).done;
    }
  }

  /** The defect is reached by any session of a hundred or more changes: undoing back to the oldest
      one kept makes the next undo underflow. */
  lemma EvictionUnderflows<C>(ping: C, chs: seq<UndoableChange<C>>)
    requires |chs| >= MAX_UNDOS && forall k :: 0 <= k < |chs| ==> chs[k].desc != GUTTER
    ensures
      var m := UndoMany(RegisterAll(New(ping), chs), MAX_UNDOS - 1);
      m.Some? && Valid(m.value) && Undo(m.value) == Underflow
  {
    var l := RegisterAll(New(ping), chs);
    RegisterAllDone(ping, chs);
    UndoManyPops(l, MAX_UNDOS - 1);
    UndoPops(UndoMany(l, MAX_UNDOS - 1).value);
  }

  // ---- the object ----

  class UndoContext<C> {
    var changes: seq<UndoableChange<C>>
    var idx: Option<nat>

    constructor (ping: C)
      ensures View() == New(ping)
    {
      changes, idx := [UndoableChange(ping, ping, GUTTER)], None;
    }

    function View(): Log<C>
      reads this
    {
      Log(changes, idx)
    }

    method RegisterChange(ch: UndoableChange<C>)
      requires Valid(View())
      modifies this
      ensures Valid(View()) && View() == Register(old(View()), ch)
    {
      if idx.Some? {
        changes := changes[..idx.value + 1];
        idx := None;
      }
      changes := changes + [ch];
      if |changes| > MAX_UNDOS {
        changes := RemoveAt(changes, 0);
      }
    }

    method Indexes() returns (undo: Option<nat>, redo: Option<nat>)
      requires Valid(View())
      ensures undo == if CanUndo(View()) then Some(Cursor(View())) else None
      ensures redo == if CanRedo(View()) then Some(Cursor(View()) + 1) else None
    {
      undo, redo := None, None;
      var i := match idx case Some(i) => i case None => |changes| - 1;
      if i + 1 < |changes| {
        redo := Some(i + 1);
      }
      if changes[i].desc != GUTTER {
        undo := Some(i);
      }
    }

    /** `ok` is false when the cursor would underflow; nothing is changed then. */
    method UndoLast() returns (ok: bool, cmd: Option<C>)
      requires Valid(View())
      modifies this`idx
      ensures Valid(View())
      ensures match Undo(old(View()))
              case Stay => ok && cmd == None && View() == old(View())
              case Underflow => !ok && cmd == None && View() == old(View())
              case Go(l, c) => ok && cmd == Some(c) && View() == l
    {
      var undo, _ := Indexes();
      ok, cmd := true, None;
      if undo.Some? {
        if undo.value == 0 {
          return false, None;
        }
        idx := Some(undo.value - 1);
        cmd := Some(changes[undo.value].undo);
      }
    }

    method RedoNext() returns (cmd: Option<C>)
      requires Valid(View())
      modifies this`idx
      ensures Valid(View())
      ensures match Redo(old(View()))
              case Go(l, c) => cmd == Some(c) && View() == l
              case _ => cmd == None && View() == old(View())
    {
      var _, redo := Indexes();
      cmd := None;
      if redo.Some? {
        idx := if redo.value == |changes| - 1 then None else Some(redo.value);
        cmd := Some(changes[redo.value].redo);
      }
    }

    method CurrentState() returns (s: UndoState)
      requires Valid(View())
      ensures s == State(View())
    {
      var undo, redo := Indexes();
      s := UndoState(match undo case Some(i) => Some(changes[i].desc) case None => None,
                     match redo case Some(i) => Some(changes[i].desc) case None => None);
    }
  }
}
