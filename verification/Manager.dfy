/** The action manager and the server context, updated in place, tied to the document functions. */
module Manager {
  import opened Containers
  import opened History
  import opened Document
  import opened Audio
  import opened Playback
  import Session

  datatype ManagerError = NotInOrder | OutOfBounds | NoAction | UnknownType | AlreadyExists | NotInMap | AssertionFailed

  class ActionManager {
    var actions: map<nat, ActionDoc>
    var asyncActions: set<nat>
    var changed: set<nat>
    var order: seq<nat>
    var orderChanged: bool

    constructor ()
      ensures View() == Doc(map[], []) && changed == {} && asyncActions == {} && !orderChanged
    {
      actions, asyncActions, changed, order, orderChanged := map[], {}, {}, [], false;
    }

    function View(): Doc
      reads this
    {
      Doc(actions, order)
    }

    /** The order lists every action once; this is what holds while nothing is checked out. */
    ghost predicate Settled()
      reads this
    {
      OrderAgrees(ViewOf(View()))
    }

    method RestoreOrder(newOrder: seq<nat>) returns (r: Result<(), ManagerError>)
      modifies this`order
      ensures r.Ok? <==> forall u :: u in newOrder ==> u in actions
      ensures order == if r.Ok? then newOrder else old(order)
      ensures r.Err? ==> r.error == NotInMap
    {
      var i := 0;
      while i < |newOrder|
        invariant i <= |newOrder| && forall j :: 0 <= j < i ==> newOrder[j] in actions
      {
        if newOrder[i] !in actions {
          return Err(NotInMap);
        }
        i := i + 1;
      }
      order := newOrder;
      r := Ok(());
    }

    /** Both conditions are asserted by the code. */
    method Insert(uuid: nat, act: ActionDoc)
      requires uuid !in actions && PositionOf(order, uuid).None?
      modifies this`actions, this`order, this`orderChanged
      ensures View() == Doc(old(actions)[uuid := act], old(order) + [uuid]) && orderChanged
    {
      actions := actions[uuid := act];
      order := order + [uuid];
      orderChanged := true;
    }

    method Reorder(uuid: nat, newPos: nat) returns (r: Result<(), ManagerError>)
      modifies this`order, this`orderChanged
      ensures r.Ok? <==> uuid in old(order) && newPos < |old(order)|
      ensures r.Err? ==> r.error == if uuid in old(order) then OutOfBounds else NotInOrder
      ensures View() == old(View()).(order := Reordered(old(order), uuid, newPos))
      ensures r.Ok? ==> newPos < |order| && order[newPos] == uuid && orderChanged
      ensures r.Err? ==> orderChanged == old(orderChanged)
    {
      var pos := PositionOf(order, uuid);
      if pos.None? {
        return Err(NotInOrder);
      }
      if newPos >= |order| {
        return Err(OutOfBounds);
      }
      order := RemoveAt(order, pos.value);
      order := InsertAt(order, newPos, uuid);
      orderChanged := true;
      r := Ok(());
    }

    method Remove(uuid: nat) returns (r: Option<ActionDoc>)
      modifies this`actions, this`order, this`orderChanged
      ensures r == if uuid in old(actions) then Some(old(actions)[uuid]) else None
      ensures View() == Doc(old(actions) - {uuid}, Without(old(order), uuid))
      ensures orderChanged == (old(orderChanged) || uuid in old(order))
    {
      var pos := PositionOf(order, uuid);
      if pos.Some? {
        order := RemoveAt(order, pos.value);
        orderChanged := true;
      }
      r := if uuid in actions then Some(actions[uuid]) else None;
      actions := actions - {uuid};
    }

    method MarkChanged(uuid: nat)
      modifies this`changed
      ensures changed == old(changed) + {uuid}
    {
      changed := changed + {uuid};
    }

    /** Checks an action out; its place in the order is kept. */
    method RemoveForEditing(uuid: nat, mark: bool) returns (r: Option<ActionDoc>)
      modifies this`actions, this`changed
      ensures r == if uuid in old(actions) then Some(old(actions)[uuid]) else None
      ensures actions == old(actions) - {uuid}
      ensures changed == if mark then old(changed) + {uuid} else old(changed)
    {
      if mark {
        MarkChanged(uuid);
      }
      r := if uuid in actions then Some(actions[uuid]) else None;
      actions := actions - {uuid};
    }

    method InsertAfterEditing(uuid: nat, act: ActionDoc)
      requires uuid !in actions
      modifies this`actions
      ensures actions == old(actions)[uuid := act]
    {
      actions := actions[uuid := act];
    }

    method RemoveAllForEditing() returns (all: map<nat, ActionDoc>)
      modifies this`actions
      ensures all == old(actions) && actions == map[]
    {
      all := actions;
      actions := map[];
    }

    method ClearChanged() returns (all: set<nat>)
      modifies this`changed
      ensures all == old(changed) && changed == {}
    {
      all := changed;
      changed := {};
    }

    method ClearOrderChanged() returns (was: bool)
      modifies this`orderChanged
      ensures was == old(orderChanged) && !orderChanged
    {
      was := orderChanged;
      orderChanged := false;
    }
  }

  class ServerContext {
    const env: Session.Env
    var actions: ActionManager
    const undo: UndoContext<Command>
    var mixer: MixerConf

    constructor (env: Session.Env, mixer: MixerConf)
      ensures Valid() && View() == Session.State(Doc(map[], []), New(Ping), mixer) && this.env == env
    {
      this.env, this.mixer := env, mixer;
      actions := new ActionManager();
      undo := new UndoContext(Ping);
    }

    function View(): Session.State
      reads this, actions, undo
    {
      Session.State(actions.View(), undo.View(), mixer)
    }

    /** Nothing is checked out, and the history holds no undo or redo commands. */
    ghost predicate Valid()
      reads this, actions, undo
    {
      && actions.Settled()
      && History.Valid(undo.View())
      && (forall i :: 0 <= i < |undo.changes| ==> Plain(undo.changes[i].undo) && Plain(undo.changes[i].redo))
    }

    ghost predicate Plain(cmd: Command) {
      !cmd.UndoCommand? && !cmd.RedoCommand?
    }

    /** `AssertionFailed` is the assertion that a new action's uuid is not in the order. */
    method CreateNew(typ: string, uuid: nat, params: Option<ActionParameters>, meta: Option<ActionMetadata>)
      returns (r: Result<nat, ManagerError>)
      modifies actions
      ensures r == Err(AssertionFailed)
              <==> (typ == "audio" || typ == "fade") && uuid !in old(actions.actions) && uuid in old(actions.order)
      ensures r.Ok?
              <==> (typ == "audio" || typ == "fade") && uuid !in old(actions.actions) && uuid !in old(actions.order)
      ensures r == Err(UnknownType) <==> typ != "audio" && typ != "fade"
      ensures r == Err(AlreadyExists) <==> (typ == "audio" || typ == "fade") && uuid in old(actions.actions)
      ensures r.Ok? ==> r.value == uuid
      ensures actions.View() ==
              if r == Err(AssertionFailed) then old(actions.View())
                else CreateAction(env.media, old(actions.View()), typ, uuid, params, meta)
    {
      if typ != "audio" && typ != "fade" {
        return Err(UnknownType);
      }
      if uuid in actions.actions {
        return Err(AlreadyExists);
      }
      var act := ActionDoc(NEW_META, if typ == "audio" then NEW_AUDIO else NEW_FADE);
      if meta.Some? {
        act := act.(meta := meta.value);
      }
      if params.Some? {
        act := SetParams(env.media, act, uuid, actions.actions, params.value);
      }
      actions.MarkChanged(uuid);
      if PositionOf(actions.order, uuid).Some? {
        return Err(AssertionFailed);
      }
      actions.Insert(uuid, act);
      r := Ok(uuid);
    }

    /** Deleting an action and creating its uuid again, as undoing the deletion does: the assertion fires
        exactly when the order named the uuid at least twice. */
    method DeleteThenCreate(typ: string, uuid: nat) returns (r: Result<nat, ManagerError>)
      modifies actions
      ensures r == Err(AssertionFailed)
              <==> (typ == "audio" || typ == "fade") && multiset(old(actions.order))[uuid] >= 2
    {
      StillNamedIff(actions.order, uuid);
      var _ := actions.Remove(uuid);
      r := CreateNew(typ, uuid, None, None);
    }

    method UpdateParams(uuid: nat, params: ActionParameters)
      modifies actions
      ensures actions.View() == Process(env.media, old(actions.View()), UpdateActionParams(uuid, params, None))
    {
      var a := actions.RemoveForEditing(uuid, true);
      if a.Some? {
        var edited := SetParams(env.media, a.value, uuid, actions.actions, params);
        actions.InsertAfterEditing(uuid, edited);
        assert (old(actions.actions) - {uuid})[uuid := edited] == old(actions.actions)[uuid := edited];
      } else {
        assert old(actions.actions) - {uuid} == old(actions.actions);
      }
    }

    method UpdateMeta(uuid: nat, meta: ActionMetadata)
      modifies actions
      ensures actions.View() == Process(env.media, old(actions.View()), UpdateActionMetadata(uuid, meta))
    {
      var a := actions.RemoveForEditing(uuid, true);
      if a.Some? {
        var edited := a.value.(meta := meta);
        actions.InsertAfterEditing(uuid, edited);
        assert (old(actions.actions) - {uuid})[uuid := edited] == old(actions.actions)[uuid := edited];
      } else {
        assert old(actions.actions) - {uuid} == old(actions.actions);
      }
    }

    /** A look at an action checks it out and back in. */
    method GetData(uuid: nat) returns (a: Option<ActionDoc>)
      modifies actions
      ensures a == if uuid in old(actions.actions) then Some(old(actions.actions)[uuid]) else None
      ensures actions.View() == old(actions.View())
    {
      a := actions.RemoveForEditing(uuid, true);
      if a.Some? {
        actions.InsertAfterEditing(uuid, a.value);
        assert (old(actions.actions) - {uuid})[uuid := a.value] == old(actions.actions);
      } else {
        assert old(actions.actions) - {uuid} == old(actions.actions);
      }
    }

    method CmdAsUndoable(cmd: Command) returns (ch: Option<Change>)
      modifies actions
      ensures actions.View() == old(actions.View())
      ensures ch == AsUndoable(old(actions.View()), mixer, cmd)
    {
      ch := None;
      match cmd {
        case CreateActionWithUuid(typ, uuid) =>
          ch := Some(UndoableChange(DeleteAction(uuid), CreateActionWithUuid(typ, uuid),
                                    "create action with type " + typ));
        case ReviveAction(uuid, typ, meta, params) =>
          ch := Some(UndoableChange(DeleteAction(uuid), ReviveAction(uuid, typ, meta, params),
                                    "revive action of type " + typ));
        case CreateActionWithExtras(typ, uuid, params) =>
          ch := Some(UndoableChange(DeleteAction(uuid), CreateActionWithExtras(typ, uuid, params),
                                    "create action with type " + typ));
        case UpdateActionParams(uuid, params, desc) =>
          var a := GetData(uuid);
          if a.Some? {
            var text := match desc case Some(s) => s case None => "update action parameters";
            ch := Some(UndoableChange(UpdateActionParams(uuid, a.value.params, None),
                                      UpdateActionParams(uuid, params, None), text));
          }
        case UpdateActionMetadata(uuid, meta) =>
          var a := GetData(uuid);
          if a.Some? {
            ch := Some(UndoableChange(UpdateActionMetadata(uuid, a.value.meta), UpdateActionMetadata(uuid, meta),
                                      "update action metadata"));
          }
        case DeleteAction(uuid) =>
          var a := GetData(uuid);
          if a.Some? {
            ch := Some(UndoableChange(ReviveAction(uuid, Typ(a.value.params), a.value.meta, a.value.params),
                                      DeleteAction(uuid), "delete action"));
          }
        case SetMixerConf(conf) =>
          ch := Some(UndoableChange(SetMixerConf(mixer), SetMixerConf(conf), "modify mixer configuration"));
        case ReorderAction(uuid, newPos) =>
          var pos := PositionOf(actions.order, uuid);
          if pos.Some? {
            ch := Some(UndoableChange(ReorderAction(uuid, pos.value), ReorderAction(uuid, newPos), "reorder action"));
          }
        case _ =>
      }
    }

    /** One command other than undo and redo. */
    method ProcessPlain(cmd: Command)
      requires Valid() && Plain(cmd)
      modifies this`mixer, actions
      ensures Valid()
      ensures View() == Session.ProcessIn(env, old(View()), cmd)
    {
      ghost var d := actions.View();
      ProcessKeepsOrder(ViewOf(d), cmd);
      ProcessOnView(env.media, d, cmd);
      assert forall u :: u in actions.order ==> u in ViewOf(d).actions;
      match cmd {
        case CreateActionWithUuid(typ, uuid) => var _ := CreateNew(typ, uuid, None, None);
        case CreateActionWithExtras(typ, uuid, params) => var _ := CreateNew(typ, uuid, Some(params), None);
        case ReviveAction(uuid, typ, meta, params) => var _ := CreateNew(typ, uuid, Some(params), Some(meta));
        case UpdateActionParams(uuid, params, _) => UpdateParams(uuid, params);
        case UpdateActionMetadata(uuid, meta) => UpdateMeta(uuid, meta);
        case DeleteAction(uuid) => var _ := actions.Remove(uuid);
        case ReorderAction(uuid, newPos) => var _ := actions.Reorder(uuid, newPos);
        case SetMixerConf(conf) => mixer := env.applyConf(mixer, conf);
        case _ =>
      }
    }

    /** Undo and redo carry out the command the history hands back. `ok` is false on underflow. */
    method ProcessCommand(cmd: Command) returns (ok: bool)
      requires Valid()
      modifies this`mixer, actions, undo
      ensures Valid()
      ensures Plain(cmd) ==> ok && View() == Session.ProcessIn(env, old(View()), cmd)
      ensures !Plain(cmd) ==>
                match Session.External(env, old(View()), cmd)
                case None => !ok && View() == old(View())
                case Some(s) => ok && View() == s
    {
      ok := true;
      ghost var l := undo.View();
      assert Plain(undo.changes[Cursor(l)].undo);
      assert Cursor(l) + 1 < |undo.changes| ==> Plain(undo.changes[Cursor(l) + 1].redo);
      match cmd {
        case UndoCommand =>
          var c;
          ok, c := undo.UndoLast();
          if c.Some? {
            ProcessPlain(c.value);
          }
        case RedoCommand =>
          var c := undo.RedoNext();
          if c.Some? {
            ProcessPlain(c.value);
          }
        case _ =>
          ProcessPlain(cmd);
      }
    }

    method RecordChange(cmd: Command)
      requires Valid()
      modifies actions, undo
      ensures Valid()
      ensures View() == Session.Record(old(View()), cmd)
    {
      hide AsUndoable, Register;
      RecordedPlain(actions.View(), mixer, undo.View(), cmd);
      var ch := CmdAsUndoable(cmd);
      if ch.Some? {
        undo.RegisterChange(ch.value);
      }
    }

    lemma RecordedPlain(d: Doc, m: MixerConf, log: Log<Command>, cmd: Command)
      requires History.Valid(log) && forall i :: 0 <= i < |log.changes| ==>
                 Plain(log.changes[i].undo) && Plain(log.changes[i].redo)
      ensures AsUndoable(d, m, cmd).Some? ==>
                var log' := Register(log, AsUndoable(d, m, cmd).value);
                forall i :: 0 <= i < |log'.changes| ==> Plain(log'.changes[i].undo) && Plain(log'.changes[i].redo)
    {
    }

    /** A command from a client: recorded from the document it is about to change, carried out, then
        every action marked as changed is looked at and the marks are cleared. */
    method External(cmd: Command) returns (ok: bool)
      requires Valid()
      modifies this`mixer, actions, undo
      ensures Valid()
      ensures match Session.External(env, old(View()), cmd)
              case None => !ok
              case Some(s) => ok && View() == s && actions.changed == {} && !actions.orderChanged
    {
      ghost var before := View();
      assert !Plain(cmd) ==> Session.Record(before, cmd) == before;
      hide Register, AsUndoable, Session.ProcessIn;
      RecordChange(cmd);
      ok := ProcessCommand(cmd);
      if ok {
        var changed := actions.ClearChanged();
        Broadcast(changed);
        var _ := actions.ClearOrderChanged();
      }
    }

    method Broadcast(changed: set<nat>)
      requires actions.changed == {}
      modifies actions`actions, actions`changed
      ensures actions.View() == old(actions.View()) && actions.changed == {}
    {
      var left := changed;
      while left != {}
        invariant actions.actions == old(actions.actions) && actions.changed == {}
        decreases left
      {
        var u :| u in left;
        left := left - {u};
        var a := actions.RemoveForEditing(u, false);
        if a.Some? {
          actions.InsertAfterEditing(u, a.value);
          assert (old(actions.actions) - {u})[u := a.value] == old(actions.actions);
        } else {
          assert old(actions.actions) - {u} == old(actions.actions);
        }
      }
    }
  }
}
