/** The show document: actions and their order, the commands that change it and the inverse commands
    that undo them. */
module Document {
  import opened Containers
  import opened History
  import opened Playback
  import opened Audio
  import Fade

  datatype ActionDoc = ActionDoc(meta: ActionMetadata, params: ActionParameters)

  datatype Doc = Doc(actions: map<nat, ActionDoc>, order: seq<nat>)

  datatype MixerChannel = MixerChannel(name: string, uuid: nat, eid: nat, patch: Option<string>)

  datatype MixerConf = MixerConf(channels: seq<MixerChannel>, defs: seq<nat>)

  datatype Command =
    | Ping
    | CreateActionWithUuid(typ: string, uuid: nat)
    | CreateActionWithExtras(typ: string, uuid: nat, params: ActionParameters)
    | ReviveAction(uuid: nat, typ: string, meta: ActionMetadata, params: ActionParameters)
    | UpdateActionParams(uuid: nat, params: ActionParameters, desc: Option<string>)
    | UpdateActionMetadata(uuid: nat, meta: ActionMetadata)
    | DeleteAction(uuid: nat)
    | ReorderAction(uuid: nat, newPos: nat)
    | SetMixerConf(conf: MixerConf)
    | UndoCommand
    | RedoCommand

  type Change = UndoableChange<Command>

  /** What setting an audio cue's parameters makes of them depends on the media files. */
  datatype Media = Media(normalise: (AudioParams, AudioParams) -> AudioParams)

  function Typ(params: ActionParameters): string {
    match params case AudioPars(_) => "audio" case FadePars(_) => "fade"
  }

  // ---- the order list ----

  function PositionFrom(order: seq<nat>, uuid: nat, i: nat): (r: Option<nat>)
    requires i <= |order|
    ensures r.Some? ==> i <= r.value < |order| && order[r.value] == uuid && forall j :: i <= j < r.value ==>
              order[j] != uuid
    ensures r.None? ==> forall j :: i <= j < |order| ==> order[j] != uuid
    decreases |order| - i
  {
    if i == |order| then None else if order[i] == uuid then Some(i) else PositionFrom(order, uuid, i + 1)
  }

  function PositionOf(order: seq<nat>, uuid: nat): (r: Option<nat>)
    ensures r.Some? ==> r.value < |order| && order[r.value] == uuid
    ensures r.Some? <==> uuid in order
  {
    PositionFrom(order, uuid, 0)
  }

  function Reordered(order: seq<nat>, uuid: nat, newPos: nat): seq<nat> {
    match PositionOf(order, uuid)
    case None => order
    case Some(pos) => if newPos >= |order| then order else InsertAt(RemoveAt(order, pos), newPos, uuid)
  }

  function Without(order: seq<nat>, uuid: nat): seq<nat> {
    match PositionOf(order, uuid) case None => order case Some(pos) => RemoveAt(order, pos)
  }

  // ---- commands on the document ----

  predicate Creates(cmd: Command) {
    cmd.CreateActionWithUuid? || cmd.CreateActionWithExtras? || cmd.ReviveAction?
  }

  /** Padding looks at the fade's previous target; an action being edited is not in the map. */
  function PaddedFade(old_: Fade.FadeParams, uuid: nat, actions: map<nat, ActionDoc>, p: Fade.FadeParams)
    : Fade.FadeParams
  {
    Fade.Padded(p, if old_.target.Some? && old_.target.value != uuid && old_.target.value in actions
                      && actions[old_.target.value].params.AudioPars? then
                     Some(|actions[old_.target.value].params.audio.chans|)
                   else None)
  }

  /** Parameters of the wrong kind are refused. */
  function SetParams(media: Media, a: ActionDoc, uuid: nat, actions: map<nat, ActionDoc>, p: ActionParameters)
    : ActionDoc
  {
    match (a.params, p)
    case (AudioPars(o), AudioPars(n)) => a.(params := AudioPars(media.normalise(o, n)))
    case (FadePars(o), FadePars(n)) => a.(params := FadePars(PaddedFade(o, uuid, actions, n)))
    case _ => a
  }

  const NEW_META := ActionMetadata(None, 0, None)
  const NEW_AUDIO := AudioPars(AudioParams(None, [], 0.0))
  const NEW_FADE := FadePars(Fade.FadeParams(None, [], (false, 0.0), 0))

  /** Unknown types and taken uuids are refused. */
  function CreateAction(media: Media, d: Doc, typ: string, uuid: nat, params: Option<ActionParameters>,
                        meta: Option<ActionMetadata>): Doc
  {
    if (typ != "audio" && typ != "fade") || uuid in d.actions then d
    else
      var blank := ActionDoc(match meta case Some(m) => m
                             case None => NEW_META, if typ == "audio" then NEW_AUDIO else NEW_FADE);
      var act := match params case Some(p) => SetParams(media, blank, uuid, d.actions, p) case None => blank;
      Doc(d.actions[uuid := act], d.order + [uuid])
  }

  /** A command's effect on the document; undo and redo are handled by the session. */
  function Process(media: Media, d: Doc, cmd: Command): Doc {
    match cmd
    case CreateActionWithUuid(typ, uuid) => CreateAction(media, d, typ, uuid, None, None)
    case CreateActionWithExtras(typ, uuid, params) => CreateAction(media, d, typ, uuid, Some(params), None)
    case ReviveAction(uuid, typ, meta, params) => CreateAction(media, d, typ, uuid, Some(params), Some(meta))
    case UpdateActionParams(uuid, params, _) =>
      if uuid in d.actions then d.(actions := d.actions[uuid := SetParams(media, d.actions[uuid], uuid, d.actions,
          params)]) else d
    case UpdateActionMetadata(uuid, meta) =>
      if uuid in d.actions then d.(actions := d.actions[uuid := d.actions[uuid].(meta := meta)]) else d
    case DeleteAction(uuid) => Doc(d.actions - {uuid}, Without(d.order, uuid))
    case ReorderAction(uuid, newPos) => d.(order := Reordered(d.order, uuid, newPos))
    case _ => d
  }

  /** The change recorded for a command, from the document it is about to change. */
  function AsUndoable(d: Doc, mixer: MixerConf, cmd: Command): Option<Change> {
    match cmd
    case CreateActionWithUuid(typ, uuid) =>
      Some(UndoableChange(DeleteAction(uuid), CreateActionWithUuid(typ, uuid), "create action with type " + typ))
    case ReviveAction(uuid, typ, meta, params) =>
      Some(UndoableChange(DeleteAction(uuid), ReviveAction(uuid, typ, meta, params), "revive action of type " + typ))
    case CreateActionWithExtras(typ, uuid, params) =>
      Some(UndoableChange(DeleteAction(uuid), CreateActionWithExtras(typ, uuid, params),
                          "create action with type " + typ))
    case UpdateActionParams(uuid, params, desc) =>
      if uuid !in d.actions then None
      else Some(UndoableChange(UpdateActionParams(uuid, d.actions[uuid].params, None),
                               UpdateActionParams(uuid, params, None),
                               match desc case Some(s) => s case None => "update action parameters"))
    case UpdateActionMetadata(uuid, meta) =>
      if uuid !in d.actions then None
      else Some(UndoableChange(UpdateActionMetadata(uuid, d.actions[uuid].meta), UpdateActionMetadata(uuid, meta),
                               "update action metadata"))
    case DeleteAction(uuid) =>
      if uuid !in d.actions then None
      else
        var a := d.actions[uuid];
        Some(UndoableChange(ReviveAction(uuid, Typ(a.params), a.meta, a.params), DeleteAction(uuid), "delete action"))
    case SetMixerConf(conf) =>
      Some(UndoableChange(SetMixerConf(mixer), SetMixerConf(conf), "modify mixer configuration"))
    case ReorderAction(uuid, newPos) =>
      (match PositionOf(d.order, uuid)
       case None => None
       case Some(pos) => Some(UndoableChange(ReorderAction(uuid, pos), ReorderAction(uuid, newPos), "reorder action")))
    case _ => None
  }

  // ---- what each command leaves ----

  /** Everything but action `uuid` is as it was. */
  ghost predicate OnlyEdits(d: Doc, d': Doc, uuid: nat) {
    && d'.order == d.order && d'.actions.Keys == d.actions.Keys
    && forall u :: u in d.actions && u != uuid ==> d'.actions[u] == d.actions[u]
  }

  /** The channels a fade without enough fades of its own is padded to, looking at the target it had. */
  function TargetChannels(d: Doc, uuid: nat, target: Option<nat>): (n: nat)
    ensures n > 0 ==> target.Some? && target.value in d.actions && target.value != uuid
  {
    if target.None? || target.value == uuid || target.value !in d.actions then 0
    else match d.actions[target.value].params case AudioPars(p) => |p.chans| case FadePars(_) => 0
  }

  /** Given fades come first; what is missing for n channels is disabled. */
  ghost predicate PaddedTo(r: Fade.FadeParams, p: Fade.FadeParams, n: nat) {
    && r.target == p.target && r.fadeMaster == p.fadeMaster && r.dur == p.dur
    && |r.fades| == (if n > |p.fades| then n else |p.fades|)
    && (forall i :: 0 <= i < |p.fades| ==> r.fades[i] == p.fades[i])
    && (forall i :: |p.fades| <= i < |r.fades| ==> r.fades[i] == (false, 0.0))
  }

  /** New parameters of the action's own kind take effect, a fade's padded and a cue's normalised;
      nothing else changes. */
  lemma ParamsUpdated(media: Media, d: Doc, uuid: nat, params: ActionParameters, desc: Option<string>)
    requires uuid in d.actions
    ensures
      var d' := Process(media, d, UpdateActionParams(uuid, params, desc));
      && OnlyEdits(d, d', uuid) && d'.actions[uuid].meta == d.actions[uuid].meta
      && match (d.actions[uuid].params, params)
         case (AudioPars(o), AudioPars(n)) => d'.actions[uuid].params == AudioPars(media.normalise(o, n))
         case (FadePars(o), FadePars(n)) =>
           && d'.actions[uuid].params.FadePars?
           && PaddedTo(d'.actions[uuid].params.fade, n, TargetChannels(d, uuid, o.target))
         case _ => d'.actions[uuid].params == d.actions[uuid].params
  {
  }

  lemma MetadataUpdated(media: Media, d: Doc, uuid: nat, meta: ActionMetadata)
    requires uuid in d.actions
    ensures
      var d' := Process(media, d, UpdateActionMetadata(uuid, meta));
      OnlyEdits(d, d', uuid) && d'.actions[uuid] == ActionDoc(meta, d.actions[uuid].params)
  {
  }

  /** A created action has the metadata and parameters given, or blank ones of its kind. */
  lemma CreatedAs(media: Media, d: Doc, cmd: Command)
    requires Creates(cmd) && (cmd.typ == "audio" || cmd.typ == "fade") && cmd.uuid !in d.actions
    ensures
      var d' := Process(media, d, cmd);
      && d'.order == d.order + [cmd.uuid] && d'.actions.Keys == d.actions.Keys + {cmd.uuid}
      && (forall u :: u in d.actions ==> d'.actions[u] == d.actions[u])
      && d'.actions[cmd.uuid].meta == (if cmd.ReviveAction? then cmd.meta else ActionMetadata(None, 0, None))
      && d'.actions[cmd.uuid].params ==
         if cmd.typ == "audio" then
           var blank := AudioParams(None, [], 0.0);
           AudioPars(if !cmd.CreateActionWithUuid? && cmd.params.AudioPars? then
                       media.normalise(blank, cmd.params.audio) else blank)
         else
           FadePars(if !cmd.CreateActionWithUuid? && cmd.params.FadePars? then cmd.params.fade
                    else Fade.FadeParams(None, [], (false, 0.0), 0))
  {
    assert "audio"[0] == 'a' && "fade"[0] == 'f';
  }

  /** Deleting takes the first mention out of the order; moving puts it in before `newPos` of the rest. */
  lemma OrderEdited(media: Media, d: Doc, k: nat, newPos: nat)
    requires k < |d.order| && d.order[k] !in d.order[..k]
    ensures
      var u, rest := d.order[k], d.order[..k] + d.order[k + 1..];
      && Process(media, d, DeleteAction(u)) == Doc(d.actions - {u}, rest)
      && Process(media, d, ReorderAction(u, newPos)).actions == d.actions
      && Process(media, d, ReorderAction(u, newPos)).order ==
         if newPos < |d.order| then rest[..newPos] + [u] + rest[newPos..] else d.order
  {
    var pos := PositionOf(d.order, d.order[k]);
    assert pos.Some? && pos.value == k;
  }

  /** The parameters after an update was made and undone: those of before are set again, so they are
      normalised against the ones they replace, or padded for the target of those. They come back if and
      only if that leaves them alone. */
  lemma UpdateUndone(media: Media, d: Doc, mixer: MixerConf, uuid: nat, params: ActionParameters,
                     desc: Option<string>)
    requires uuid in d.actions
    ensures
      var cmd := UpdateActionParams(uuid, params, desc);
      var ch := AsUndoable(d, mixer, cmd);
      && ch.Some? && Process(media, d, ch.value.redo) == Process(media, d, cmd)
      && var back := Process(media, Process(media, d, cmd), ch.value.undo);
      && OnlyEdits(d, back, uuid) && back.actions[uuid].meta == d.actions[uuid].meta
      && match d.actions[uuid].params
         case AudioPars(o) =>
           var again := media.normalise(if params.AudioPars? then media.normalise(o, params.audio) else o, o);
           back.actions[uuid].params == AudioPars(again) && (back == d <==> again == o)
         case FadePars(o) =>
           var n := TargetChannels(d, uuid, if params.FadePars? then params.fade.target else o.target);
           && back.actions[uuid].params.FadePars? && PaddedTo(back.actions[uuid].params.fade, o, n)
           && (back == d <==> n <= |o.fades|)
  {
    var d' := Process(media, d, UpdateActionParams(uuid, params, desc));
    var back := Process(media, d', UpdateActionParams(uuid, d.actions[uuid].params, None));
    ParamsUpdated(media, d, uuid, params, desc);
    ParamsUpdated(media, d', uuid, d.actions[uuid].params, None);
    assert back.actions[uuid] == d.actions[uuid] ==> back.actions == d.actions;
  }

  /** A deleted action is revived with its metadata and parameters, a cue's normalised as for a new one. */
  lemma DeletionUndone(media: Media, d: Doc, mixer: MixerConf, uuid: nat)
    requires uuid in d.actions
    ensures
      var ch := AsUndoable(d, mixer, DeleteAction(uuid));
      && ch.Some?
      && var back := Process(media, Process(media, d, DeleteAction(uuid)), ch.value.undo);
      && back.actions == d.actions[uuid := ActionDoc(d.actions[uuid].meta,
           match d.actions[uuid].params
           case AudioPars(p) => AudioPars(media.normalise(AudioParams(None, [], 0.0), p))
           case FadePars(p) => FadePars(p))]
  {
    var a, d' := d.actions[uuid], Process(media, d, DeleteAction(uuid));
    CreatedAs(media, d', ReviveAction(uuid, Typ(a.params), a.meta, a.params));
  }

  // ---- types, metadata and order ----

  datatype Info = Info(typ: string, meta: ActionMetadata)

  datatype View = View(actions: map<nat, Info>, order: seq<nat>)

  function InfoOf(a: ActionDoc): Info {
    Info(Typ(a.params), a.meta)
  }

  function ViewOf(d: Doc): View {
    View(map u | u in d.actions :: InfoOf(d.actions[u]), d.order)
  }

  function CreateInfo(v: View, typ: string, uuid: nat, meta: ActionMetadata): View {
    if (typ != "audio" && typ != "fade") || uuid in v.actions then v
    else View(v.actions[uuid := Info(typ, meta)], v.order + [uuid])
  }

  /** A command's effect on types, metadata and order. */
  function ProcessView(v: View, cmd: Command): View {
    match cmd
    case CreateActionWithUuid(typ, uuid) => CreateInfo(v, typ, uuid, NEW_META)
    case CreateActionWithExtras(typ, uuid, _) => CreateInfo(v, typ, uuid, NEW_META)
    case ReviveAction(uuid, typ, meta, _) => CreateInfo(v, typ, uuid, meta)
    case UpdateActionMetadata(uuid, meta) =>
      if uuid in v.actions then v.(actions := v.actions[uuid := v.actions[uuid].(meta := meta)]) else v
    case DeleteAction(uuid) => View(v.actions - {uuid}, Without(v.order, uuid))
    case ReorderAction(uuid, newPos) => v.(order := Reordered(v.order, uuid, newPos))
    case _ => v
  }

  lemma CreateOnView(media: Media, d: Doc, typ: string, uuid: nat, params: Option<ActionParameters>,
                     meta: Option<ActionMetadata>)
    ensures ViewOf(CreateAction(media, d, typ, uuid, params, meta))
            == CreateInfo(ViewOf(d), typ, uuid, match meta case Some(m) => m case None => NEW_META)
  {
    var d' := CreateAction(media, d, typ, uuid, params, meta);
    if d' != d {
      assert d'.actions.Keys == d.actions.Keys + {uuid};
      assert forall u :: u in d.actions && u != uuid ==> d'.actions[u] == d.actions[u];
    }
  }

  /** Parameters never influence types, metadata or order. */
  lemma ProcessOnView(media: Media, d: Doc, cmd: Command)
    ensures ViewOf(Process(media, d, cmd)) == ProcessView(ViewOf(d), cmd)
  {
    match cmd
    case CreateActionWithUuid(typ, uuid) => CreateOnView(media, d, typ, uuid, None, None);
    case CreateActionWithExtras(typ, uuid, params) => CreateOnView(media, d, typ, uuid, Some(params), None);
    case ReviveAction(uuid, typ, meta, params) => CreateOnView(media, d, typ, uuid, Some(params), Some(meta));
    case _ =>
      hide CreateAction, Reordered, Without;
      var d', v' := ViewOf(Process(media, d, cmd)), ProcessView(ViewOf(d), cmd);
      assert d'.actions.Keys == v'.actions.Keys;
      assert forall u :: u in d'.actions ==> d'.actions[u] == v'.actions[u];
  }

  /** The order lists each action exactly once. */
  ghost predicate OrderAgrees(v: View) {
    && NoDup(v.order)
    && (forall u :: u in v.order <==> u in v.actions)
  }

  // ---- facts about the order list ----

  lemma RemoveAtFacts(order: seq<nat>, pos: nat)
    requires pos < |order|
    ensures multiset(RemoveAt(order, pos)) == multiset(order) - multiset{order[pos]}
    ensures NoDup(order) ==>
              && NoDup(RemoveAt(order, pos))
              && forall u :: u in RemoveAt(order, pos) <==> u in order && u != order[pos]
  {
    assert order == order[..pos] + [order[pos]] + order[pos + 1..];
    if NoDup(order) {
      var r := RemoveAt(order, pos);
      assert forall i :: 0 <= i < |r| ==> r[i] == order[if i < pos then i else i + 1];
      assert forall j :: 0 <= j < |order| && j != pos ==> order[j] == r[if j < pos then j else j - 1];
    }
  }

  lemma InsertAtMultiset(order: seq<nat>, pos: nat, u: nat)
    requires pos <= |order|
    ensures multiset(InsertAt(order, pos, u)) == multiset(order) + multiset{u}
  {
    assert order == order[..pos] + order[pos..];
  }

  lemma InsertAtFacts(order: seq<nat>, pos: nat, u: nat)
    requires pos <= |order|
    ensures multiset(InsertAt(order, pos, u)) == multiset(order) + multiset{u}
    ensures NoDup(order) && u !in order ==> NoDup(InsertAt(order, pos, u))
    ensures forall x :: x in InsertAt(order, pos, u) <==> x in order || x == u
  {
    var r := InsertAt(order, pos, u);
    InsertAtMultiset(order, pos, u);
    forall x ensures x in r <==> x in order || x == u {
      assert x in r <==> x in multiset(r);
      assert x in order <==> x in multiset(order);
    }
    if NoDup(order) && u !in order {
      InsertAtNoDup(order, pos, u);
    }
  }

  lemma InsertAtNoDup(order: seq<nat>, pos: nat, u: nat)
    requires pos <= |order| && NoDup(order) && u !in order
    ensures NoDup(InsertAt(order, pos, u))
  {
    var r := InsertAt(order, pos, u);
    forall i, j | 0 <= i < j < |r| ensures r[i] != r[j] {
      assert i != pos ==> r[i] == order[if i < pos then i else i - 1];
      assert j != pos ==> r[j] == order[if j < pos then j else j - 1];
    }
  }

  lemma UniquePosition(order: seq<nat>, u: nat, i: nat)
    requires NoDup(order) && i < |order| && order[i] == u
    ensures PositionOf(order, u) == Some(i)
  {
  }

  lemma InsertUndoesRemove(order: seq<nat>, pos: nat)
    requires pos < |order|
    ensures InsertAt(RemoveAt(order, pos), pos, order[pos]) == order
  {
  }

  lemma RemoveUndoesInsert(rest: seq<nat>, pos: nat, u: nat)
    requires pos <= |rest|
    ensures |InsertAt(rest, pos, u)| == |rest| + 1 && InsertAt(rest, pos, u)[pos] == u
    ensures RemoveAt(InsertAt(rest, pos, u), pos) == rest
  {
  }

  /** Moving an element and moving it back is the identity. */
  lemma ReorderInverse(order: seq<nat>, u: nat, newPos: nat)
    requires NoDup(order) && u in order
    ensures Reordered(Reordered(order, u, newPos), u, PositionOf(order, u).value) == order
  {
    hide InsertAt, RemoveAt;
    var pos := PositionOf(order, u).value;
    RemoveAtFacts(order, pos);
    InsertUndoesRemove(order, pos);
    if newPos < |order| {
      var rest := RemoveAt(order, pos);
      RemoveLength(order, pos);
      var moved := InsertAt(rest, newPos, u);
      InsertAtFacts(rest, newPos, u);
      RemoveUndoesInsert(rest, newPos, u);
      UniquePosition(moved, u, newPos);
    }
  }

  lemma RemoveLength(order: seq<nat>, pos: nat)
    requires pos < |order|
    ensures |RemoveAt(order, pos)| == |order| - 1
  {
  }

  lemma ReorderKeeps(order: seq<nat>, u: nat, newPos: nat)
    ensures multiset(Reordered(order, u, newPos)) == multiset(order)
    ensures NoDup(order) ==> NoDup(Reordered(order, u, newPos))
    ensures forall x :: x in Reordered(order, u, newPos) <==> x in order
  {
    var pos := PositionOf(order, u);
    if pos.Some? && newPos < |order| {
      RemoveAtFacts(order, pos.value);
      InsertAtFacts(RemoveAt(order, pos.value), newPos, u);
      assert multiset(Reordered(order, u, newPos)) == multiset(order);
      forall x ensures x in Reordered(order, u, newPos) <==> x in order {
        assert x in Reordered(order, u, newPos) <==> x in multiset(Reordered(order, u, newPos));
        assert x in order <==> x in multiset(order);
      }
    }
  }

  /** Every command keeps the order list in step with the actions, so the assertions that guard
      insertion never fire. */
  lemma ProcessKeepsOrder(v: View, cmd: Command)
    requires OrderAgrees(v)
    ensures OrderAgrees(ProcessView(v, cmd))
  {
    match cmd
    case DeleteAction(uuid) =>
      if uuid in v.order { RemoveAtFacts(v.order, PositionOf(v.order, uuid).value); }
    case ReorderAction(uuid, newPos) => ReorderKeeps(v.order, uuid, newPos);
    case _ =>
  }

  // ---- each change inverts its command ----

  /** Equal, or equal up to the order of the list. */
  ghost predicate Same(exact: bool, a: View, b: View) {
    a.actions == b.actions && (if exact then a.order == b.order else multiset(a.order) == multiset(b.order))
  }

  /** The commands covered: creations must use a fresh uuid; deletions only give back the order up to
      permutation; no description may pass for the sentinel. */
  ghost predicate Covered(exact: bool, v: View, cmd: Command) {
    && !cmd.UndoCommand? && !cmd.RedoCommand?
    && (Creates(cmd) ==> cmd.uuid !in v.actions)
    && (cmd.DeleteAction? ==> !exact)
    && (cmd.UpdateActionParams? ==> cmd.desc != Some(GUTTER))
  }

  lemma WithoutMultiset(order: seq<nat>, u: nat)
    ensures multiset(Without(order, u)) == multiset(order) - multiset{u}
  {
    if u in order {
      RemoveAtFacts(order, PositionOf(order, u).value);
    }
  }

  lemma CreateRespectsSame(a: View, b: View, typ: string, uuid: nat, meta: ActionMetadata)
    requires Same(false, a, b)
    ensures Same(false, CreateInfo(a, typ, uuid, meta), CreateInfo(b, typ, uuid, meta))
  {
  }

  /** Commands do the same to documents that are the same. */
  lemma ProcessRespectsSame(exact: bool, a: View, b: View, cmd: Command)
    requires Same(exact, a, b)
    ensures Same(exact, ProcessView(a, cmd), ProcessView(b, cmd))
  {
    hide Without, Reordered, CreateInfo;
    if exact {
      assert a == b;
    } else {
      match cmd
      case CreateActionWithUuid(typ, uuid) => CreateRespectsSame(a, b, typ, uuid, NEW_META);
      case CreateActionWithExtras(typ, uuid, _) => CreateRespectsSame(a, b, typ, uuid, NEW_META);
      case ReviveAction(uuid, typ, meta, _) => CreateRespectsSame(a, b, typ, uuid, meta);
      case DeleteAction(uuid) => WithoutMultiset(a.order, uuid); WithoutMultiset(b.order, uuid);
      case ReorderAction(uuid, newPos) => ReorderKeeps(a.order, uuid, newPos); ReorderKeeps(b.order, uuid, newPos);
      case _ =>
    }
  }

  lemma CreateThenDelete(v: View, typ: string, uuid: nat, meta: ActionMetadata)
    requires OrderAgrees(v) && uuid !in v.actions
    ensures ProcessView(CreateInfo(v, typ, uuid, meta), DeleteAction(uuid)) == v
  {
    var created := CreateInfo(v, typ, uuid, meta);
    if created != v {
      var n := |v.order|;
      UniquePosition(created.order, uuid, n);
      assert RemoveAt(created.order, n) == v.order;
      assert created.actions - {uuid} == v.actions;
    } else {
      assert v.actions - {uuid} == v.actions;
    }
  }

  lemma DeleteThenRevive(d: Doc, uuid: nat)
    requires OrderAgrees(ViewOf(d)) && uuid in d.actions
    ensures var a := d.actions[uuid];
            Same(false, CreateInfo(ProcessView(ViewOf(d), DeleteAction(uuid)), Typ(a.params), uuid, a.meta), ViewOf(d))
  {
    hide Without;
    var v, info := ViewOf(d), InfoOf(d.actions[uuid]);
    assert uuid in v.order;
    var order := Without(v.order, uuid);
    WithoutMultiset(v.order, uuid);
    assert multiset(order + [uuid]) == multiset(order) + multiset{uuid};
    assert (v.actions - {uuid})[uuid := info] == v.actions;
  }

  /** The recorded change takes the document back, and forward again; and it is never the sentinel. */
  lemma ChangeInverts(exact: bool, d: Doc, mixer: MixerConf, cmd: Command)
    requires OrderAgrees(ViewOf(d)) && Covered(exact, ViewOf(d), cmd) && AsUndoable(d, mixer, cmd).Some?
    ensures
      var ch, v := AsUndoable(d, mixer, cmd).value, ViewOf(d);
      && Same(exact, ProcessView(ProcessView(v, cmd), ch.undo), v)
      && ProcessView(v, ch.redo) == ProcessView(v, cmd)
      && ch.desc != GUTTER
  {
    hide Reordered, Without, CreateInfo;
    var v := ViewOf(d);
    match cmd
    case CreateActionWithUuid(typ, uuid) => CreateThenDelete(v, typ, uuid, NEW_META); DescsDiffer(typ);
    case CreateActionWithExtras(typ, uuid, _) => CreateThenDelete(v, typ, uuid, NEW_META); DescsDiffer(typ);
    case ReviveAction(uuid, typ, meta, _) => CreateThenDelete(v, typ, uuid, meta); DescsDiffer(typ);
    case UpdateActionMetadata(uuid, meta) =>
      assert v.actions[uuid := v.actions[uuid].(meta := meta)][uuid := v.actions[uuid]] == v.actions;
    case DeleteAction(uuid) => DeleteThenRevive(d, uuid);
    case ReorderAction(uuid, newPos) => ReorderInverse(v.order, uuid, newPos);
    case _ =>
  }

  lemma DescsDiffer(typ: string)
    ensures "create action with type " + typ != GUTTER && "revive action of type " + typ != GUTTER
  {
    assert ("create action with type " + typ)[0] == 'c';
    assert ("revive action of type " + typ)[0] == 'r';
  }

  /** A creation with a taken uuid is recorded all the same: its undo deletes the older action. The
      recorded change is an inverse exactly when the uuid was free. */
  lemma CreateInvertsIffFresh(d: Doc, mixer: MixerConf, cmd: Command)
    requires OrderAgrees(ViewOf(d)) && Creates(cmd)
    ensures
      Same(false, ProcessView(ProcessView(ViewOf(d), cmd), AsUndoable(d, mixer, cmd).value.undo), ViewOf(d))
      <==> cmd.uuid !in d.actions
  {
    var v := ViewOf(d);
    if cmd.uuid in d.actions {
      assert cmd.uuid in v.actions && cmd.uuid !in (v.actions - {cmd.uuid});
    } else {
      CreateThenDelete(v, cmd.typ, cmd.uuid, if cmd.ReviveAction? then cmd.meta else NEW_META);
    }
  }

  /** Deleting an action whose uuid the order names more than once leaves the uuid in the order. */
  lemma StillNamedIff(order: seq<nat>, u: nat)
    ensures PositionOf(Without(order, u), u).Some? <==> multiset(order)[u] >= 2
  {
    WithoutMultiset(order, u);
    assert u in Without(order, u) <==> u in multiset(Without(order, u));
  }

  /** A deletion comes back at the end of the order: the inverse is exact only for the last action. */
  lemma DeleteInvertsExactlyIffLast(d: Doc, mixer: MixerConf, uuid: nat)
    requires OrderAgrees(ViewOf(d)) && uuid in d.actions
    ensures
      var v := ViewOf(d);
      Same(true, ProcessView(ProcessView(v, DeleteAction(uuid)), AsUndoable(d, mixer, DeleteAction(uuid)).value.undo),
           v)
      <==> d.order[|d.order| - 1] == uuid
  {
    var v := ViewOf(d);
    DeleteThenRevive(d, uuid);
    assert uuid in v.order;
    var pos := PositionOf(v.order, uuid).value;
    var n := |v.order| - 1;
    var back := RemoveAt(v.order, pos) + [uuid];
    assert back[n] == uuid;
    if v.order[n] == uuid {
      assert pos == n;
      assert back == v.order;
    }
  }
}
