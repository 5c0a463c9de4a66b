/** A server session: commands from outside are recorded, then carried out; undo and redo replay the
    recorded changes. What any run of them does to the document. */
module Session {
  import opened Containers
  import opened History
  import opened Document
  import opened Playback

  datatype Env = Env(media: Media, applyConf: (MixerConf, MixerConf) -> MixerConf)

  datatype State = State(doc: Doc, log: Log<Command>, mixer: MixerConf)

  function ProcessIn(env: Env, s: State, cmd: Command): State {
    s.(doc := Process(env.media, s.doc, cmd),
       mixer := if cmd.SetMixerConf? then env.applyConf(s.mixer, cmd.conf) else s.mixer)
  }

  function Record(s: State, cmd: Command): State
    requires Valid(s.log)
  {
    match AsUndoable(s.doc, s.mixer, cmd)
    case None => s
    case Some(ch) => s.(log := Register(s.log, ch))
  }

  /** One command from outside; None is the cursor underflow. */
  function External(env: Env, s: State, cmd: Command): (r: Option<State>)
    requires Valid(s.log)
    ensures r.Some? ==> Valid(r.value.log)
  {
    match cmd
    case UndoCommand =>
      (match Undo(s.log)
       case Stay => Some(s)
       case Underflow => None
       case Go(l, c) => Some(ProcessIn(env, s.(log := l), c)))
    case RedoCommand =>
      (match Redo(s.log)
       case Go(l, c) => Some(ProcessIn(env, s.(log := l), c))
       case _ => Some(s))
    case _ => Some(ProcessIn(env, Record(s, cmd), cmd))
  }

  function Run(env: Env, s: State, cmds: seq<Command>): (r: Option<State>)
    requires Valid(s.log)
    ensures r.Some? ==> Valid(r.value.log)
  {
    if cmds == [] then Some(s)
    else
      match Run(env, s, cmds[..|cmds| - 1])
      case None => None
      case Some(m) => External(env, m, cmds[|cmds| - 1])
  }

  // ---- the timeline behind a session ----

  ghost predicate Inverts(exact: bool, before: View, ch: Change, after: View) {
    && Same(exact, ProcessView(after, ch.undo), before)
    && Same(exact, ProcessView(before, ch.redo), after)
  }

  /** `docs[i]` is the document after change i; the session is at the cursor, and each change leads
      between its neighbours in both directions. */
  ghost predicate Coherent(exact: bool, s: State, docs: seq<View>) {
    && Proper(s.log)
    && |docs| == |s.log.changes|
    && (forall i :: 0 <= i < |docs| ==> OrderAgrees(docs[i]))
    && OrderAgrees(ViewOf(s.doc))
    && Same(exact, ViewOf(s.doc), docs[Cursor(s.log)])
    && (forall i :: 1 <= i < |docs| ==> Inverts(exact, docs[i - 1], s.log.changes[i], docs[i]))
  }

  /** Some timeline makes the session coherent. */
  ghost predicate Fits(exact: bool, s: State) {
    exists docs :: Coherent(exact, s, docs)
  }

  /** A fresh history over any orderly document is coherent. */
  lemma FreshCoherent(exact: bool, s: State)
    requires s.log == New(Ping) && OrderAgrees(ViewOf(s.doc))
    ensures Coherent(exact, s, [ViewOf(s.doc)])
  {
  }

  ghost predicate Recorded(s: State, cmd: Command) {
    AsUndoable(s.doc, s.mixer, cmd).Some?
  }

  ghost predicate Accepts(exact: bool, s: State, cmd: Command) {
    cmd.UndoCommand? || cmd.RedoCommand? || Covered(exact, ViewOf(s.doc), cmd)
  }

  /** The timeline cut at the cursor and continued by one document; the oldest may be evicted. */
  ghost function Continued(log: Log<Command>, docs: seq<View>, after: View): seq<View>
    requires Valid(log) && |docs| == |log.changes|
  {
    var kept := docs[..Cursor(log) + 1] + [after];
    if |kept| > MAX_UNDOS then kept[1..] else kept
  }

  ghost function DocsAfter(env: Env, s: State, docs: seq<View>, cmd: Command): seq<View>
    requires Valid(s.log) && |docs| == |s.log.changes|
  {
    if !Recorded(s, cmd) then docs else Continued(s.log, docs, ViewOf(Process(env.media, s.doc, cmd)))
  }

  /** A command that is not recorded leaves the document's view alone. */
  lemma UnrecordedChangesNothing(env: Env, s: State, cmd: Command)
    requires !Recorded(s, cmd) && OrderAgrees(ViewOf(s.doc))
    ensures ViewOf(Process(env.media, s.doc, cmd)) == ViewOf(s.doc)
  {
    ProcessOnView(env.media, s.doc, cmd);
    var v := ViewOf(s.doc);
    if cmd.DeleteAction? {
      assert cmd.uuid !in v.order;
      assert v.actions - {cmd.uuid} == v.actions;
    }
  }

  lemma RecordedCoherent(env: Env, exact: bool, s: State, docs: seq<View>, cmd: Command)
    requires Coherent(exact, s, docs) && Covered(exact, ViewOf(s.doc), cmd) && Recorded(s, cmd)
    ensures Coherent(exact, External(env, s, cmd).value, DocsAfter(env, s, docs, cmd))
  {
    var v, c := ViewOf(s.doc), Cursor(s.log);
    var ch := AsUndoable(s.doc, s.mixer, cmd).value;
    var after := ViewOf(Process(env.media, s.doc, cmd));
    ChangeInverts(exact, s.doc, s.mixer, cmd);
    ProcessOnView(env.media, s.doc, cmd);
    ProcessKeepsOrder(v, cmd);
    InvertsFromCursor(exact, v, docs[c], ch, after);
    ContinuedCoherent(exact, s, docs, ch, External(env, s, cmd).value);
    hide Process, ProcessView, AsUndoable, Same, Inverts, OrderAgrees, Register, Coherent;
  }

  lemma ContinuedCoherent(exact: bool, s: State, docs: seq<View>, ch: Change, s': State)
    requires Coherent(exact, s, docs) && ch.desc != GUTTER && s'.log == Register(s.log, ch)
    requires OrderAgrees(ViewOf(s'.doc)) && Inverts(exact, docs[Cursor(s.log)], ch, ViewOf(s'.doc))
    ensures Coherent(exact, s', Continued(s.log, docs, ViewOf(s'.doc)))
  {
    hide Process, ProcessView, Abstract, Same, Inverts, OrderAgrees;
    var c, after := Cursor(s.log), ViewOf(s'.doc);
    RegisterPushes(s.log, ch);
    SameReflexive(exact, after);
    var kept := docs[..c + 1] + [after];
    var changes := s.log.changes[..c + 1] + [ch];
    assert s.log.idx.None? ==> s.log.changes[..c + 1] == s.log.changes;
    assert forall i :: 1 <= i < |kept| ==> Inverts(exact, kept[i - 1], changes[i], kept[i]);
  }

  lemma SameReflexive(exact: bool, v: View)
    ensures Same(exact, v, v)
  {
  }

  lemma InvertsFromCursor(exact: bool, v: View, d: View, ch: Change, after: View)
    requires Same(exact, v, d) && Same(exact, ProcessView(after, ch.undo), v) && ProcessView(v, ch.redo) == after
    ensures Inverts(exact, d, ch, after)
  {
    ProcessRespectsSame(exact, v, d, ch.redo);
  }

  lemma UnrecordedCoherent(env: Env, exact: bool, s: State, docs: seq<View>, cmd: Command)
    requires Coherent(exact, s, docs) && Covered(exact, ViewOf(s.doc), cmd) && !Recorded(s, cmd)
    ensures Coherent(exact, External(env, s, cmd).value, docs)
  {
    UnrecordedChangesNothing(env, s, cmd);
  }

  lemma UndoCoherent(env: Env, exact: bool, s: State, docs: seq<View>)
    requires Coherent(exact, s, docs) && Undo(s.log).Go?
    ensures
      var s' := External(env, s, UndoCommand).value;
      Coherent(exact, s', docs) && Cursor(s'.log) == Cursor(s.log) - 1 && s'.log.changes == s.log.changes
  {
    hide Process, ProcessView, Abstract;
    var c := Cursor(s.log);
    var cmd := s.log.changes[c].undo;
    ProcessOnView(env.media, s.doc, cmd);
    ProcessRespectsSame(exact, ViewOf(s.doc), docs[c], cmd);
    ProcessKeepsOrder(ViewOf(s.doc), cmd);
    assert Inverts(exact, docs[c - 1], s.log.changes[c], docs[c]);
  }

  lemma RedoCoherent(env: Env, exact: bool, s: State, docs: seq<View>)
    requires Coherent(exact, s, docs) && Redo(s.log).Go?
    ensures
      var s' := External(env, s, RedoCommand).value;
      Coherent(exact, s', docs) && Cursor(s'.log) == Cursor(s.log) + 1 && s'.log.changes == s.log.changes
  {
    hide Process, ProcessView, Abstract;
    var c := Cursor(s.log);
    var cmd := s.log.changes[c + 1].redo;
    ProcessOnView(env.media, s.doc, cmd);
    ProcessRespectsSame(exact, ViewOf(s.doc), docs[c], cmd);
    ProcessKeepsOrder(ViewOf(s.doc), cmd);
    assert Inverts(exact, docs[c], s.log.changes[c + 1], docs[c + 1]);
  }

  lemma StepCoherent(env: Env, exact: bool, s: State, docs: seq<View>, cmd: Command)
    requires Coherent(exact, s, docs) && Accepts(exact, s, cmd) && External(env, s, cmd).Some?
    ensures Fits(exact, External(env, s, cmd).value)
  {
    match cmd
    case UndoCommand =>
      if Undo(s.log).Go? { UndoCoherent(env, exact, s, docs); } else { assert External(env, s, cmd).value == s; }
      assert Coherent(exact, External(env, s, cmd).value, docs);
    case RedoCommand =>
      if Redo(s.log).Go? { RedoCoherent(env, exact, s, docs); } else { assert External(env, s, cmd).value == s; }
      assert Coherent(exact, External(env, s, cmd).value, docs);
    case _ =>
      if Recorded(s, cmd) { RecordedCoherent(env, exact, s, docs, cmd); }
        else { UnrecordedCoherent(env, exact, s, docs, cmd); }
      assert Coherent(exact, External(env, s, cmd).value, DocsAfter(env, s, docs, cmd));
  }

  ghost predicate AllAccepted(env: Env, exact: bool, s: State, cmds: seq<Command>)
    requires Valid(s.log)
  {
    cmds != [] ==>
      var init := cmds[..|cmds| - 1];
      AllAccepted(env, exact, s, init)
        && (Run(env, s, init).Some? ==> Accepts(exact, Run(env, s, init).value, cmds[|cmds| - 1]))
  }

  /** Any interleaving of covered commands, undos and redos keeps the session coherent. */
  lemma {:induction false} RunCoherent(env: Env, exact: bool, s: State, docs: seq<View>, cmds: seq<Command>)
    requires Coherent(exact, s, docs) && AllAccepted(env, exact, s, cmds) && Run(env, s, cmds).Some?
    ensures Fits(exact, Run(env, s, cmds).value)
  {
    if cmds == [] {
      assert Coherent(exact, s, docs);
    } else {
      var init := cmds[..|cmds| - 1];
      RunCoherent(env, exact, s, docs, init);
      var mid := Run(env, s, init).value;
      var docs1 :| Coherent(exact, mid, docs1);
      StepCoherent(env, exact, mid, docs1, cmds[|cmds| - 1]);
    }
  }

  // ---- going back and forth ----

  function Times(cmd: Command, n: nat): (r: seq<Command>)
    ensures |r| == n
  {
    seq(n, _ => cmd)
  }

  lemma TimesSnoc(cmd: Command, n: nat)
    requires n > 0
    ensures Times(cmd, n)[..n - 1] == Times(cmd, n - 1) && Times(cmd, n)[n - 1] == cmd
  {
  }

  /** n undos reach the document n changes ago, whatever came before. */
  lemma {:induction false} UndosGoBack(env: Env, exact: bool, s: State, docs: seq<View>, n: nat)
    requires Coherent(exact, s, docs) && n <= Cursor(s.log)
    ensures
      var r := Run(env, s, Times(UndoCommand, n));
      && r.Some? && Coherent(exact, r.value, docs) && r.value.log.changes == s.log.changes
      && Cursor(r.value.log) == Cursor(s.log) - n
      && Same(exact, ViewOf(r.value.doc), docs[Cursor(s.log) - n])
  {
    hide Inverts, OrderAgrees, Process, ProcessView;
    if n > 0 {
      UndosGoBack(env, exact, s, docs, n - 1);
      TimesSnoc(UndoCommand, n);
      UndoCoherent(env, exact, Run(env, s, Times(UndoCommand, n - 1)).value, docs);
    }
  }

  lemma {:induction false} RedosGoForth(env: Env, exact: bool, s: State, docs: seq<View>, m: nat)
    requires Coherent(exact, s, docs) && Cursor(s.log) + m < |docs|
    ensures
      var r := Run(env, s, Times(RedoCommand, m));
      && r.Some? && Coherent(exact, r.value, docs) && r.value.log.changes == s.log.changes
      && Cursor(r.value.log) == Cursor(s.log) + m
      && Same(exact, ViewOf(r.value.doc), docs[Cursor(s.log) + m])
  {
    hide Inverts, OrderAgrees, Process, ProcessView;
    if m > 0 {
      RedosGoForth(env, exact, s, docs, m - 1);
      TimesSnoc(RedoCommand, m);
      RedoCoherent(env, exact, Run(env, s, Times(RedoCommand, m - 1)).value, docs);
    }
  }

  // ---- whole histories ----

  /** Every command is covered and leaves an undoable change. */
  ghost predicate Undoables(env: Env, exact: bool, s: State, cmds: seq<Command>)
    requires Valid(s.log)
  {
    cmds != [] ==>
      var init := cmds[..|cmds| - 1];
      && Undoables(env, exact, s, init)
      && Run(env, s, init).Some?
      && Covered(exact, ViewOf(Run(env, s, init).value.doc), cmds[|cmds| - 1])
      && Recorded(Run(env, s, init).value, cmds[|cmds| - 1])
  }

  ghost function DocsAfterAll(env: Env, s: State, docs: seq<View>, cmds: seq<Command>): (r: seq<View>)
    requires Valid(s.log) && Run(env, s, cmds).Some? && Cursor(s.log) < |docs|
    ensures |r| == Cursor(s.log) + 1 + |cmds|
  {
    if cmds == [] then docs[..Cursor(s.log) + 1]
    else DocsAfterAll(env, s, docs, cmds[..|cmds| - 1]) + [ViewOf(Run(env, s, cmds).value.doc)]
  }

  lemma {:induction false} DocsAreStates(env: Env, s: State, docs: seq<View>, cmds: seq<Command>, k: nat)
    requires Valid(s.log) && Run(env, s, cmds).Some? && Cursor(s.log) < |docs| && docs[Cursor(s.log)] == ViewOf(s.doc)
    requires k <= |cmds|
    ensures Run(env, s, cmds[..k]).Some?
    ensures DocsAfterAll(env, s, docs, cmds)[Cursor(s.log) + k] == ViewOf(Run(env, s, cmds[..k]).value.doc)
  {
    if k == |cmds| {
      assert cmds[..k] == cmds;
    } else {
      var init := cmds[..|cmds| - 1];
      assert init[..k] == cmds[..k];
      DocsAreStates(env, s, docs, init, k);
    }
  }

  /** A recorded command at the end of the history, with room for it, adds its document. */
  lemma OneMore(env: Env, exact: bool, s: State, docs: seq<View>, cmd: Command)
    requires Coherent(exact, s, docs) && Cursor(s.log) == |docs| - 1 && |docs| < MAX_UNDOS
    requires Covered(exact, ViewOf(s.doc), cmd) && Recorded(s, cmd)
    ensures
      var r := External(env, s, cmd);
      && r.Some? && Cursor(r.value.log) == |docs|
      && Coherent(exact, r.value, docs + [ViewOf(r.value.doc)])
  {
    RecordedCoherent(env, exact, s, docs, cmd);
    assert docs[..Cursor(s.log) + 1] == docs;
    hide Process, AsUndoable, Same, Inverts, OrderAgrees, Covered, ViewOf;
  }

  lemma {:induction false} HistoryCoherent(env: Env, exact: bool, s: State, docs: seq<View>, cmds: seq<Command>)
    requires Coherent(exact, s, docs) && Cursor(s.log) == |docs| - 1
    requires Undoables(env, exact, s, cmds) && Cursor(s.log) + |cmds| < MAX_UNDOS
    ensures
      var r := Run(env, s, cmds);
      && r.Some? && Cursor(r.value.log) == Cursor(s.log) + |cmds|
      && Coherent(exact, r.value, DocsAfterAll(env, s, docs, cmds))
  {
    hide External, Covered, Recorded, Inverts, OrderAgrees, Same, Cursor;
    if cmds == [] {
      assert docs[..Cursor(s.log) + 1] == docs;
    } else {
      var init, last := cmds[..|cmds| - 1], cmds[|cmds| - 1];
      HistoryCoherent(env, exact, s, docs, init);
      OneMore(env, exact, Run(env, s, init).value, DocsAfterAll(env, s, docs, init), last);
    }
  }

  /** The whole-run theorem. After any history of covered, undoable commands with nothing evicted, n
      undos give the types, metadata and order of n commands ago, and m redos bring back those of
      n - m commands ago: exactly, or with deletions among the commands, up to the order. */
  lemma UndoTheorem(env: Env, exact: bool, s: State, docs: seq<View>, cmds: seq<Command>, n: nat, m: nat)
    requires Coherent(exact, s, docs) && Cursor(s.log) == |docs| - 1 && docs[Cursor(s.log)] == ViewOf(s.doc)
    requires Undoables(env, exact, s, cmds) && Cursor(s.log) + |cmds| < MAX_UNDOS
    requires m <= n <= |cmds|
    ensures Run(env, s, cmds).Some?
    ensures Run(env, s, cmds[..|cmds| - n]).Some? && Run(env, s, cmds[..|cmds| - n + m]).Some?
    ensures
      var back := Run(env, Run(env, s, cmds).value, Times(UndoCommand, n));
      && back.Some?
      && Same(exact, ViewOf(back.value.doc), ViewOf(Run(env, s, cmds[..|cmds| - n]).value.doc))
      && var forth := Run(env, back.value, Times(RedoCommand, m));
         && forth.Some?
         && Same(exact, ViewOf(forth.value.doc), ViewOf(Run(env, s, cmds[..|cmds| - n + m]).value.doc))
  {
    hide Same, Undoables, ViewOf, Times, Inverts, OrderAgrees, External;
    HistoryCoherent(env, exact, s, docs, cmds);
    var c, k := Cursor(s.log), |cmds| - n;
    var end, all := Run(env, s, cmds).value, DocsAfterAll(env, s, docs, cmds);
    DocsAreStates(env, s, docs, cmds, k);
    DocsAreStates(env, s, docs, cmds, k + m);
    BackAndForth(env, exact, end, all, n, m);
    assert Cursor(end.log) - n == c + k && Cursor(end.log) - n + m == c + (k + m);
  }

  /** The same from a new session, within the limit. */
  lemma UndoFromNew(env: Env, exact: bool, s: State, cmds: seq<Command>, n: nat, m: nat)
    requires s.log == New(Ping) && OrderAgrees(ViewOf(s.doc))
    requires Undoables(env, exact, s, cmds) && |cmds| < MAX_UNDOS && m <= n <= |cmds|
    ensures Run(env, s, cmds).Some?
    ensures Run(env, s, cmds[..|cmds| - n]).Some? && Run(env, s, cmds[..|cmds| - n + m]).Some?
    ensures
      var back := Run(env, Run(env, s, cmds).value, Times(UndoCommand, n));
      && back.Some?
      && Same(exact, ViewOf(back.value.doc), ViewOf(Run(env, s, cmds[..|cmds| - n]).value.doc))
      && var forth := Run(env, back.value, Times(RedoCommand, m));
         && forth.Some?
         && Same(exact, ViewOf(forth.value.doc), ViewOf(Run(env, s, cmds[..|cmds| - n + m]).value.doc))
  {
    hide Undoables, Same, ViewOf, Times, OrderAgrees, Coherent, Run;
    FreshCoherent(exact, s);
    UndoTheorem(env, exact, s, [ViewOf(s.doc)], cmds, n, m);
  }

  lemma BackAndForth(env: Env, exact: bool, s: State, docs: seq<View>, n: nat, m: nat)
    requires Coherent(exact, s, docs) && m <= n <= Cursor(s.log)
    ensures
      var back := Run(env, s, Times(UndoCommand, n));
      && back.Some? && Same(exact, ViewOf(back.value.doc), docs[Cursor(s.log) - n])
      && var forth := Run(env, back.value, Times(RedoCommand, m));
         && forth.Some? && Same(exact, ViewOf(forth.value.doc), docs[Cursor(s.log) - n + m])
  {
    hide Same, ViewOf, Times, Inverts, OrderAgrees, Run;
    UndosGoBack(env, exact, s, docs, n);
    RedosGoForth(env, exact, Run(env, s, Times(UndoCommand, n)).value, docs, m);
  }

  // ---- descriptions ----

  lemma DescriptionIff(d: Doc, mixer: MixerConf, cmd: Command)
    requires AsUndoable(d, mixer, cmd).Some?
    ensures AsUndoable(d, mixer, cmd).value.desc == GUTTER <==> cmd.UpdateActionParams? && cmd.desc == Some(GUTTER)
  {
    if Creates(cmd) {
      DescsDiffer(cmd.typ);
    }
    assert "update action parameters"[0] == 'u' && "update action metadata"[0] == 'u' && "delete action"[0] == 'd';
    assert "modify mixer configuration"[0] == 'm' && "reorder action"[0] == 'r' && GUTTER[0] == 'n';
  }

  /** A change just recorded cannot be undone if and only if it is a parameter update whose description is
      the one reserved for the beginning of the history. */
  lemma UndoStaysIff(env: Env, s: State, cmd: Command)
    requires Valid(s.log) && Recorded(s, cmd)
    ensures
      var after := External(env, s, cmd);
      after.Some? && (Undo(after.value.log) == Stay <==> cmd.UpdateActionParams? && cmd.desc == Some(GUTTER))
  {
    DescriptionIff(s.doc, s.mixer, cmd);
  }

  // ---- a change undone at once ----

  /** A recorded change undone at once: the recorded command is carried out on what the change made, and
      the mixer is configured as it was before. */
  lemma UndoneAtOnce(env: Env, s: State, cmd: Command)
    requires Valid(s.log) && Recorded(s, cmd) && !(cmd.UpdateActionParams? && cmd.desc == Some(GUTTER))
    ensures
      var after := External(env, s, cmd);
      && after.Some?
      && var back := External(env, after.value, UndoCommand);
      && back.Some?
      && back.value.doc ==
           Process(env.media, Process(env.media, s.doc, cmd), AsUndoable(s.doc, s.mixer, cmd).value.undo)
      && back.value.mixer ==
         if cmd.SetMixerConf? then env.applyConf(env.applyConf(s.mixer, cmd.conf), s.mixer) else s.mixer
  {
    hide Process;
    var ch := AsUndoable(s.doc, s.mixer, cmd).value;
    var log := Register(s.log, ch);
    DescriptionIff(s.doc, s.mixer, cmd);
    RegisteredLast(s.log, ch);
    assert Undo(log) == Go(log.(idx := Some(Cursor(log) - 1)), ch.undo);
  }

  lemma RegisteredLast(log: Log<Command>, ch: Change)
    requires Valid(log)
    ensures var r := Register(log, ch); Cursor(r) == |r.changes| - 1 >= 1 && r.changes[Cursor(r)] == ch
  {
  }

  /** An update of parameters undone at once gives the document back if and only if setting the old
      parameters again keeps them: media normalisation must, or the fade must have enough fades for the
      target it had in between. */
  lemma ParamsComeBackIff(env: Env, s: State, uuid: nat, params: ActionParameters, desc: Option<string>)
    requires Valid(s.log) && uuid in s.doc.actions && desc != Some(GUTTER)
    ensures
      var after := External(env, s, UpdateActionParams(uuid, params, desc));
      && after.Some?
      && var back := External(env, after.value, UndoCommand);
      && back.Some? && back.value.mixer == s.mixer
      && (back.value.doc == s.doc <==>
          match s.doc.actions[uuid].params
          case AudioPars(o) =>
            env.media.normalise(if params.AudioPars? then env.media.normalise(o, params.audio) else o, o) == o
          case FadePars(o) =>
            TargetChannels(s.doc, uuid, if params.FadePars? then params.fade.target else o.target) <= |o.fades|)
  {
    hide Process, OnlyEdits, PaddedTo, TargetChannels;
    var cmd := UpdateActionParams(uuid, params, desc);
    UpdateUndone(env.media, s.doc, s.mixer, uuid, params, desc);
    UndoneAtOnce(env, s, cmd);
  }

  // ---- when a history fits a document ----

  /** The document after change i, worked out from the one at the cursor by undoing or redoing. */
  function Replayed(log: Log<Command>, v: View, i: nat): View
    requires Valid(log) && i < |log.changes|
    decreases if i <= Cursor(log) then Cursor(log) - i else i - Cursor(log)
  {
    if i == Cursor(log) then v
    else if i < Cursor(log) then ProcessView(Replayed(log, v, i + 1), log.changes[i + 1].undo)
    else ProcessView(Replayed(log, v, i - 1), log.changes[i].redo)
  }

  /** Replaying the history from v, every change leads back and forth between its neighbours. */
  ghost predicate Replays(exact: bool, log: Log<Command>, v: View)
    requires Valid(log)
  {
    forall i :: 1 <= i < |log.changes| ==> Inverts(exact, Replayed(log, v, i - 1), log.changes[i], Replayed(log, v, i))
  }

  lemma {:induction false} ReplayedKeepsOrder(log: Log<Command>, v: View, i: nat)
    requires Valid(log) && i < |log.changes| && OrderAgrees(v)
    ensures OrderAgrees(Replayed(log, v, i))
    decreases if i <= Cursor(log) then Cursor(log) - i else i - Cursor(log)
  {
    hide OrderAgrees, ProcessView;
    if i < Cursor(log) {
      ReplayedKeepsOrder(log, v, i + 1);
      ProcessKeepsOrder(Replayed(log, v, i + 1), log.changes[i + 1].undo);
    } else if i > Cursor(log) {
      ReplayedKeepsOrder(log, v, i - 1);
      ProcessKeepsOrder(Replayed(log, v, i - 1), log.changes[i].redo);
    }
  }

  lemma SameJoins(exact: bool, a: View, b: View, c: View)
    requires Same(exact, a, b)
    ensures Same(exact, b, a)
    ensures Same(exact, b, c) <==> Same(exact, a, c)
    ensures Same(exact, c, b) <==> Same(exact, c, a)
  {
  }

  /** Whatever timeline a history fits is, up to the order, the replayed one. */
  lemma {:induction false} ReplayedSame(exact: bool, s: State, docs: seq<View>, i: nat)
    requires Coherent(exact, s, docs) && i < |docs|
    ensures Same(exact, Replayed(s.log, ViewOf(s.doc), i), docs[i])
    decreases if i <= Cursor(s.log) then Cursor(s.log) - i else i - Cursor(s.log)
  {
    hide OrderAgrees, ProcessView, ViewOf, Same;
    var v, c := ViewOf(s.doc), Cursor(s.log);
    if i < c {
      var undo := s.log.changes[i + 1].undo;
      ReplayedSame(exact, s, docs, i + 1);
      ProcessRespectsSame(exact, Replayed(s.log, v, i + 1), docs[i + 1], undo);
      assert Inverts(exact, docs[i + 1 - 1], s.log.changes[i + 1], docs[i + 1]);
      SameJoins(exact, Replayed(s.log, v, i), ProcessView(docs[i + 1], undo), docs[i]);
    } else if i > c {
      var redo := s.log.changes[i].redo;
      ReplayedSame(exact, s, docs, i - 1);
      ProcessRespectsSame(exact, Replayed(s.log, v, i - 1), docs[i - 1], redo);
      SameJoins(exact, Replayed(s.log, v, i), ProcessView(docs[i - 1], redo), docs[i]);
    }
  }

  lemma InvertsAlike(exact: bool, a: View, ch: Change, b: View, a': View, b': View)
    requires Inverts(exact, a, ch, b) && Same(exact, a', a) && Same(exact, b', b)
    ensures Inverts(exact, a', ch, b')
  {
    hide ProcessView, Same;
    ProcessRespectsSame(exact, b', b, ch.undo);
    SameJoins(exact, ProcessView(b', ch.undo), ProcessView(b, ch.undo), a);
    SameJoins(exact, a', a, ProcessView(b', ch.undo));
    ProcessRespectsSame(exact, a', a, ch.redo);
    SameJoins(exact, ProcessView(a', ch.redo), ProcessView(a, ch.redo), b);
    SameJoins(exact, b', b, ProcessView(a', ch.redo));
  }

  /** A history fits a document if and only if replaying it from there works both ways: the exact
      condition for undo and redo to go on working after any load, failed or not. */
  lemma FitsIff(exact: bool, s: State)
    ensures Fits(exact, s) <==> Proper(s.log) && OrderAgrees(ViewOf(s.doc)) && Replays(exact, s.log, ViewOf(s.doc))
  {
    if Fits(exact, s) {
      var docs :| Coherent(exact, s, docs);
      CoherentReplays(exact, s, docs);
    }
    if Proper(s.log) && OrderAgrees(ViewOf(s.doc)) && Replays(exact, s.log, ViewOf(s.doc)) {
      ReplayedCoherent(exact, s);
    }
  }

  lemma CoherentReplays(exact: bool, s: State, docs: seq<View>)
    requires Coherent(exact, s, docs)
    ensures Replays(exact, s.log, ViewOf(s.doc))
  {
    hide OrderAgrees, ProcessView, ViewOf, Same, Inverts, Replayed;
    var v := ViewOf(s.doc);
    forall i | 1 <= i < |docs|
      ensures Inverts(exact, Replayed(s.log, v, i - 1), s.log.changes[i], Replayed(s.log, v, i))
    {
      ReplayedSame(exact, s, docs, i - 1);
      ReplayedSame(exact, s, docs, i);
      InvertsAlike(exact, docs[i - 1], s.log.changes[i], docs[i], Replayed(s.log, v, i - 1), Replayed(s.log, v, i));
    }
  }

  lemma ReplayedCoherent(exact: bool, s: State)
    requires Proper(s.log) && OrderAgrees(ViewOf(s.doc)) && Replays(exact, s.log, ViewOf(s.doc))
    ensures Fits(exact, s)
  {
    hide OrderAgrees, ProcessView, ViewOf, Same, Inverts;
    var v, n := ViewOf(s.doc), |s.log.changes|;
    var docs := seq(n, i requires 0 <= i < n => Replayed(s.log, v, i));
    forall i | 0 <= i < n ensures OrderAgrees(docs[i]) {
      ReplayedKeepsOrder(s.log, v, i);
    }
    SameReflexive(exact, v);
    assert Coherent(exact, s, docs);
  }

  /** A history whose change at the cursor created an action fits only documents that have it. */
  lemma FittingHasCreation(exact: bool, s: State)
    requires Valid(s.log) && Cursor(s.log) >= 1
    requires
      var cmd := s.log.changes[Cursor(s.log)].redo;
      Creates(cmd) && (cmd.typ == "audio" || cmd.typ == "fade")
    ensures Fits(exact, s) ==> s.log.changes[Cursor(s.log)].redo.uuid in s.doc.actions
  {
    if Fits(exact, s) {
      var c := Cursor(s.log);
      var docs :| Coherent(exact, s, docs);
      var cmd := s.log.changes[c].redo;
      assert Inverts(exact, docs[c - 1], s.log.changes[c], docs[c]);
      assert cmd.uuid in ProcessView(docs[c - 1], cmd).actions;
      assert cmd.uuid in ViewOf(s.doc).actions;
    }
  }
}
