/** Saving a show and loading it back. The maps involved are walked in no particular order. */
module Savefile {
  import opened Containers
  import opened History
  import opened Document
  import opened Playback
  import opened Audio
  import opened Manager
  import Session

  const SAVEFILE_VERSION: string := "indev"

  datatype SavedAction = SavedAction(typ: string, meta: ActionMetadata, params: ActionParameters)

  datatype Savefile = Savefile(ver: string, actions: map<nat, SavedAction>, order: seq<nat>, mixerConf: MixerConf,
                               undo: Log<Command>)

  datatype LoadError = VersionMismatch | BadAction | BadOrder | MixerFailed

  function SavedFrom(a: ActionDoc): SavedAction {
    SavedAction(Typ(a.params), a.meta, a.params)
  }

  function Saved(s: Session.State): Savefile {
    Savefile(SAVEFILE_VERSION, map u | u in s.doc.actions :: SavedFrom(s.doc.actions[u]), s.doc.order, s.mixer, s.log)
  }

  predicate KnownType(sa: SavedAction) {
    sa.typ == "audio" || sa.typ == "fade"
  }

  /** What one saved action is loaded as, whatever else the file holds: a new action has no target
      whose channels could pad its fades. */
  function Restored(media: Media, sa: SavedAction): ActionDoc {
    ActionDoc(sa.meta,
              if sa.typ == "audio" then
                if sa.params.AudioPars? then AudioPars(media.normalise(NEW_AUDIO.audio, sa.params.audio)) else NEW_AUDIO
              else
              if sa.params.FadePars? then sa.params else NEW_FADE)
  }

  function RestoredAll(media: Media, saved: map<nat, SavedAction>): map<nat, ActionDoc> {
    map u | u in saved && KnownType(saved[u]) :: Restored(media, saved[u])
  }

  predicate OrderFits(sf: Savefile) {
    forall u :: u in sf.order ==> u in sf.actions && KnownType(sf.actions[u])
  }

  predicate AllKnown(sf: Savefile) {
    forall u :: u in sf.actions ==> KnownType(sf.actions[u])
  }

  lemma CreateRestores(media: Media, d: Doc, uuid: nat, sa: SavedAction)
    requires KnownType(sa) && uuid !in d.actions
    ensures CreateAction(media, d, sa.typ, uuid, Some(sa.params), Some(sa.meta))
            == Doc(d.actions[uuid := Restored(media, sa)], d.order + [uuid])
  {
  }

  /** One more action loaded. */
  lemma RestoreStep(media: Media, saved: map<nat, SavedAction>, left: set<nat>, u: nat)
    requires u in left && left <= saved.Keys
    ensures RestoredAll(media, saved - (left - {u}))
            == if KnownType(saved[u]) then RestoredAll(media, saved - left)[u := Restored(media, saved[u])]
               else RestoredAll(media, saved - left)
  {
    assert saved - (left - {u}) == (saved - left)[u := saved[u]];
  }

  /** Every action is checked out, looked at and put back, one by one. */
  method NewFromCtx(ctx: ServerContext) returns (sf: Savefile)
    requires ctx.Valid()
    modifies ctx.actions
    ensures ctx.Valid() && ctx.View() == old(ctx.View())
    ensures sf == Saved(ctx.View())
  {
    var all := ctx.actions.RemoveAllForEditing();
    var data: map<nat, SavedAction> := map[];
    var left := all.Keys;
    while left != {}
      invariant left <= all.Keys
      invariant ctx.actions.actions == all - left
      invariant data == map u | u in all && u !in left :: SavedFrom(all[u])
      invariant ctx.actions.order == old(ctx.actions.order)
    {
      var u :| u in left;
      left := left - {u};
      data := data[u := SavedFrom(all[u])];
      ctx.actions.InsertAfterEditing(u, all[u]);
    }
    assert ctx.actions.actions == all;
    sf := Savefile(SAVEFILE_VERSION, data, ctx.actions.order, ctx.mixer, ctx.undo.View());
  }

  method CreateOne(ctx: ServerContext, u: nat, sa: SavedAction) returns (ok: bool)
    requires ctx.actions.Settled() && u !in ctx.actions.actions
    modifies ctx.actions
    ensures ctx.actions.Settled()
    ensures ok == KnownType(sa)
    ensures ctx.actions.actions ==
            if ok then old(ctx.actions.actions)[u := Restored(ctx.env.media, sa)] else old(ctx.actions.actions)
  {
    ghost var d := ctx.actions.View();
    ghost var create := ReviveAction(u, sa.typ, sa.meta, sa.params);
    assert forall x :: x in d.order ==> x in ViewOf(d).actions;
    if KnownType(sa) {
      CreateRestores(ctx.env.media, d, u, sa);
    }
    ProcessKeepsOrder(ViewOf(d), create);
    ProcessOnView(ctx.env.media, d, create);
    var res := ctx.CreateNew(sa.typ, u, Some(sa.params), Some(sa.meta));
    assert ctx.actions.View() == Process(ctx.env.media, d, create);
    ok := res.Ok?;
  }

  predicate Submap(a: map<nat, ActionDoc>, b: map<nat, ActionDoc>) {
    forall u :: u in a ==> u in b && b[u] == a[u]
  }

  lemma RestoredSubmap(media: Media, saved: map<nat, SavedAction>, left: set<nat>)
    ensures Submap(RestoredAll(media, saved - left), RestoredAll(media, saved))
  {
  }

  /** Fills a new action manager. On failure the actions already created stay. */
  method CreateAll(ctx: ServerContext, saved: map<nat, SavedAction>, force: bool) returns (ok: bool)
    requires ctx.actions.View() == Doc(map[], [])
    modifies ctx.actions
    ensures ctx.actions.Settled()
    ensures ok <==> force || forall u :: u in saved ==> KnownType(saved[u])
    ensures ok ==> ctx.actions.actions == RestoredAll(ctx.env.media, saved)
    ensures Submap(ctx.actions.actions, RestoredAll(ctx.env.media, saved))
  {
    hide CreateAction, Restored;
    ok := true;
    var left := saved.Keys;
    while left != {}
      invariant left <= saved.Keys
      invariant ctx.actions.Settled()
      invariant ctx.actions.actions == RestoredAll(ctx.env.media, saved - left)
      invariant force || forall u :: u in saved && u !in left ==> KnownType(saved[u])
    {
      var u :| u in left;
      RestoreStep(ctx.env.media, saved, left, u);
      left := left - {u};
      var done := CreateOne(ctx, u, saved[u]);
      if !done && !force {
        RestoredSubmap(ctx.env.media, saved, left);
        return false;
      }
    }
    assert saved - left == saved;
  }

  /** `mixerOk` is whether every call into JACK succeeds while the mixer is configured. Only a wrong
      version leaves the context as it was; any later failure leaves the old history over a new document:
      the actions created so far in an order of their own, or all of them, under the saved order once
      that was accepted. */
  method ApplyToCtx(sf: Savefile, ctx: ServerContext, force: bool, mixerOk: bool) returns (r: Result<(), LoadError>)
    modifies ctx`actions, ctx`mixer, ctx.undo
    ensures
      var known := forall u :: u in sf.actions ==> sf.actions[u].typ == "audio" || sf.actions[u].typ == "fade";
      var ordered := forall u :: u in sf.order ==>
                       u in sf.actions && (sf.actions[u].typ == "audio" || sf.actions[u].typ == "fade");
      && (r.Ok? <==> force || (sf.ver == "indev" && known && ordered && mixerOk))
      && (r == Err(VersionMismatch) <==> !force && sf.ver != "indev")
      && (r == Err(BadAction) <==> !force && sf.ver == "indev" && !known)
      && (r == Err(BadOrder) <==> !force && sf.ver == "indev" && known && !ordered)
    ensures r == Err(VersionMismatch) ==> ctx.actions == old(ctx.actions) && ctx.View() == old(ctx.View())
    ensures r != Err(VersionMismatch) ==> fresh(ctx.actions)
    ensures r.Err? ==> ctx.undo.View() == old(ctx.undo.View())
    ensures r == Err(BadAction) ==>
              Submap(ctx.actions.actions, RestoredAll(ctx.env.media, sf.actions)) && ctx.actions.Settled()
                && ctx.mixer == old(ctx.mixer)
    ensures r == Err(BadOrder) ==>
              ctx.actions.actions == RestoredAll(ctx.env.media, sf.actions) && ctx.actions.Settled()
                && ctx.mixer == old(ctx.mixer)
    ensures r.Ok? || r == Err(MixerFailed) ==>
              && ctx.actions.actions == RestoredAll(ctx.env.media, sf.actions)
              && (if OrderFits(sf) then ctx.actions.order == sf.order else ctx.actions.Settled())
              && ctx.mixer == ctx.env.applyConf(old(ctx.mixer), sf.mixerConf)
    ensures r.Ok? ==> ctx.undo.View() == sf.undo
  {
    if sf.ver != SAVEFILE_VERSION && !force {
      return Err(VersionMismatch);
    }
    ctx.actions := new ActionManager();
    var ok := CreateAll(ctx, sf.actions, force);
    if !ok {
      return Err(BadAction);
    }
    var res := ctx.actions.RestoreOrder(sf.order);
    if res.Err? && !force {
      return Err(BadOrder);
    }
    ctx.mixer := ctx.env.applyConf(ctx.mixer, sf.mixerConf);
    if !mixerOk && !force {
      return Err(MixerFailed);
    }
    ctx.undo.changes, ctx.undo.idx := sf.undo.changes, sf.undo.idx;
    r := Ok(());
  }

  /** A session whose history fits, until a file without the action just created fails to load: the
      history then fits nothing, exactly or up to the order. */
  method FailedLoadMisfits(ctx: ServerContext, typ: string, uuid: nat, sf: Savefile, ghost docs: seq<View>)
    returns (r: Result<(), LoadError>, ghost before: Session.State)
    requires ctx.Valid() && Session.Coherent(true, ctx.View(), docs)
    requires (typ == "audio" || typ == "fade") && uuid !in ctx.actions.actions
    requires sf.ver == SAVEFILE_VERSION && !(AllKnown(sf) && OrderFits(sf)) && uuid !in sf.actions
    modifies ctx, ctx.actions, ctx.undo
    ensures r == Err(if AllKnown(sf) then BadOrder else BadAction)
    ensures Session.Fits(true, before) && uuid in before.doc.actions && ctx.undo.View() == before.log
    ensures !Session.Fits(true, ctx.View()) && !Session.Fits(false, ctx.View())
  {
    ghost var cmd := CreateActionWithUuid(typ, uuid);
    ghost var start := ctx.View();
    Session.StepCoherent(ctx.env, true, start, docs, cmd);
    var _ := ctx.External(CreateActionWithUuid(typ, uuid));
    before := ctx.View();
    CreationRecorded(ctx.env, start, cmd);
    r := ApplyToCtx(sf, ctx, false, true);
    Session.FittingHasCreation(true, ctx.View());
    Session.FittingHasCreation(false, ctx.View());
  }

  lemma CreationRecorded(env: Session.Env, s: Session.State, cmd: Command)
    requires Proper(s.log) && cmd.CreateActionWithUuid? && (cmd.typ == "audio" || cmd.typ == "fade")
             && cmd.uuid !in s.doc.actions
    ensures
      var next := Session.External(env, s, cmd);
      && next.Some? && cmd.uuid in next.value.doc.actions
      && Cursor(next.value.log) >= 1 && next.value.log.changes[Cursor(next.value.log)].redo == cmd
  {
  }

  // ---- round trip ----

  /** What a show that was saved is loaded as. */
  function Reloaded(env: Session.Env, mixer: MixerConf, s: Session.State): Session.State {
    var sf := Saved(s);
    Session.State(Doc(RestoredAll(env.media, sf.actions), sf.order), sf.undo, env.applyConf(mixer, sf.mixerConf))
  }

  lemma SavedFits(s: Session.State)
    requires OrderAgrees(ViewOf(s.doc))
    ensures AllKnown(Saved(s)) && OrderFits(Saved(s))
  {
    var sf := Saved(s);
    assert forall u :: u in s.doc.actions ==> KnownType(sf.actions[u]);
    assert forall u :: u in sf.order ==> u in ViewOf(s.doc).actions;
  }

  lemma RestoredAlike(media: Media, s: Session.State, u: nat)
    requires u in s.doc.actions
    ensures var all := RestoredAll(media, Saved(s).actions);
            && u in all && InfoOf(all[u]) == InfoOf(s.doc.actions[u])
            && (s.doc.actions[u].params.FadePars? ==> all[u] == s.doc.actions[u])
            && (s.doc.actions[u].params.AudioPars? ==>
                  all[u].params ==
                    AudioPars(media.normalise(AudioParams(None, [], 0.0), s.doc.actions[u].params.audio)))
  {
    assert KnownType(SavedFrom(s.doc.actions[u]));
  }

  /** Uuids, types, metadata, order, fade parameters and undo history survive, a cue's parameters are
      normalised as for a new one, and the mixer is configured as saved; the file is accepted without force. */
  lemma RoundTrip(env: Session.Env, mixer: MixerConf, s: Session.State)
    requires OrderAgrees(ViewOf(s.doc))
    ensures AllKnown(Saved(s)) && OrderFits(Saved(s))
    ensures ViewOf(Reloaded(env, mixer, s).doc) == ViewOf(s.doc)
    ensures Reloaded(env, mixer, s).log == s.log && Reloaded(env, mixer, s).mixer == env.applyConf(mixer, s.mixer)
    ensures Saved(s).ver == "indev"
    ensures forall u :: u in s.doc.actions && s.doc.actions[u].params.AudioPars? ==>
                          u in Reloaded(env, mixer, s).doc.actions
                            && Reloaded(env, mixer, s).doc.actions[u].params ==
                               AudioPars(env.media.normalise(AudioParams(None, [], 0.0), s.doc.actions[u].params.audio))
    ensures forall u :: u in s.doc.actions && s.doc.actions[u].params.FadePars? ==>
                          u in Reloaded(env, mixer, s).doc.actions
                            && Reloaded(env, mixer, s).doc.actions[u] == s.doc.actions[u]
  {
    SavedFits(s);
    var all := RestoredAll(env.media, Saved(s).actions);
    forall u | u in s.doc.actions
      ensures u in all && InfoOf(all[u]) == InfoOf(s.doc.actions[u])
      ensures s.doc.actions[u].params.FadePars? ==> all[u] == s.doc.actions[u]
      ensures s.doc.actions[u].params.AudioPars? ==>
                all[u].params ==
                  AudioPars(env.media.normalise(AudioParams(None, [], 0.0), s.doc.actions[u].params.audio))
    {
      RestoredAlike(env.media, s, u);
    }
    hide InfoOf, Restored;
    var v, w := ViewOf(Reloaded(env, mixer, s).doc), ViewOf(s.doc);
    assert v.actions.Keys == w.actions.Keys;
    assert v.actions == w.actions;
  }

  /** Saving one context and loading the file into another, or into itself, is accepted and gives exactly
      the reloaded show. */
  method SaveAndLoad(a: ServerContext, b: ServerContext) returns (r: Result<(), LoadError>)
    requires a.Valid()
    modifies a.actions, b, b.undo
    ensures r.Ok? && b.View() == Reloaded(b.env, old(b.mixer), old(a.View()))
  {
    ghost var shown := a.View();
    var sf := NewFromCtx(a);
    SavedFits(shown);
    r := ApplyToCtx(sf, b, false, true);
  }

  predicate KeptByMedia(media: Media, p: AudioParams) {
    media.normalise(NEW_AUDIO.audio, p) == p
  }

  /** The whole document comes back exactly when a new cue would keep every saved audio parameter. */
  lemma DocumentSurvivesIff(env: Session.Env, mixer: MixerConf, s: Session.State)
    requires OrderAgrees(ViewOf(s.doc))
    ensures Reloaded(env, mixer, s).doc == s.doc
            <==> forall u :: u in s.doc.actions && s.doc.actions[u].params.AudioPars? ==>
              KeptByMedia(env.media, s.doc.actions[u].params.audio)
  {
    RoundTrip(env, mixer, s);
    var d := Reloaded(env, mixer, s).doc;
    assert d.actions.Keys == s.doc.actions.Keys by {
      assert d.actions.Keys == ViewOf(d).actions.Keys;
      assert s.doc.actions.Keys == ViewOf(s.doc).actions.Keys;
    }
    forall u | u in s.doc.actions
      ensures d.actions[u] == s.doc.actions[u]
              <==> s.doc.actions[u].params.AudioPars? ==> KeptByMedia(env.media, s.doc.actions[u].params.audio)
    {
    }
    if forall u :: u in s.doc.actions && s.doc.actions[u].params.AudioPars? ==>
      KeptByMedia(env.media, s.doc.actions[u].params.audio) {
      assert d.actions == s.doc.actions;
    }
  }

  /** Undoing goes on working across a save and a load: the loaded history still fits the document. */
  lemma HistorySurvives(env: Session.Env, mixer: MixerConf, exact: bool, s: Session.State, docs: seq<View>)
    requires Session.Coherent(exact, s, docs)
    ensures Session.Coherent(exact, Reloaded(env, mixer, s), docs)
  {
    RoundTrip(env, mixer, s);
  }

  /** An order that fits may still leave actions out or name them twice; only then is the order no
      longer the list of all actions. */
  lemma LoadedOrderAgreesIff(media: Media, sf: Savefile)
    requires OrderFits(sf)
    ensures OrderAgrees(ViewOf(Doc(RestoredAll(media, sf.actions), sf.order)))
            <==> NoDup(sf.order) && forall u :: u in sf.actions && KnownType(sf.actions[u]) ==> u in sf.order
  {
    var v := ViewOf(Doc(RestoredAll(media, sf.actions), sf.order));
    assert forall u :: u in v.actions <==> u in sf.actions && KnownType(sf.actions[u]);
  }
}
