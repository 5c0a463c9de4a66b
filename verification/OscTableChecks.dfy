/** The two tables are in order, entry by entry, so their messages come back as they were sent. */
module OscTableChecks {
  import opened OscText
  import opened OscSchema
  import opened OscRoundTrip
  import opened OscTables

  // ---- every entry is tidy ----

  lemma ClientWords()
    ensures CleanPat(Literal("ping")) && CleanPat(Literal("version")) && CleanPat(Literal("subscribe"))
            && CleanPat(Literal("associate"))
  {
  }

  lemma ActionWords()
    ensures CleanPat(Literal("actions")) && CleanPat(Literal("new")) && CleanPat(Literal("actionlist"))
            && CleanPat(Literal("action"))
  {
  }

  lemma EditWords()
    ensures CleanPat(Literal("update")) && CleanPat(Literal("updatemeta")) && CleanPat(Literal("revive"))
            && CleanPat(Literal("create"))
  {
  }

  lemma LifecycleWords()
    ensures CleanPat(Literal("create_extra")) && CleanPat(Literal("delete")) && CleanPat(Literal("verify"))
            && CleanPat(Literal("load"))
  {
  }

  lemma PlaybackWords()
    ensures CleanPat(Literal("execute")) && CleanPat(Literal("reset")) && CleanPat(Literal("pause"))
            && CleanPat(Literal("reorder"))
  {
  }

  lemma MixerWords()
    ensures CleanPat(Literal("mixer")) && CleanPat(Literal("config")) && CleanPat(Literal("set"))
            && CleanPat(Literal("system"))
  {
  }

  lemma SystemWords()
    ensures CleanPat(Literal("save")) && CleanPat(Literal("undo")) && CleanPat(Literal("redo"))
            && CleanPat(Literal("undostate"))
  {
  }

  lemma WaveformWords()
    ensures CleanPat(Literal("waveform")) && CleanPat(Literal("generate")) && CleanPat(Literal("pong"))
            && CleanPat(Literal("reply"))
  {
  }

  lemma ErrorWords()
    ensures CleanPat(Literal("error")) && CleanPat(Literal("deserfail")) && CleanPat(Literal("order"))
            && CleanPat(Literal("generated"))
  {
  }

  lemma OversizedWord()
    ensures CleanPat(Literal("oversized"))
  {
  }

  lemma CaptureWords()
    ensures CleanPat(Capture("uuid")) && CleanPat(Capture("typ"))
  {
  }

  lemma TidyPingToSubscribe()
    ensures Tidy(COMMANDS[0])
    ensures Tidy(COMMANDS[1])
    ensures Tidy(COMMANDS[2])
  {
    ClientWords();
    hide CleanPat, Tidy, OnlyUuidsPlaced, Annotated, TokOf, SersBeforeVerbs;
    assert Tidy(COMMANDS[0]) by { TidySers(COMMANDS[0]); }
    assert Tidy(COMMANDS[1]) by { TidySers(COMMANDS[1]); }
    assert Tidy(COMMANDS[2]) by { TidySers(COMMANDS[2]); }
  }

  lemma TidyAssociateToActionList()
    ensures Tidy(COMMANDS[3])
    ensures Tidy(COMMANDS[4])
    ensures Tidy(COMMANDS[5])
  {
    ClientWords();
    ActionWords();
    CaptureWords();
    hide CleanPat, Tidy, OnlyUuidsPlaced, Annotated, TokOf, SersBeforeVerbs;
    assert Tidy(COMMANDS[3]) by { TidySers(COMMANDS[3]); }
    assert Tidy(COMMANDS[4]) by { TidyOne(COMMANDS[4], 1); }
    assert Tidy(COMMANDS[5]) by { TidySers(COMMANDS[5]); }
  }

  lemma TidyActionInfoToUpdateMetadata()
    ensures Tidy(COMMANDS[6])
    ensures Tidy(COMMANDS[7])
    ensures Tidy(COMMANDS[8])
  {
    ActionWords();
    EditWords();
    CaptureWords();
    NamesApart();
    hide CleanPat, Tidy, OnlyUuidsPlaced, Annotated, TokOf, SersBeforeVerbs;
    assert Tidy(COMMANDS[6]) by { TidyOne(COMMANDS[6], 1); }
    assert Tidy(COMMANDS[7]) by { TidyOne(COMMANDS[7], 1); }
    assert Tidy(COMMANDS[8]) by { TidyOne(COMMANDS[8], 1); }
  }

  lemma TidyReviveToCreateWithExtras()
    ensures Tidy(COMMANDS[9])
    ensures Tidy(COMMANDS[10])
    ensures Tidy(COMMANDS[11])
  {
    ActionWords();
    EditWords();
    LifecycleWords();
    CaptureWords();
    NamesApart();
    hide CleanPat, Tidy, OnlyUuidsPlaced, Annotated, TokOf, SersBeforeVerbs;
    assert Tidy(COMMANDS[9]) by { TidyTwo(COMMANDS[9], 1, 3, 0, 1); }
    assert Tidy(COMMANDS[10]) by { TidyTwo(COMMANDS[10], 1, 3, 1, 0); }
    assert Tidy(COMMANDS[11]) by { TidyTwo(COMMANDS[11], 1, 3, 1, 0); }
  }

  lemma TidyDeleteToLoad()
    ensures Tidy(COMMANDS[12])
    ensures Tidy(COMMANDS[13])
    ensures Tidy(COMMANDS[14])
  {
    ActionWords();
    LifecycleWords();
    CaptureWords();
    hide CleanPat, Tidy, OnlyUuidsPlaced, Annotated, TokOf, SersBeforeVerbs;
    assert Tidy(COMMANDS[12]) by { TidyOne(COMMANDS[12], 1); }
    assert Tidy(COMMANDS[13]) by { TidyOne(COMMANDS[13], 1); }
    assert Tidy(COMMANDS[14]) by { TidyOne(COMMANDS[14], 1); }
  }

  lemma TidyExecuteToPause()
    ensures Tidy(COMMANDS[15])
    ensures Tidy(COMMANDS[16])
    ensures Tidy(COMMANDS[17])
  {
    ActionWords();
    PlaybackWords();
    CaptureWords();
    hide CleanPat, Tidy, OnlyUuidsPlaced, Annotated, TokOf, SersBeforeVerbs;
    assert Tidy(COMMANDS[15]) by { TidyOne(COMMANDS[15], 1); }
    assert Tidy(COMMANDS[16]) by { TidyOne(COMMANDS[16], 1); }
    assert Tidy(COMMANDS[17]) by { TidyOne(COMMANDS[17], 1); }
  }

  lemma TidyReorderToSetMixerConf()
    ensures Tidy(COMMANDS[18])
    ensures Tidy(COMMANDS[19])
    ensures Tidy(COMMANDS[20])
  {
    ActionWords();
    PlaybackWords();
    MixerWords();
    CaptureWords();
    NamesApart();
    hide CleanPat, Tidy, OnlyUuidsPlaced, Annotated, TokOf, SersBeforeVerbs;
    assert Tidy(COMMANDS[18]) by { TidyOne(COMMANDS[18], 1); }
    assert Tidy(COMMANDS[19]) by { TidySers(COMMANDS[19]); }
    assert Tidy(COMMANDS[20]) by { TidySers(COMMANDS[20]); }
  }

  lemma TidySavefileToUndo()
    ensures Tidy(COMMANDS[21])
    ensures Tidy(COMMANDS[22])
    ensures Tidy(COMMANDS[23])
  {
    LifecycleWords();
    MixerWords();
    SystemWords();
    NamesApart();
    hide CleanPat, Tidy, OnlyUuidsPlaced, Annotated, TokOf, SersBeforeVerbs;
    assert Tidy(COMMANDS[21]) by { TidyVerbs(COMMANDS[21]); }
    assert Tidy(COMMANDS[22]) by { TidyVerbs(COMMANDS[22]); }
    assert Tidy(COMMANDS[23]) by { TidySers(COMMANDS[23]); }
  }

  lemma TidyRedoToWaveform()
    ensures Tidy(COMMANDS[24])
    ensures Tidy(COMMANDS[25])
    ensures Tidy(COMMANDS[26])
  {
    MixerWords();
    SystemWords();
    WaveformWords();
    CaptureWords();
    NamesApart();
    hide CleanPat, Tidy, OnlyUuidsPlaced, Annotated, TokOf, SersBeforeVerbs;
    assert Tidy(COMMANDS[24]) by { TidySers(COMMANDS[24]); }
    assert Tidy(COMMANDS[25]) by { TidySers(COMMANDS[25]); }
    assert Tidy(COMMANDS[26]) by { TidyOne(COMMANDS[26], 1); }
  }

  lemma TidyPongToSubscribed()
    ensures Tidy(REPLIES[0]) && OnlyUuidsPlaced(REPLIES[0])
    ensures Tidy(REPLIES[1]) && OnlyUuidsPlaced(REPLIES[1])
    ensures Tidy(REPLIES[2]) && OnlyUuidsPlaced(REPLIES[2])
  {
    ClientWords();
    WaveformWords();
    hide CleanPat, Tidy, OnlyUuidsPlaced, Annotated, TokOf, SersBeforeVerbs;
    assert Tidy(REPLIES[0]) && OnlyUuidsPlaced(REPLIES[0]) by { TidySers(REPLIES[0]); }
    assert Tidy(REPLIES[1]) && OnlyUuidsPlaced(REPLIES[1]) by { TidyVerbs(REPLIES[1]); }
    assert Tidy(REPLIES[2]) && OnlyUuidsPlaced(REPLIES[2]) by { TidySers(REPLIES[2]); }
  }

  lemma TidyAssociatedToActionCreated()
    ensures Tidy(REPLIES[3]) && OnlyUuidsPlaced(REPLIES[3])
    ensures Tidy(REPLIES[4]) && OnlyUuidsPlaced(REPLIES[4])
    ensures Tidy(REPLIES[5]) && OnlyUuidsPlaced(REPLIES[5])
  {
    ClientWords();
    ActionWords();
    EditWords();
    WaveformWords();
    ErrorWords();
    hide CleanPat, Tidy, OnlyUuidsPlaced, Annotated, TokOf, SersBeforeVerbs;
    assert Tidy(REPLIES[3]) && OnlyUuidsPlaced(REPLIES[3]) by { TidySers(REPLIES[3]); }
    assert Tidy(REPLIES[4]) && OnlyUuidsPlaced(REPLIES[4]) by { TidyVerbs(REPLIES[4]); }
    assert Tidy(REPLIES[5]) && OnlyUuidsPlaced(REPLIES[5]) by { TidySers(REPLIES[5]); }
  }

  /** The replies about one action: its uuid in the path, one serialised field. */
  lemma TidyActionReply(e: Entry, verb: string)
    requires e.pats == [Literal("reply"), Literal("action"), Capture("uuid"), Literal(verb)] && CleanPat(Literal(verb))
    requires |e.fields| == 2 && e.fields[0] == Placed("uuid", OpaqueType("Uuid"))
    requires e.fields[1] == Serialised(e.fields[1].name, e.fields[1].ty) && e.fields[1].name != "uuid"
    ensures Tidy(e) && OnlyUuidsPlaced(e)
  {
    ActionWords();
    WaveformWords();
    CaptureWords();
    hide CleanPat, Tidy, OnlyUuidsPlaced;
    TidyOne(e, 2);
  }

  lemma TidyInfoRetrieved()
    ensures Tidy(REPLIES[6]) && OnlyUuidsPlaced(REPLIES[6])
  {
    ActionWords();
    WaveformWords();
    CaptureWords();
    NamesApart();
    hide CleanPat, Tidy, OnlyUuidsPlaced, Annotated, TokOf, SersBeforeVerbs;
    TidyOne(REPLIES[6], 2);
  }

  lemma TidyUpdatedToLoaded()
    ensures Tidy(REPLIES[7]) && OnlyUuidsPlaced(REPLIES[7])
    ensures Tidy(REPLIES[8]) && OnlyUuidsPlaced(REPLIES[8])
    ensures Tidy(REPLIES[9]) && OnlyUuidsPlaced(REPLIES[9])
    ensures Tidy(REPLIES[10]) && OnlyUuidsPlaced(REPLIES[10])
  {
    EditWords();
    LifecycleWords();
    NamesApart();
    hide CleanPat, Tidy, OnlyUuidsPlaced, Annotated, TokOf, SersBeforeVerbs;
    TidyActionReply(REPLIES[7], "update");
    TidyActionReply(REPLIES[8], "updatemeta");
    TidyActionReply(REPLIES[9], "delete");
    TidyActionReply(REPLIES[10], "load");
  }

  lemma TidyExecutedToReordered()
    ensures Tidy(REPLIES[11]) && OnlyUuidsPlaced(REPLIES[11])
    ensures Tidy(REPLIES[12]) && OnlyUuidsPlaced(REPLIES[12])
    ensures Tidy(REPLIES[13]) && OnlyUuidsPlaced(REPLIES[13])
    ensures Tidy(REPLIES[14]) && OnlyUuidsPlaced(REPLIES[14])
  {
    PlaybackWords();
    NamesApart();
    hide CleanPat, Tidy, OnlyUuidsPlaced, Annotated, TokOf, SersBeforeVerbs;
    TidyActionReply(REPLIES[11], "execute");
    TidyActionReply(REPLIES[12], "pause");
    TidyActionReply(REPLIES[13], "reset");
    TidyActionReply(REPLIES[14], "reorder");
  }

  lemma TidyMixerConfToUpdateOrder()
    ensures Tidy(REPLIES[15]) && OnlyUuidsPlaced(REPLIES[15])
    ensures Tidy(REPLIES[16]) && OnlyUuidsPlaced(REPLIES[16])
    ensures Tidy(REPLIES[17]) && OnlyUuidsPlaced(REPLIES[17])
  {
    ActionWords();
    EditWords();
    MixerWords();
    WaveformWords();
    ErrorWords();
    NamesApart();
    hide CleanPat, Tidy, OnlyUuidsPlaced, Annotated, TokOf, SersBeforeVerbs;
    assert Tidy(REPLIES[15]) && OnlyUuidsPlaced(REPLIES[15]) by { TidySers(REPLIES[15]); }
    assert Tidy(REPLIES[16]) && OnlyUuidsPlaced(REPLIES[16]) by { TidySers(REPLIES[16]); }
    assert Tidy(REPLIES[17]) && OnlyUuidsPlaced(REPLIES[17]) by { TidySers(REPLIES[17]); }
  }

  lemma TidyUpdateInfoToUpdateMixerConf()
    ensures Tidy(REPLIES[18]) && OnlyUuidsPlaced(REPLIES[18])
    ensures Tidy(REPLIES[19]) && OnlyUuidsPlaced(REPLIES[19])
    ensures Tidy(REPLIES[20]) && OnlyUuidsPlaced(REPLIES[20])
  {
    ActionWords();
    EditWords();
    LifecycleWords();
    MixerWords();
    CaptureWords();
    NamesApart();
    hide CleanPat, Tidy, OnlyUuidsPlaced, Annotated, TokOf, SersBeforeVerbs;
    assert Tidy(REPLIES[18]) && OnlyUuidsPlaced(REPLIES[18]) by { TidyOne(REPLIES[18], 2); }
    assert Tidy(REPLIES[19]) && OnlyUuidsPlaced(REPLIES[19]) by { TidyOne(REPLIES[19], 2); }
    assert Tidy(REPLIES[20]) && OnlyUuidsPlaced(REPLIES[20]) by { TidySers(REPLIES[20]); }
  }

  lemma TidySavefileMadeToUndoState()
    ensures Tidy(REPLIES[21]) && OnlyUuidsPlaced(REPLIES[21])
    ensures Tidy(REPLIES[22]) && OnlyUuidsPlaced(REPLIES[22])
    ensures Tidy(REPLIES[23]) && OnlyUuidsPlaced(REPLIES[23])
  {
    LifecycleWords();
    MixerWords();
    SystemWords();
    WaveformWords();
    hide CleanPat, Tidy, OnlyUuidsPlaced, Annotated, TokOf, SersBeforeVerbs;
    assert Tidy(REPLIES[21]) && OnlyUuidsPlaced(REPLIES[21]) by { TidySers(REPLIES[21]); }
    assert Tidy(REPLIES[22]) && OnlyUuidsPlaced(REPLIES[22]) by { TidySers(REPLIES[22]); }
    assert Tidy(REPLIES[23]) && OnlyUuidsPlaced(REPLIES[23]) by { TidySers(REPLIES[23]); }
  }

  lemma TidyWaveformToOversized()
    ensures Tidy(REPLIES[24]) && OnlyUuidsPlaced(REPLIES[24])
    ensures Tidy(REPLIES[25]) && OnlyUuidsPlaced(REPLIES[25])
  {
    WaveformWords();
    ErrorWords();
    OversizedWord();
    CaptureWords();
    NamesApart();
    hide CleanPat, Tidy, OnlyUuidsPlaced, Annotated, TokOf, SersBeforeVerbs;
    assert Tidy(REPLIES[24]) && OnlyUuidsPlaced(REPLIES[24]) by { TidyOne(REPLIES[24], 2); }
    assert Tidy(REPLIES[25]) && OnlyUuidsPlaced(REPLIES[25]) by { TidySers(REPLIES[25]); }
  }

  lemma CommandsTidy()
    ensures forall i :: 0 <= i < |COMMANDS| ==> Tidy(COMMANDS[i])
  {
    hide Tidy, OnlyUuidsPlaced;
    TidyPingToSubscribe();
    TidyAssociateToActionList();
    TidyActionInfoToUpdateMetadata();
    TidyReviveToCreateWithExtras();
    TidyDeleteToLoad();
    TidyExecuteToPause();
    TidyReorderToSetMixerConf();
    TidySavefileToUndo();
    TidyRedoToWaveform();
  }

  lemma RepliesTidy()
    ensures forall i :: 0 <= i < |REPLIES| ==> Tidy(REPLIES[i]) && OnlyUuidsPlaced(REPLIES[i])
  {
    hide Tidy, OnlyUuidsPlaced;
    TidyPongToSubscribed();
    TidyAssociatedToActionCreated();
    TidyInfoRetrieved();
    TidyUpdatedToLoaded();
    TidyExecutedToReordered();
    TidyMixerConfToUpdateOrder();
    TidyUpdateInfoToUpdateMixerConf();
    TidySavefileMadeToUndoState();
    TidyWaveformToOversized();
  }

  // ---- telling paths and names apart ----

  /** Length and initial are enough to tell the words at one place of a path, or the variant names of
      one table, apart; comparing whole strings would be far dearer. */
  predicate Alike(s: string, word: string) {
    |s| == |word| && word != "" && s[0] == word[0]
  }

  function WhichOnAction(verb: string): int {
    if Alike(verb, "update") then 7
    else if Alike(verb, "updatemeta") then 8
    else if Alike(verb, "delete") then 12
    else if Alike(verb, "verify") then 13
    else if Alike(verb, "load") then 14
    else if Alike(verb, "execute") then 15
    else if Alike(verb, "reset") then 16
    else if Alike(verb, "pause") then 17
    else 18
  }

  function WhichOnSystem(verb: string): int {
    if Alike(verb, "save") then 21
    else if Alike(verb, "load") then 22
    else if Alike(verb, "undo") then 23
    else if Alike(verb, "redo") then 24
    else 25
  }

  function WhichCommand(c: seq<string>): int {
    if |c| == 1 then
      if Alike(c[0], "ping") then 0 else if Alike(c[0], "version") then 1 else if Alike(c[0], "subscribe") then 2 else 5
    else if |c| == 2 then
      if Alike(c[0], "subscribe") then 3
      else if Alike(c[0], "action") then 6
      else if Alike(c[0], "mixer") then 19
      else WhichOnSystem(c[1])
    else if |c| == 3 then
      if Alike(c[0], "actions") then 4
      else if Alike(c[0], "action") then WhichOnAction(c[2])
      else if Alike(c[0], "mixer") then 20
      else 26
    else if |c| == 4 then
      if Alike(c[2], "revive") then 9 else if Alike(c[2], "create") then 10 else 11
    else -1
  }

  function WhichReplyOnAction(verb: string): int {
    if Alike(verb, "update") then 7
    else if Alike(verb, "updatemeta") then 8
    else if Alike(verb, "delete") then 9
    else if Alike(verb, "load") then 10
    else if Alike(verb, "execute") then 11
    else if Alike(verb, "pause") then 12
    else if Alike(verb, "reset") then 13
    else 14
  }

  function WhichReply(c: seq<string>): int {
    if |c| == 1 then 0
    else if |c| == 2 then
      if Alike(c[0], "reply") then (if Alike(c[1], "version") then 1 else if Alike(c[1], "subscribe") then 2 else 16)
      else if Alike(c[0], "error") then (if Alike(c[1], "deserfail") then 4 else 25)
      else 17
    else if |c| == 3 then
      if Alike(c[0], "reply") then
        if Alike(c[1], "subscribe") then 3
        else if Alike(c[1], "actions") then 5
        else if Alike(c[1], "action") then 6
        else if Alike(c[1], "mixer") then 15
        else if Alike(c[2], "save") then 21
        else if Alike(c[2], "load") then 22
        else 23
      else if Alike(c[1], "action") then 18
      else 20
    else if |c| == 4 then
      if Alike(c[0], "update") then 19
      else if Alike(c[1], "action") then WhichReplyOnAction(c[3])
      else 24
    else -1
  }

  /** Lengths, initials and one letter tell the variant names apart. */
  function CommandNamed(s: string): int {
    if Alike(s, "Ping") then 0
    else if Alike(s, "Undo") then 23
    else if Alike(s, "Redo") then 24
    else if |s| == 7 then 1
    else if |s| == 9 then 2
    else if |s| == 10 then (if Alike(s, "LoadAction") then 14 else if s[6] == 'L' then 5 else 6)
    else if |s| == 11 then (if Alike(s, "ResetAction") then 16 else 17)
    else if |s| == 12 then
      if Alike(s, "CreateAction") then 4
      else if Alike(s, "ReviveAction") then 9
      else if Alike(s, "DeleteAction") then 12
      else if Alike(s, "VerifyAction") then 13
      else if Alike(s, "SetMixerConf") then 20
      else if Alike(s, "MakeSavefile") then 21
      else if Alike(s, "LoadSavefile") then 22
      else if s[3] == 'M' then 19 else 25
    else if |s| == 13 then (if Alike(s, "ExecuteAction") then 15 else 18)
    else if |s| == 16 then 26
    else if |s| == 18 then 7
    else if |s| == 20 then (if Alike(s, "UpdateActionMetadata") then 8 else 10)
    else if |s| == 21 then 3
    else 11
  }

  function ReplyNamed(s: string): int {
    if |s| == 4 then 0
    else if |s| == 10 then (if Alike(s, "Subscribed") then 2 else 3)
    else if |s| == 11 then (if Alike(s, "DeserFailed") then 4 else if Alike(s, "ActionReset") then 13 else 17)
    else if |s| == 12 then (if Alike(s, "ActionLoaded") then 10 else if Alike(s, "MixerConfSet") then 15 else 21)
    else if |s| == 13 then (if Alike(s, "ServerVersion") then 1 else if s[6] == 'C' then 5 else 9)
    else if |s| == 14 then
      if Alike(s, "ActionExecuted") then 11 else if Alike(s, "SavefileLoaded") then 22
        else if Alike(s, "ReplyUndoState") then 23 else 25
    else if |s| == 15 then (if Alike(s, "ActionReordered") then 14 else if Alike(s, "ReplyActionList") then 16 else 20)
    else if |s| == 16 then 18
    else if |s| == 17 then (if Alike(s, "ActionMaybePaused") then 12 else 24)
    else if |s| == 19 then (if Alike(s, "UpdateActionDeleted") then 19 else if s[6] == 'I' then 6 else 7)
    else 8
  }

  lemma PathsPingToSubscribe(c: seq<string>)
    ensures Matches(COMMANDS[0].pats, c) ==> WhichCommand(c) == 0
    ensures Matches(COMMANDS[1].pats, c) ==> WhichCommand(c) == 1
    ensures Matches(COMMANDS[2].pats, c) ==> WhichCommand(c) == 2
  {
  }

  lemma PathsSubscribeAndAssociateToActionList(c: seq<string>)
    ensures Matches(COMMANDS[3].pats, c) ==> WhichCommand(c) == 3
    ensures Matches(COMMANDS[4].pats, c) ==> WhichCommand(c) == 4
    ensures Matches(COMMANDS[5].pats, c) ==> WhichCommand(c) == 5
  {
  }

  lemma PathsActionInfoToUpdateActionMetadata(c: seq<string>)
    ensures Matches(COMMANDS[6].pats, c) ==> WhichCommand(c) == 6
    ensures Matches(COMMANDS[7].pats, c) ==> WhichCommand(c) == 7
    ensures Matches(COMMANDS[8].pats, c) ==> WhichCommand(c) == 8
  {
  }

  lemma PathsReviveActionToCreateActionWithExtras(c: seq<string>)
    ensures Matches(COMMANDS[9].pats, c) ==> WhichCommand(c) == 9
    ensures Matches(COMMANDS[10].pats, c) ==> WhichCommand(c) == 10
    ensures Matches(COMMANDS[11].pats, c) ==> WhichCommand(c) == 11
  {
  }

  lemma PathsDeleteActionToLoadAction(c: seq<string>)
    ensures Matches(COMMANDS[12].pats, c) ==> WhichCommand(c) == 12
    ensures Matches(COMMANDS[13].pats, c) ==> WhichCommand(c) == 13
    ensures Matches(COMMANDS[14].pats, c) ==> WhichCommand(c) == 14
  {
  }

  lemma PathsExecuteActionToPauseAction(c: seq<string>)
    ensures Matches(COMMANDS[15].pats, c) ==> WhichCommand(c) == 15
    ensures Matches(COMMANDS[16].pats, c) ==> WhichCommand(c) == 16
    ensures Matches(COMMANDS[17].pats, c) ==> WhichCommand(c) == 17
  {
  }

  lemma PathsReorderActionToSetMixerConf(c: seq<string>)
    ensures Matches(COMMANDS[18].pats, c) ==> WhichCommand(c) == 18
    ensures Matches(COMMANDS[19].pats, c) ==> WhichCommand(c) == 19
    ensures Matches(COMMANDS[20].pats, c) ==> WhichCommand(c) == 20
  {
  }

  lemma PathsMakeSavefileToUndo(c: seq<string>)
    ensures Matches(COMMANDS[21].pats, c) ==> WhichCommand(c) == 21
    ensures Matches(COMMANDS[22].pats, c) ==> WhichCommand(c) == 22
    ensures Matches(COMMANDS[23].pats, c) ==> WhichCommand(c) == 23
  {
  }

  lemma PathsRedoToGenerateWaveform(c: seq<string>)
    ensures Matches(COMMANDS[24].pats, c) ==> WhichCommand(c) == 24
    ensures Matches(COMMANDS[25].pats, c) ==> WhichCommand(c) == 25
    ensures Matches(COMMANDS[26].pats, c) ==> WhichCommand(c) == 26
  {
  }

  lemma EarlierCommandNames()
    ensures forall i :: 0 <= i < 9 ==> CommandNamed(COMMANDS[i].name) == i
  {
  }

  lemma MiddleCommandNames()
    ensures forall i :: 9 <= i < 18 ==> CommandNamed(COMMANDS[i].name) == i
  {
  }

  lemma LaterCommandNames()
    ensures forall i :: 18 <= i < 27 ==> CommandNamed(COMMANDS[i].name) == i
  {
  }

  lemma CommandApart()
    ensures ToldApart(COMMANDS, WhichCommand, CommandNamed)
  {
    EarlierCommandNames();
    MiddleCommandNames();
    LaterCommandNames();
    hide Matches, WhichCommand, CommandNamed;
    forall i, c | 0 <= i < |COMMANDS| && Matches(COMMANDS[i].pats, c) ensures WhichCommand(c) == i {
      if i < 3 {
        PathsPingToSubscribe(c);
      } else if i < 6 {
        PathsSubscribeAndAssociateToActionList(c);
      } else if i < 9 {
        PathsActionInfoToUpdateActionMetadata(c);
      } else if i < 12 {
        PathsReviveActionToCreateActionWithExtras(c);
      } else if i < 15 {
        PathsDeleteActionToLoadAction(c);
      } else if i < 18 {
        PathsExecuteActionToPauseAction(c);
      } else if i < 21 {
        PathsReorderActionToSetMixerConf(c);
      } else if i < 24 {
        PathsMakeSavefileToUndo(c);
      } else if i < 27 {
        PathsRedoToGenerateWaveform(c);
      }
    }
  }

  lemma PathsPongToSubscribed(c: seq<string>)
    ensures Matches(REPLIES[0].pats, c) ==> WhichReply(c) == 0
    ensures Matches(REPLIES[1].pats, c) ==> WhichReply(c) == 1
    ensures Matches(REPLIES[2].pats, c) ==> WhichReply(c) == 2
  {
  }

  lemma PathsAssociatedToActionCreated(c: seq<string>)
    ensures Matches(REPLIES[3].pats, c) ==> WhichReply(c) == 3
    ensures Matches(REPLIES[4].pats, c) ==> WhichReply(c) == 4
    ensures Matches(REPLIES[5].pats, c) ==> WhichReply(c) == 5
  {
  }

  lemma PathsActionInfoRetrievedToActionMetadataUpdated(c: seq<string>)
    ensures Matches(REPLIES[6].pats, c) ==> WhichReply(c) == 6
    ensures Matches(REPLIES[7].pats, c) ==> WhichReply(c) == 7
    ensures Matches(REPLIES[8].pats, c) ==> WhichReply(c) == 8
  {
  }

  lemma PathsActionDeletedToActionExecuted(c: seq<string>)
    ensures Matches(REPLIES[9].pats, c) ==> WhichReply(c) == 9
    ensures Matches(REPLIES[10].pats, c) ==> WhichReply(c) == 10
    ensures Matches(REPLIES[11].pats, c) ==> WhichReply(c) == 11
  {
  }

  lemma PathsActionMaybePausedToActionReordered(c: seq<string>)
    ensures Matches(REPLIES[12].pats, c) ==> WhichReply(c) == 12
    ensures Matches(REPLIES[13].pats, c) ==> WhichReply(c) == 13
    ensures Matches(REPLIES[14].pats, c) ==> WhichReply(c) == 14
  {
  }

  lemma PathsMixerConfSetToUpdateOrder(c: seq<string>)
    ensures Matches(REPLIES[15].pats, c) ==> WhichReply(c) == 15
    ensures Matches(REPLIES[16].pats, c) ==> WhichReply(c) == 16
    ensures Matches(REPLIES[17].pats, c) ==> WhichReply(c) == 17
  {
  }

  lemma PathsUpdateActionInfoToUpdateMixerConf(c: seq<string>)
    ensures Matches(REPLIES[18].pats, c) ==> WhichReply(c) == 18
    ensures Matches(REPLIES[19].pats, c) ==> WhichReply(c) == 19
    ensures Matches(REPLIES[20].pats, c) ==> WhichReply(c) == 20
  {
  }

  lemma PathsSavefileMadeToReplyUndoState(c: seq<string>)
    ensures Matches(REPLIES[21].pats, c) ==> WhichReply(c) == 21
    ensures Matches(REPLIES[22].pats, c) ==> WhichReply(c) == 22
    ensures Matches(REPLIES[23].pats, c) ==> WhichReply(c) == 23
  {
  }

  lemma PathsWaveformGeneratedToOversizedReply(c: seq<string>)
    ensures Matches(REPLIES[24].pats, c) ==> WhichReply(c) == 24
    ensures Matches(REPLIES[25].pats, c) ==> WhichReply(c) == 25
  {
  }

  lemma EarlierReplyNames()
    ensures forall i :: 0 <= i < 14 ==> ReplyNamed(REPLIES[i].name) == i
  {
  }

  lemma LaterReplyNames()
    ensures forall i :: 14 <= i < 26 ==> ReplyNamed(REPLIES[i].name) == i
  {
  }

  lemma ReplyApart()
    ensures ToldApart(REPLIES, WhichReply, ReplyNamed)
  {
    EarlierReplyNames();
    LaterReplyNames();
    hide Matches, WhichReply, ReplyNamed;
    forall i, c | 0 <= i < |REPLIES| && Matches(REPLIES[i].pats, c) ensures WhichReply(c) == i {
      if i < 3 {
        PathsPongToSubscribed(c);
      } else if i < 6 {
        PathsAssociatedToActionCreated(c);
      } else if i < 9 {
        PathsActionInfoRetrievedToActionMetadataUpdated(c);
      } else if i < 12 {
        PathsActionDeletedToActionExecuted(c);
      } else if i < 15 {
        PathsActionMaybePausedToActionReordered(c);
      } else if i < 18 {
        PathsMixerConfSetToUpdateOrder(c);
      } else if i < 21 {
        PathsUpdateActionInfoToUpdateMixerConf(c);
      } else if i < 24 {
        PathsSavefileMadeToReplyUndoState(c);
      } else if i < 26 {
        PathsWaveformGeneratedToOversizedReply(c);
      }
    }
  }

  // ---- the round trips ----

  /** Commands: only the `typ` of an action can spoil the round trip. */
  lemma CommandRoundTrip(lib: Lib, i: nat, fields: map<string, Value>)
    requires Faithful(lib) && UuidsSlashFree(lib) && i < |COMMANDS|
    requires (forall a :: 0 <= a < |COMMANDS[i].fields| ==> Annotated(COMMANDS[i].fields[a]))
             && Typed(MessageFor(COMMANDS[i]), fields)
    ensures ComesBack(lib, Arms(Declared(COMMANDS)), Msg(COMMANDS[i].name, fields))
            <==> PlacedTextsClean(COMMANDS[i], fields)
  {
    CommandsTidy();
    CommandApart();
    TableRoundTrip(lib, COMMANDS, WhichCommand, CommandNamed, i, fields);
  }

  /** Replies always come back. */
  lemma ReplyRoundTrip(lib: Lib, i: nat, fields: map<string, Value>)
    requires Faithful(lib) && UuidsSlashFree(lib) && i < |REPLIES|
    requires (forall a :: 0 <= a < |REPLIES[i].fields| ==> Annotated(REPLIES[i].fields[a]))
             && Typed(MessageFor(REPLIES[i]), fields)
    ensures ComesBack(lib, Arms(Declared(REPLIES)), Msg(REPLIES[i].name, fields))
  {
    RepliesTidy();
    ReplyApart();
    TableRoundTrip(lib, REPLIES, WhichReply, ReplyNamed, i, fields);
  }
}
