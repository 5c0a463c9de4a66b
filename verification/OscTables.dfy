/** The two message tables of the server's OSC interface, and what the schema theorem says of them. */
module OscTables {
  import opened Containers
  import opened OscText
  import opened OscSchema
  import opened OscRoundTrip

  /** A variant with the path and fields it is declared with. */
  datatype Entry = Entry(name: string, pats: seq<Pat>, fields: seq<Field>)

  function Placed(name: string, ty: FieldType): Field { Field(name, ty, [Word("subst")]) }
  function Serialised(name: string, ty: FieldType): Field { Field(name, ty, [Word("ser")]) }
  function Verbatim(name: string, ty: FieldType, accessor: string): Field {
    Field(name, ty, [NameValue("verbatim", accessor)])
  }

  function VariantOf(e: Entry): Variant {
    Variant(e.name, [NameValue("oscpath", PathText(e.pats))], if e.fields == [] then None else Some(e.fields))
  }

  // ---- from a tidy declaration to a schema ----

  predicate Annotated(f: Field) {
    && |f.attrs| == 1
    && (f.attrs[0] == Word("subst") || f.attrs[0] == Word("ser")
        || (f.attrs[0].NameValue? && f.attrs[0].key == "verbatim"))
  }

  function TokOf(f: Field): Tok
    requires Annotated(f)
  {
    Tok(f.name, f.ty,
        if f.attrs[0] == Word("subst") then Subst else if f.attrs[0] == Word("ser") then Ser else Verb(f.attrs[0].text))
  }

  function TokensOf(fields: seq<Field>): (toks: seq<Tok>)
    requires forall a :: 0 <= a < |fields| ==> Annotated(fields[a])
    ensures |toks| == |fields| && forall a :: 0 <= a < |fields| ==> toks[a] == TokOf(fields[a])
  {
    if fields == [] then [] else [TokOf(fields[0])] + TokensOf(fields[1..])
  }

  lemma AttrTok(f: Field)
    requires Annotated(f)
    ensures AttrToks(f, f.attrs) == Some([TokOf(f)])
  {
    assert |"subst"| == 5 && |"ser"| == 3 && |"verbatim"| == 8;
  }

  lemma {:induction false} FieldTokens(fields: seq<Field>)
    requires forall a :: 0 <= a < |fields| ==> Annotated(fields[a])
    ensures FieldToks(fields) == Some(TokensOf(fields))
  {
    if fields != [] {
      AttrTok(fields[0]);
      FieldTokens(fields[1..]);
    }
  }

  ghost predicate SersBeforeVerbs(fields: seq<Field>) {
    forall a, b ::
      0 <= a < b < |fields| && Annotated(fields[a]) && Annotated(fields[b]) && TokOf(fields[a]).kind.Verb? ==>
        !TokOf(fields[b]).kind.Ser?
  }

  /** What the round trip needs of a declaration, read off its path and fields. */
  ghost predicate Tidy(e: Entry) {
    && |e.pats| >= 1
    && (forall k :: 0 <= k < |e.pats| ==> CleanPat(e.pats[k]))
    && (forall k, l :: 0 <= k < l < |e.pats| && e.pats[k].Capture? ==> e.pats[k] != e.pats[l])
    && (forall a :: 0 <= a < |e.fields| ==> Annotated(e.fields[a]))
    && (forall a, b :: 0 <= a < b < |e.fields| ==> e.fields[a].name != e.fields[b].name)
    && (forall a :: 0 <= a < |e.fields| ==> (TokOf(e.fields[a]).kind.Subst? <==> Capture(e.fields[a].name) in e.pats))
    && (forall k :: 0 <= k < |e.pats| && e.pats[k].Capture? ==>
        exists a :: 0 <= a < |e.fields| && e.fields[a].name == e.pats[k].name)
    && (forall a :: 0 <= a < |e.fields| && TokOf(e.fields[a]).kind.Verb? ==>
        VerbFits(TokOf(e.fields[a]).kind.accessor, e.fields[a].ty))
    && (forall a :: 0 <= a < |e.fields| && TokOf(e.fields[a]).kind.Subst? ==>
        e.fields[a].ty.TextType? || e.fields[a].ty == OpaqueType("Uuid"))
    && SersBeforeVerbs(e.fields)
  }

  ghost predicate OnlyUuidsPlaced(e: Entry) {
    forall a :: 0 <= a < |e.fields| && Annotated(e.fields[a]) && TokOf(e.fields[a]).kind.Subst? ==>
      e.fields[a].ty == OpaqueType("Uuid")
  }

  function MessageFor(e: Entry): Message
    requires forall a :: 0 <= a < |e.fields| ==> Annotated(e.fields[a])
  {
    MessageOf(PathText(e.pats), e.name, TokensOf(e.fields))
  }

  lemma DerivedFor(e: Entry)
    requires Tidy(e)
    ensures FromVariant(VariantOf(e)) == Derived(MessageFor(e))
  {
    FieldTokens(e.fields);
    assert PathOf(VariantOf(e).attrs) == Some(PathText(e.pats));
  }

  lemma {:induction false} SersFirstFrom(fields: seq<Field>)
    requires forall a :: 0 <= a < |fields| ==> Annotated(fields[a])
    requires SersBeforeVerbs(fields)
    ensures SersFirst(TokensOf(fields))
  {
    if fields != [] {
      var toks := TokensOf(fields);
      assert toks[1..] == TokensOf(fields[1..]);
      forall a | 0 <= a < |fields[1..]| ensures fields[1..][a] == fields[a + 1] {}
      SersFirstFrom(fields[1..]);
      assert Names(toks[1..], IsSer) != [] ==> exists b :: 0 <= b < |toks[1..]| && Tagged(toks[1..][b], IsSer) by {
        if Names(toks[1..], IsSer) != [] {
          NamesIn(toks[1..], IsSer, Names(toks[1..], IsSer)[0]);
        }
      }
    }
  }

  lemma TidyCompiles(e: Entry)
    requires Tidy(e)
    ensures Compiles(MessageFor(e)) && SersFirst(MessageFor(e).alltoks) && Patterns(MessageFor(e).path) == e.pats
  {
    var m := MessageFor(e);
    PathFromPatterns(e.pats);
    SersFirstFrom(e.fields);
    forall k | 0 <= k < |e.pats| && e.pats[k].Capture? ensures e.pats[k].name in m.substs {
      var a :| 0 <= a < |e.fields| && e.fields[a].name == e.pats[k].name;
      assert Capture(e.fields[a].name) == e.pats[k];
      assert Tagged(m.alltoks[a], IsSubst);
      NamesIn(m.alltoks, IsSubst, e.pats[k].name);
    }
  }

  /** The arms generated for a declaration: the variants that have a path. */
  function Arms(variants: seq<Variant>): seq<Message> {
    if variants == [] then []
    else match FromVariant(variants[0]) case Derived(m) => [m] + Arms(variants[1..]) case _ => Arms(variants[1..])
  }

  function Declared(table: seq<Entry>): seq<Variant> {
    seq(|table|, i requires 0 <= i < |table| => VariantOf(table[i]))
  }

  lemma {:induction false} ArmsFor(table: seq<Entry>)
    requires forall i :: 0 <= i < |table| ==> Tidy(table[i])
    ensures |Arms(Declared(table))| == |table|
    ensures forall i :: 0 <= i < |table| ==> Tidy(table[i]) && Arms(Declared(table))[i] == MessageFor(table[i])
  {
    hide Tidy, MessageFor, VariantOf, FromVariant;
    if table != [] {
      DerivedFor(table[0]);
      assert Declared(table)[1..] == Declared(table[1..]) && Declared(table)[0] == VariantOf(table[0]);
      ArmsFor(table[1..]);
    }
  }

  /** `which` tells entries apart by their paths and `named` by their names. */
  ghost predicate ToldApart(table: seq<Entry>, which: seq<string> -> int, named: string -> int) {
    forall i :: 0 <= i < |table| ==> named(table[i].name) == i && forall comps :: Matches(table[i].pats, comps) ==>
      which(comps) == i
  }

  lemma TableSchema(table: seq<Entry>, which: seq<string> -> int, named: string -> int)
    requires forall i :: 0 <= i < |table| ==> Tidy(table[i])
    requires ToldApart(table, which, named)
    ensures Schema(Arms(Declared(table)))
  {
    ArmsFor(table);
    var arms := Arms(Declared(table));
    forall i | 0 <= i < |arms| ensures Compiles(arms[i]) && Patterns(arms[i].path) == table[i].pats {
      TidyCompiles(table[i]);
    }
    forall i, j | 0 <= i < j < |arms|
      ensures Differ(Patterns(arms[i].path), Patterns(arms[j].path)) && arms[i].ident != arms[j].ident
    {
      DifferIffNoCommonPath(table[i].pats, table[j].pats);
      assert named(table[i].name) == i && named(table[j].name) == j;
    }
  }

  // ---- the tables ----

  const COMMANDS: seq<Entry> := [
    Entry("Ping", [Literal("ping")], []),
    Entry("Version", [Literal("version")], []),
    Entry("Subscribe", [Literal("subscribe")], []),
    Entry("SubscribeAndAssociate", [Literal("subscribe"), Literal("associate")],
          [Serialised("addr", OpaqueType("SocketAddr"))]),
    Entry("CreateAction", [Literal("actions"), Capture("typ"), Literal("new")], [Placed("typ", TextType)]),
    Entry("ActionList", [Literal("actionlist")], []),
    Entry("ActionInfo", [Literal("action"), Capture("uuid")], [Placed("uuid", OpaqueType("Uuid"))]),
    Entry("UpdateActionParams", [Literal("action"), Capture("uuid"), Literal("update")],
          [Placed("uuid", OpaqueType("Uuid")), Serialised("params", OpaqueType("ActionParameters")),
           Serialised("desc", OpaqueType("Option<String>"))]),
    Entry("UpdateActionMetadata", [Literal("action"), Capture("uuid"), Literal("updatemeta")],
          [Placed("uuid", OpaqueType("Uuid")), Serialised("meta", OpaqueType("ActionMetadata"))]),
    Entry("ReviveAction", [Literal("action"), Capture("uuid"), Literal("revive"), Capture("typ")],
          [Placed("uuid", OpaqueType("Uuid")), Placed("typ", TextType),
           Serialised("meta", OpaqueType("ActionMetadata")), Serialised("params", OpaqueType("ActionParameters"))]),
    Entry("CreateActionWithUuid", [Literal("action"), Capture("uuid"), Literal("create"), Capture("typ")],
          [Placed("typ", TextType), Placed("uuid", OpaqueType("Uuid"))]),
    Entry("CreateActionWithExtras", [Literal("action"), Capture("uuid"), Literal("create_extra"), Capture("typ")],
          [Placed("typ", TextType), Placed("uuid", OpaqueType("Uuid")),
           Serialised("params", OpaqueType("ActionParameters"))]),
    Entry("DeleteAction", [Literal("action"), Capture("uuid"), Literal("delete")],
          [Placed("uuid", OpaqueType("Uuid"))]),
    Entry("VerifyAction", [Literal("action"), Capture("uuid"), Literal("verify")],
          [Placed("uuid", OpaqueType("Uuid"))]),
    Entry("LoadAction", [Literal("action"), Capture("uuid"), Literal("load")], [Placed("uuid", OpaqueType("Uuid"))]),
    Entry("ExecuteAction", [Literal("action"), Capture("uuid"), Literal("execute")],
          [Placed("uuid", OpaqueType("Uuid"))]),
    Entry("ResetAction", [Literal("action"), Capture("uuid"), Literal("reset")], [Placed("uuid", OpaqueType("Uuid"))]),
    Entry("PauseAction", [Literal("action"), Capture("uuid"), Literal("pause")], [Placed("uuid", OpaqueType("Uuid"))]),
    Entry("ReorderAction", [Literal("action"), Capture("uuid"), Literal("reorder")],
          [Placed("uuid", OpaqueType("Uuid")), Serialised("new_pos", OpaqueType("usize"))]),
    Entry("GetMixerConf", [Literal("mixer"), Literal("config")], []),
    Entry("SetMixerConf", [Literal("mixer"), Literal("config"), Literal("set")],
          [Serialised("conf", OpaqueType("MixerConf"))]),
    Entry("MakeSavefile", [Literal("system"), Literal("save")], [Verbatim("save_to", TextType, "string")]),
    Entry("LoadSavefile", [Literal("system"), Literal("load")],
          [Verbatim("load_from", TextType, "string"), Verbatim("force", FlagType, "bool")]),
    Entry("Undo", [Literal("system"), Literal("undo")], []),
    Entry("Redo", [Literal("system"), Literal("redo")], []),
    Entry("GetUndoState", [Literal("system"), Literal("undostate")], []),
    Entry("GenerateWaveform", [Literal("waveform"), Capture("uuid"), Literal("generate")],
          [Placed("uuid", OpaqueType("Uuid")), Serialised("req", OpaqueType("WaveformRequest"))])
  ]

  const REPLIES: seq<Entry> := [
    Entry("Pong", [Literal("pong")], []),
    Entry("ServerVersion", [Literal("reply"), Literal("version")], [Verbatim("ver", TextType, "string")]),
    Entry("Subscribed", [Literal("reply"), Literal("subscribe")], []),
    Entry("Associated", [Literal("reply"), Literal("subscribe"), Literal("associate")],
          [Serialised("res", OpaqueType("Result<(), String>"))]),
    Entry("DeserFailed", [Literal("error"), Literal("deserfail")], [Verbatim("err", TextType, "string")]),
    Entry("ActionCreated", [Literal("reply"), Literal("actions"), Literal("create")],
          [Serialised("res", OpaqueType("Result<Uuid, String>"))]),
    Entry("ActionInfoRetrieved", [Literal("reply"), Literal("action"), Capture("uuid")],
          [Placed("uuid", OpaqueType("Uuid")), Serialised("res", OpaqueType("Result<OpaqueAction, String>"))]),
    Entry("ActionParamsUpdated", [Literal("reply"), Literal("action"), Capture("uuid"), Literal("update")],
          [Placed("uuid", OpaqueType("Uuid")), Serialised("res", OpaqueType("Result<(), String>"))]),
    Entry("ActionMetadataUpdated", [Literal("reply"), Literal("action"), Capture("uuid"), Literal("updatemeta")],
          [Placed("uuid", OpaqueType("Uuid")), Serialised("res", OpaqueType("Result<(), String>"))]),
    Entry("ActionDeleted", [Literal("reply"), Literal("action"), Capture("uuid"), Literal("delete")],
          [Placed("uuid", OpaqueType("Uuid")), Serialised("deleted", FlagType)]),
    Entry("ActionLoaded", [Literal("reply"), Literal("action"), Capture("uuid"), Literal("load")],
          [Placed("uuid", OpaqueType("Uuid")), Serialised("res", OpaqueType("Result<(), String>"))]),
    Entry("ActionExecuted", [Literal("reply"), Literal("action"), Capture("uuid"), Literal("execute")],
          [Placed("uuid", OpaqueType("Uuid")), Serialised("res", OpaqueType("Result<(), String>"))]),
    Entry("ActionMaybePaused", [Literal("reply"), Literal("action"), Capture("uuid"), Literal("pause")],
          [Placed("uuid", OpaqueType("Uuid")), Serialised("res", OpaqueType("Result<(), String>"))]),
    Entry("ActionReset", [Literal("reply"), Literal("action"), Capture("uuid"), Literal("reset")],
          [Placed("uuid", OpaqueType("Uuid")), Serialised("res", OpaqueType("Result<(), String>"))]),
    Entry("ActionReordered", [Literal("reply"), Literal("action"), Capture("uuid"), Literal("reorder")],
          [Placed("uuid", OpaqueType("Uuid")), Serialised("res", OpaqueType("Result<(), String>"))]),
    Entry("MixerConfSet", [Literal("reply"), Literal("mixer"), Literal("config")],
          [Serialised("res", OpaqueType("Result<(), String>"))]),
    Entry("ReplyActionList", [Literal("reply"), Literal("actionlist")],
          [Serialised("list", OpaqueType("HashMap<Uuid, OpaqueAction>")),
           Serialised("order", OpaqueType("Vec<Uuid>"))]),
    Entry("UpdateOrder", [Literal("update"), Literal("order")], [Serialised("order", OpaqueType("Vec<Uuid>"))]),
    Entry("UpdateActionInfo", [Literal("update"), Literal("action"), Capture("uuid")],
          [Placed("uuid", OpaqueType("Uuid")), Serialised("data", OpaqueType("OpaqueAction"))]),
    Entry("UpdateActionDeleted", [Literal("update"), Literal("action"), Capture("uuid"), Literal("delete")],
          [Placed("uuid", OpaqueType("Uuid"))]),
    Entry("UpdateMixerConf", [Literal("update"), Literal("mixer"), Literal("config")],
          [Serialised("conf", OpaqueType("MixerConf"))]),
    Entry("SavefileMade", [Literal("reply"), Literal("system"), Literal("save")],
          [Serialised("res", OpaqueType("Result<(), String>"))]),
    Entry("SavefileLoaded", [Literal("reply"), Literal("system"), Literal("load")],
          [Serialised("res", OpaqueType("Result<(), String>"))]),
    Entry("ReplyUndoState", [Literal("reply"), Literal("system"), Literal("undostate")],
          [Serialised("ctx", OpaqueType("UndoState"))]),
    Entry("WaveformGenerated", [Literal("reply"), Literal("waveform"), Capture("uuid"), Literal("generated")],
          [Placed("uuid", OpaqueType("Uuid")), Serialised("res", OpaqueType("Result<WaveformReply, String>"))]),
    Entry("OversizedReply", [Literal("error"), Literal("oversized")], [])
  ]

  // ---- the tables are tidy ----

  lemma SerialisedTok(f: Field)
    requires f == Serialised(f.name, f.ty)
    ensures Annotated(f) && TokOf(f).kind.Ser?
  {
    assert "ser"[1] != "subst"[1];
  }

  lemma TidySers(e: Entry)
    requires |e.pats| >= 1 && forall k :: 0 <= k < |e.pats| ==> e.pats[k].Literal? && CleanPat(e.pats[k])
    requires forall a :: 0 <= a < |e.fields| ==> e.fields[a] == Serialised(e.fields[a].name, e.fields[a].ty)
    requires forall a, b :: 0 <= a < b < |e.fields| ==> e.fields[a].name != e.fields[b].name
    ensures Tidy(e) && OnlyUuidsPlaced(e)
  {
    forall a | 0 <= a < |e.fields| ensures Annotated(e.fields[a]) && TokOf(e.fields[a]).kind.Ser? {
      SerialisedTok(e.fields[a]);
    }
  }

  lemma TidyVerbs(e: Entry)
    requires |e.pats| >= 1 && forall k :: 0 <= k < |e.pats| ==> e.pats[k].Literal? && CleanPat(e.pats[k])
    requires forall a :: 0 <= a < |e.fields| ==> |e.fields[a].attrs| == 1 && e.fields[a].attrs[0].NameValue?
    requires forall a :: 0 <= a < |e.fields| ==>
               e.fields[a] == Verbatim(e.fields[a].name, e.fields[a].ty, e.fields[a].attrs[0].text)
    requires forall a :: 0 <= a < |e.fields| ==> VerbFits(e.fields[a].attrs[0].text, e.fields[a].ty)
    requires forall a, b :: 0 <= a < b < |e.fields| ==> e.fields[a].name != e.fields[b].name
    ensures Tidy(e) && OnlyUuidsPlaced(e)
  {
  }

  lemma TidyOne(e: Entry, k: nat)
    requires k < |e.pats| && e.pats[k].Capture? && forall l :: 0 <= l < |e.pats| && l != k ==> e.pats[l].Literal?
    requires forall l :: 0 <= l < |e.pats| ==> CleanPat(e.pats[l])
    requires |e.fields| >= 1 && e.fields[0] == Placed(e.pats[k].name, e.fields[0].ty)
    requires e.fields[0].ty.TextType? || e.fields[0].ty == OpaqueType("Uuid")
    requires forall a :: 1 <= a < |e.fields| ==> e.fields[a] == Serialised(e.fields[a].name, e.fields[a].ty)
    requires forall a, b :: 0 <= a < b < |e.fields| ==> e.fields[a].name != e.fields[b].name
    ensures Tidy(e) && (e.fields[0].ty.OpaqueType? ==> OnlyUuidsPlaced(e))
  {
    forall a | 1 <= a < |e.fields|
      ensures Annotated(e.fields[a]) && TokOf(e.fields[a]).kind.Ser? && Capture(e.fields[a].name) !in e.pats
    {
      SerialisedTok(e.fields[a]);
    }
    assert Capture(e.fields[0].name) == e.pats[k];
  }

  lemma TidyTwo(e: Entry, k: nat, l: nat, p: nat, q: nat)
    requires k < l < |e.pats| && e.pats[k].Capture? && e.pats[l].Capture? && e.pats[k] != e.pats[l]
    requires forall j :: 0 <= j < |e.pats| && j != k && j != l ==> e.pats[j].Literal?
    requires forall j :: 0 <= j < |e.pats| ==> CleanPat(e.pats[j])
    requires |e.fields| >= 2 && p < 2 && q < 2 && p != q
    requires e.fields[p] == Placed(e.pats[k].name, e.fields[p].ty)
             && e.fields[q] == Placed(e.pats[l].name, e.fields[q].ty)
    requires forall a :: 0 <= a < 2 ==> e.fields[a].ty.TextType? || e.fields[a].ty == OpaqueType("Uuid")
    requires forall a :: 2 <= a < |e.fields| ==> e.fields[a] == Serialised(e.fields[a].name, e.fields[a].ty)
    requires forall a, b :: 0 <= a < b < |e.fields| ==> e.fields[a].name != e.fields[b].name
    ensures Tidy(e)
  {
    forall a | 2 <= a < |e.fields|
      ensures Annotated(e.fields[a]) && TokOf(e.fields[a]).kind.Ser? && Capture(e.fields[a].name) !in e.pats
    {
      SerialisedTok(e.fields[a]);
    }
    assert Capture(e.fields[p].name) == e.pats[k] && Capture(e.fields[q].name) == e.pats[l];
  }

  lemma NamesApart()
    ensures "uuid" != "typ" && "uuid" != "meta" && "uuid" != "params" && "uuid" != "desc" && "uuid" != "res"
            && "uuid" != "data" && "uuid" != "deleted"
    ensures "params" != "desc" && "typ" != "meta" && "typ" != "params" && "meta" != "params" && "uuid" != "new_pos"
            && "uuid" != "req"
    ensures "load_from" != "force" && "list" != "order"
  {
    assert "uuid"[0] == 'u' && "meta"[0] == 'm' && "desc"[0] == 'd' && "data"[0] == 'd';
  }

  // ---- the round trips ----

  ghost predicate UuidsSlashFree(lib: Lib) {
    forall v :: HasType(v, OpaqueType("Uuid")) ==> SlashFree(lib.show(v))
  }

  /** No text put into the path holds a slash; the text of a uuid never does. */
  ghost predicate PlacedTextsClean(e: Entry, fields: map<string, Value>) {
    forall a :: 0 <= a < |e.fields| && Annotated(e.fields[a]) && TokOf(e.fields[a]).kind.Subst? ==>
                  (e.fields[a].name in fields && fields[e.fields[a].name].Text? ==>
                   SlashFree(fields[e.fields[a].name].text))
  }

  ghost predicate ComesBack(lib: Lib, arms: seq<Message>, m: Msg) {
    && Sendable(arms, m)
    && ToOsc(lib, arms, m).Some?
    && FromOsc(lib, arms, ToOsc(lib, arms, m).value.addr, ToOsc(lib, arms, m).value.args) == Ok(m)
  }

  lemma PlacedTexts(lib: Lib, e: Entry, fields: map<string, Value>)
    requires Faithful(lib) && UuidsSlashFree(lib) && Tidy(e) && Typed(MessageFor(e), fields)
             && Holds(MessageFor(e).substs, fields)
    ensures TextsSlashFree(lib, MessageFor(e), fields) <==> PlacedTextsClean(e, fields)
  {
    var m := MessageFor(e);
    forall a | 0 <= a < |e.fields| && TokOf(e.fields[a]).kind.Subst?
      ensures e.fields[a].name in m.substs && e.fields[a].name in fields
              && HasType(fields[e.fields[a].name], e.fields[a].ty)
    {
      assert m.alltoks[a] == TokOf(e.fields[a]);
      NamesIn(m.alltoks, IsSubst, e.fields[a].name);
    }
    forall n | n in m.substs
      ensures exists a :: 0 <= a < |e.fields| && TokOf(e.fields[a]).kind.Subst? && e.fields[a].name == n
    {
      NamesIn(m.alltoks, IsSubst, n);
      var a :| 0 <= a < |m.alltoks| && Tagged(m.alltoks[a], IsSubst) && m.alltoks[a].name == n;
      assert m.alltoks[a] == TokOf(e.fields[a]);
    }
    hide TokOf, Names, Annotated;
  }

  lemma NothingUnsent(lib: Lib, e: Entry, fields: map<string, Value>)
    requires Tidy(e)
    ensures UnsentAreDefault(lib, MessageFor(e).alltoks, fields)
  {
  }

  /** In a tidy table a message comes back as it was sent exactly when no text placed in its path holds
      a slash. */
  lemma TableRoundTrip(lib: Lib, table: seq<Entry>, which: seq<string> -> int, named: string -> int, i: nat,
                       fields: map<string, Value>)
    requires Faithful(lib) && UuidsSlashFree(lib)
    requires (forall j :: 0 <= j < |table| ==> Tidy(table[j])) && ToldApart(table, which, named)
    requires i < |table| && Tidy(table[i]) && Typed(MessageFor(table[i]), fields)
    ensures ComesBack(lib, Arms(Declared(table)), Msg(table[i].name, fields)) <==> PlacedTextsClean(table[i], fields)
  {
    TableSchema(table, which, named);
    ArmsFor(table);
    TidyCompiles(table[i]);
    RoundTripIff(lib, Arms(Declared(table)), i, fields);
    PlacedTexts(lib, table[i], fields);
    NothingUnsent(lib, table[i], fields);
  }
}
