/** When a message decodes to itself: for every schema, exactly which messages and which schemas. */
module OscRoundTrip {
  import opened Containers
  import opened OscText
  import opened OscSchema

  // ---- which paths can be confused ----

  ghost predicate Differ(p: seq<Pat>, q: seq<Pat>) {
    |p| != |q| || exists k :: 0 <= k < |p| && p[k].Literal? && q[k].Literal? && p[k].text != q[k].text
  }

  /** Two patterns differ at a position that is literal in both exactly when no path matches both. */
  lemma DifferIffNoCommonPath(p: seq<Pat>, q: seq<Pat>)
    ensures Differ(p, q) <==> !exists comps :: Matches(p, comps) && Matches(q, comps)
  {
    if !Differ(p, q) {
      var comps := seq(|p|, k requires 0 <= k < |p| => if p[k].Literal? then p[k].text
                       else if q[k].Literal? then q[k].text else "");
      assert Matches(p, comps) && Matches(q, comps);
    }
  }

  ghost predicate Unambiguous(arms: seq<Message>) {
    forall i, j :: 0 <= i < j < |arms| ==> Differ(Patterns(arms[i].path), Patterns(arms[j].path))
  }

  /** First match is the only match exactly in an unambiguous schema. */
  lemma UnambiguousIffOneMatch(arms: seq<Message>)
    ensures Unambiguous(arms)
            <==> forall i, j, comps :: 0 <= i < j < |arms| ==>
              !(Matches(Patterns(arms[i].path), comps) && Matches(Patterns(arms[j].path), comps))
  {
    forall i, j | 0 <= i < j < |arms| {
      DifferIffNoCommonPath(Patterns(arms[i].path), Patterns(arms[j].path));
    }
  }

  ghost predicate Schema(arms: seq<Message>) {
    && (forall i :: 0 <= i < |arms| ==> Compiles(arms[i]))
    && (forall i, j :: 0 <= i < j < |arms| ==> arms[i].ident != arms[j].ident)
    && Unambiguous(arms)
  }

  // ---- arguments ----

  /** Serialised fields come before verbatim ones: the encoder always writes them so, the decoder
      reads them in field order. */
  predicate SersFirst(toks: seq<Tok>) {
    toks == [] || ((toks[0].kind.Verb? ==> Names(toks[1..], IsSer) == []) && SersFirst(toks[1..]))
  }

  function Recovered(lib: Lib, t: Tok, fields: map<string, Value>): Value
    requires t.name in fields
  {
    if t.kind.Plain? then lib.default(t.ty) else fields[t.name]
  }

  ghost predicate Readable(lib: Lib, toks: seq<Tok>, binds: map<string, string>, fields: map<string, Value>) {
    forall a :: 0 <= a < |toks| ==>
                  && toks[a].name in fields
                  && HasType(fields[toks[a].name], toks[a].ty)
                  && (toks[a].kind.Verb? ==> VerbFits(toks[a].kind.accessor, toks[a].ty))
                  && (toks[a].kind.Subst? ==>
                      toks[a].name in binds && binds[toks[a].name] == lib.show(fields[toks[a].name]))
  }

  function Sent(lib: Lib, sers: seq<string>, verbs: seq<string>, fields: map<string, Value>): seq<OscArg>
    requires Holds(sers, fields) && Holds(verbs, fields)
  {
    Blobs(lib, sers, fields) + Direct(verbs, fields)
  }

  function Refilled(lib: Lib, toks: seq<Tok>, fields: map<string, Value>, acc: map<string, Value>): map<string, Value>
    requires forall a :: 0 <= a < |toks| ==> toks[a].name in fields
  {
    if toks == [] then acc else Refilled(lib, toks[1..], fields, acc[toks[0].name := Recovered(lib, toks[0], fields)])
  }

  lemma NamesHead(toks: seq<Tok>)
    requires toks != []
    ensures Names(toks, IsSer) == if toks[0].kind.Ser? then [toks[0].name] + Names(toks[1..], IsSer)
            else Names(toks[1..], IsSer)
    ensures Names(toks, IsVerb) == if toks[0].kind.Verb? then [toks[0].name] + Names(toks[1..], IsVerb)
            else Names(toks[1..], IsVerb)
  {
  }

  lemma SentSer(lib: Lib, n: string, sers: seq<string>, verbs: seq<string>, fields: map<string, Value>)
    requires Holds([n] + sers, fields) && Holds(verbs, fields)
    ensures n in fields && Holds(sers, fields)
    ensures Sent(lib, [n] + sers, verbs, fields) == [Blob(lib.toBytes(fields[n]))] + Sent(lib, sers, verbs, fields)
  {
    assert ([n] + sers)[0] == n && ([n] + sers)[1..] == sers;
    assert forall a :: 0 <= a < |sers| ==> sers[a] == ([n] + sers)[a + 1];
  }

  lemma SentVerb(lib: Lib, n: string, verbs: seq<string>, fields: map<string, Value>)
    requires Holds([], fields) && Holds([n] + verbs, fields)
    ensures n in fields && Holds(verbs, fields)
    ensures Sent(lib, [], [n] + verbs, fields) == [IntoArg(fields[n])] + Sent(lib, [], verbs, fields)
  {
    assert ([n] + verbs)[0] == n && ([n] + verbs)[1..] == verbs;
    assert forall a :: 0 <= a < |verbs| ==> verbs[a] == ([n] + verbs)[a + 1];
  }

  lemma SentBlobFirst(lib: Lib, sers: seq<string>, verbs: seq<string>, fields: map<string, Value>)
    requires sers != [] && Holds(sers, fields) && Holds(verbs, fields)
    ensures Sent(lib, sers, verbs, fields) != [] && Sent(lib, sers, verbs, fields)[0].Blob?
  {
  }

  /** What the first token is read from, and what is left to read after it. */
  ghost predicate Heads(lib: Lib, t: Tok, v: Value, sent: seq<OscArg>, rest: seq<OscArg>) {
    match t.kind
    case Ser => sent == [Blob(lib.toBytes(v))] + rest
    case Verb(_) => sent == [IntoArg(v)] + rest
    case _ => sent == rest
  }

  lemma ReadHead(lib: Lib, t: Tok, binds: map<string, string>, v: Value, sent: seq<OscArg>, rest: seq<OscArg>)
    requires Faithful(lib) && HasType(v, t.ty) && Heads(lib, t, v, sent, rest)
    requires t.kind.Verb? ==> VerbFits(t.kind.accessor, t.ty)
    requires t.kind.Subst? ==> t.name in binds && binds[t.name] == lib.show(v)
    ensures ReadTok(lib, t, binds, sent) == Ok(Read(if t.kind.Plain? then lib.default(t.ty) else v, rest))
  {
    if t.kind.Ser? || t.kind.Verb? {
      assert sent[1..] == rest;
    }
  }

  lemma {:induction false} DecodeSent(lib: Lib, toks: seq<Tok>, sers: seq<string>, verbs: seq<string>,
                                      binds: map<string, string>, fields: map<string, Value>, acc: map<string, Value>)
    requires Faithful(lib) && Readable(lib, toks, binds, fields)
    requires sers == Names(toks, IsSer) && verbs == Names(toks, IsVerb) && Holds(sers, fields) && Holds(verbs, fields)
    ensures Decode(lib, toks, binds, Sent(lib, sers, verbs, fields), acc).Ok? <==> SersFirst(toks)
    ensures SersFirst(toks) ==>
              Decode(lib, toks, binds, Sent(lib, sers, verbs, fields), acc) == Ok(Refilled(lib, toks, fields, acc))
  {
    if toks != [] {
      var t, v := toks[0], fields[toks[0].name];
      forall a | 0 <= a < |toks[1..]| ensures toks[1..][a] == toks[a + 1] {}
      NamesHead(toks);
      var sers', verbs' := Names(toks[1..], IsSer), Names(toks[1..], IsVerb);
      hide Names, Sent, Holds;
      if t.kind.Verb? && sers' != [] {
        SentBlobFirst(lib, sers, verbs, fields);
      } else {
        match t.kind {
          case Ser => SentSer(lib, t.name, sers', verbs, fields);
          case Verb(_) => SentVerb(lib, t.name, verbs', fields);
          case _ =>
        }
        ReadHead(lib, t, binds, v, Sent(lib, sers, verbs, fields), Sent(lib, sers', verbs', fields));
        DecodeSent(lib, toks[1..], sers', verbs', binds, fields, acc[t.name := Recovered(lib, t, fields)]);
      }
    }
  }

  /** Each token's field is refilled from that token alone. */
  lemma {:induction false} RefilledAt(lib: Lib, toks: seq<Tok>, fields: map<string, Value>, acc: map<string, Value>)
    requires forall a :: 0 <= a < |toks| ==> toks[a].name in fields
    requires forall a, b :: 0 <= a < b < |toks| ==> toks[a].name != toks[b].name
    ensures var r := Refilled(lib, toks, fields, acc);
            && (forall a :: 0 <= a < |toks| ==> toks[a].name in r && r[toks[a].name] == Recovered(lib, toks[a], fields))
            && (forall n :: n in acc && (forall a :: 0 <= a < |toks| ==> toks[a].name != n) ==>
                n in r && r[n] == acc[n])
            && (forall n :: n in r ==> n in acc || exists a :: 0 <= a < |toks| && toks[a].name == n)
  {
    if toks != [] {
      forall a | 0 <= a < |toks[1..]| ensures toks[1..][a] == toks[a + 1] {}
      var acc' := acc[toks[0].name := Recovered(lib, toks[0], fields)];
      RefilledAt(lib, toks[1..], fields, acc');
      var r := Refilled(lib, toks[1..], fields, acc');
      assert Refilled(lib, toks, fields, acc) == r;
      assert forall a :: 0 <= a < |toks[1..]| ==> toks[1..][a].name != toks[0].name;
      assert toks[0].name in r && r[toks[0].name] == Recovered(lib, toks[0], fields);
      forall a | 0 < a < |toks| ensures toks[a].name in r && r[toks[a].name] == Recovered(lib, toks[a], fields) {
        assert toks[a] == toks[1..][a - 1];
      }
      forall n | n in r && n !in acc ensures exists a :: 0 <= a < |toks| && toks[a].name == n {
        if n != toks[0].name {
          var a :| 0 <= a < |toks[1..]| && toks[1..][a].name == n;
          assert toks[a + 1].name == n;
        }
      }
    }
  }

  predicate UnsentAreDefault(lib: Lib, toks: seq<Tok>, fields: map<string, Value>) {
    forall a :: 0 <= a < |toks| && toks[a].kind.Plain? ==>
      toks[a].name in fields && fields[toks[a].name] == lib.default(toks[a].ty)
  }

  lemma RefilledIff(lib: Lib, m: Message, fields: map<string, Value>)
    requires Typed(m, fields)
    requires forall a, b :: 0 <= a < b < |m.alltoks| ==> m.alltoks[a].name != m.alltoks[b].name
    ensures Refilled(lib, m.alltoks, fields, map[]) == fields <==> UnsentAreDefault(lib, m.alltoks, fields)
  {
    hide Refilled;
    RefilledAt(lib, m.alltoks, fields, map[]);
    var r := Refilled(lib, m.alltoks, fields, map[]);
    assert r.Keys == fields.Keys;
    forall n | n in fields
      ensures exists a ::
                0 <= a < |m.alltoks| && m.alltoks[a].name == n && r[n] == Recovered(lib, m.alltoks[a], fields)
    {
      var a :| 0 <= a < |m.alltoks| && m.alltoks[a].name == n;
    }
    if UnsentAreDefault(lib, m.alltoks, fields) {
      assert r == fields;
    }
  }

  // ---- the path ----

  predicate TextsSlashFree(lib: Lib, m: Message, fields: map<string, Value>)
    requires Holds(m.substs, fields)
  {
    forall n :: n in m.substs ==> SlashFree(lib.show(fields[n]))
  }

  lemma {:induction false} BindsAt(pats: seq<Pat>, comps: seq<string>, k: nat)
    requires |pats| == |comps| && k < |pats| && pats[k].Capture?
    requires forall i, j :: 0 <= i < j < |pats| && pats[i].Capture? ==> pats[i] != pats[j]
    ensures pats[k].name in Binds(pats, comps) && Binds(pats, comps)[pats[k].name] == comps[k]
  {
    if k > 0 {
      forall i | 0 <= i < |pats[1..]| ensures pats[1..][i] == pats[i + 1] {}
      BindsAt(pats[1..], comps[1..], k - 1);
      assert pats[1..][k - 1] == pats[k] && comps[1..][k - 1] == comps[k];
      assert pats[0] != pats[k];
    }
  }

  lemma FillSlash(m: Message, value: map<string, string>, k: nat)
    requires Compiles(m) && k < |Patterns(m.path)|
    requires Patterns(m.path)[k].Capture? ==> Patterns(m.path)[k].name in value
    ensures var p := Patterns(m.path)[k];
            SlashFree(FillAll(Patterns(m.path), value)[k]) <==> (p.Capture? ==> SlashFree(value[p.name]))
  {
    assert PatOf(Split(m.path)[k + 1]) == Patterns(m.path)[k];
    assert CleanComponent(Split(m.path)[k + 1]);
  }

  lemma FillsSlashFree(lib: Lib, m: Message, fields: map<string, Value>)
    requires Compiles(m) && Holds(m.substs, fields)
    ensures var fills := FillAll(Patterns(m.path), Texts(lib, m.substs, fields));
            TextsSlashFree(lib, m, fields) <==> forall k :: 0 <= k < |fills| ==> SlashFree(fills[k])
  {
    var pats, value := Patterns(m.path), Texts(lib, m.substs, fields);
    var fills := FillAll(pats, value);
    forall k | 0 <= k < |fills| && TextsSlashFree(lib, m, fields) ensures SlashFree(fills[k]) {
      FillSlash(m, value, k);
    }
    forall n | n in m.substs && (forall k :: 0 <= k < |fills| ==> SlashFree(fills[k]))
      ensures SlashFree(lib.show(fields[n]))
    {
      NamesIn(m.alltoks, IsSubst, n);
      assert Capture(n) in pats;
      var k :| 0 <= k < |pats| && pats[k] == Capture(n);
      FillSlash(m, value, k);
    }
  }

  /** The address a message is sent to: its own components when no text holds a slash, and then they
      bind each placeholder to its text; otherwise a longer path. */
  lemma SentPath(lib: Lib, m: Message, fields: map<string, Value>)
    requires Compiles(m) && Holds(m.substs, fields)
    ensures var pats, path := Patterns(m.path), Split(Format(m.path, Texts(lib, m.substs, fields)));
            if TextsSlashFree(lib, m, fields) then
              && path == [""] + FillAll(pats, Texts(lib, m.substs, fields))
              && Matches(pats, path[1..])
            else |path| > |pats| + 1
  {
    var value := Texts(lib, m.substs, fields);
    var fills := FillAll(Patterns(m.path), value);
    FormatPath(m.path, value);
    FillsSlashFree(lib, m, fields);
    var cs := [""] + fills;
    SplitJoin(cs);
    SplitAllClean(cs);
    assert (forall k :: 0 <= k < |cs| ==> SlashFree(cs[k]))
           <==> forall k :: 0 <= k < |fills| ==> SlashFree(fills[k]) by {
      assert SlashFree("");
      assert forall k :: 0 <= k < |fills| ==> fills[k] == cs[k + 1];
    }
    assert cs[1..] == fills;
  }

  lemma SentBinds(lib: Lib, m: Message, fields: map<string, Value>)
    requires Compiles(m) && Typed(m, fields) && Holds(m.substs, fields)
    ensures Readable(lib, m.alltoks, Binds(Patterns(m.path), FillAll(Patterns(m.path), Texts(lib, m.substs, fields))),
                     fields)
  {
    var pats, value := Patterns(m.path), Texts(lib, m.substs, fields);
    var fills := FillAll(pats, value);
    forall a | 0 <= a < |m.alltoks| && m.alltoks[a].kind.Subst?
      ensures m.alltoks[a].name in Binds(pats, fills)
              && Binds(pats, fills)[m.alltoks[a].name] == lib.show(fields[m.alltoks[a].name])
    {
      var n := m.alltoks[a].name;
      var k :| 0 <= k < |pats| && pats[k] == Capture(n);
      BindsAt(pats, fills, k);
      NamesIn(m.alltoks, IsSubst, n);
    }
  }

  // ---- the round trip ----

  ghost predicate Survives(lib: Lib, m: Message, fields: map<string, Value>)
    requires Holds(m.substs, fields)
  {
    && TextsSlashFree(lib, m, fields)
    && SersFirst(m.alltoks)
    && UnsentAreDefault(lib, m.alltoks, fields)
  }

  lemma OwnArm(arms: seq<Message>, i: nat, comps: seq<string>)
    requires Unambiguous(arms) && i < |arms| && Matches(Patterns(arms[i].path), comps)
    ensures Dispatch(arms, comps, 0) == Some(i)
  {
    var j := Dispatch(arms, comps, 0).value;
    if j < i {
      DifferIffNoCommonPath(Patterns(arms[j].path), Patterns(arms[i].path));
    }
  }

  /** Without slashes in its texts a message reaches its own arm. */
  lemma ReadsOwnArm(lib: Lib, arms: seq<Message>, i: nat, fields: map<string, Value>)
    requires Faithful(lib) && Schema(arms) && i < |arms| && Typed(arms[i], fields)
    requires Holds(arms[i].substs, fields) && Holds(arms[i].sers, fields) && Holds(arms[i].verbs, fields)
    requires TextsSlashFree(lib, arms[i], fields)
    ensures var p := Encode(lib, arms[i], fields);
            var r := FromOsc(lib, arms, p.addr, p.args);
            (r.Ok? <==> SersFirst(arms[i].alltoks))
              && (r.Ok? ==> r == Ok(Msg(arms[i].ident, Refilled(lib, arms[i].alltoks, fields, map[]))))
  {
    var m := arms[i];
    var p := Encode(lib, m, fields);
    SentPath(lib, m, fields);
    var path := Split(p.addr);
    OwnArm(arms, i, path[1..]);
    SentBinds(lib, m, fields);
    var binds := Binds(Patterns(m.path), path[1..]);
    assert path[1..] == FillAll(Patterns(m.path), Texts(lib, m.substs, fields));
    DecodeSent(lib, m.alltoks, m.sers, m.verbs, binds, fields, map[]);
  }

  /** A slash in a text makes the path too long for its own arm. */
  lemma MissesOwnArm(lib: Lib, arms: seq<Message>, i: nat, fields: map<string, Value>)
    requires Schema(arms) && i < |arms|
    requires Holds(arms[i].substs, fields) && Holds(arms[i].sers, fields) && Holds(arms[i].verbs, fields)
    requires !TextsSlashFree(lib, arms[i], fields)
    ensures var p := Encode(lib, arms[i], fields);
            var r := FromOsc(lib, arms, p.addr, p.args);
            r.Ok? ==> r.value.ident != arms[i].ident
  {
    var m := arms[i];
    SentPath(lib, m, fields);
    var path := Split(Encode(lib, m, fields).addr);
    assert !Matches(Patterns(m.path), path[1..]);
  }

  /** A message of any schema decodes to itself exactly when no substituted text holds a slash, its
      variant lists serialised fields before verbatim ones, and its unannotated fields are default. */
  lemma RoundTripIff(lib: Lib, arms: seq<Message>, i: nat, fields: map<string, Value>)
    requires Faithful(lib) && Schema(arms) && i < |arms| && Typed(arms[i], fields)
    ensures Sendable(arms, Msg(arms[i].ident, fields)) && Holds(arms[i].substs, fields)
    ensures var p := ToOsc(lib, arms, Msg(arms[i].ident, fields));
            p.Some? && (FromOsc(lib, arms, p.value.addr, p.value.args) == Ok(Msg(arms[i].ident, fields))
                        <==> Survives(lib, arms[i], fields))
  {
    var m := arms[i];
    TypedHolds(m, fields);
    assert ArmOf(arms, m.ident) == Some(i);
    RefilledIff(lib, m, fields);
    hide FromOsc, Encode;
    if TextsSlashFree(lib, m, fields) {
      ReadsOwnArm(lib, arms, i, fields);
    } else {
      MissesOwnArm(lib, arms, i, fields);
    }
  }

  /** Arguments beyond the expected ones change nothing. */
  lemma {:induction false} ExtraArgsIgnored(lib: Lib, toks: seq<Tok>, binds: map<string, string>, args: seq<OscArg>,
                                            extra: seq<OscArg>, acc: map<string, Value>)
    requires Decode(lib, toks, binds, args, acc).Ok?
    ensures Decode(lib, toks, binds, args + extra, acc) == Decode(lib, toks, binds, args, acc)
  {
    if toks != [] {
      var rd := ReadTok(lib, toks[0], binds, args).value;
      assert args != [] ==> (args + extra)[0] == args[0] && (args + extra)[1..] == args[1..] + extra;
      assert ReadTok(lib, toks[0], binds, args + extra) == Ok(Read(rd.value, rd.args + extra));
      ExtraArgsIgnored(lib, toks[1..], binds, rd.args, extra, acc[toks[0].name := rd.value]);
    }
  }
}
