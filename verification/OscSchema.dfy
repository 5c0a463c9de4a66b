/** The derived OSC codec: a message schema read from an enum declaration, the encoder and the decoder
    generated from it, and when a message comes back as it was sent. */
module OscSchema {
  import opened Containers
  import opened OscText

  // ---- the declaration ----

  datatype Attr = Word(word: string) | NameValue(key: string, text: string) | OtherAttr

  datatype FieldType = TextType | FlagType | IntType | OpaqueType(name: string)

  datatype Field = Field(name: string, ty: FieldType, attrs: seq<Attr>)

  /** `fields` is absent for variants that are not struct-like. */
  datatype Variant = Variant(name: string, attrs: seq<Attr>, fields: Option<seq<Field>>)

  // ---- the schema read from it ----

  datatype Kind = Subst | Ser | Verb(accessor: string) | Plain

  datatype Tok = Tok(name: string, ty: FieldType, kind: Kind)

  datatype Message = Message(path: string, ident: string, substs: seq<string>, sers: seq<string>, verbs: seq<string>,
                             alltoks: seq<Tok>)

  datatype Tag = IsSubst | IsSer | IsVerb

  predicate Tagged(t: Tok, tag: Tag) {
    match tag case IsSubst => t.kind.Subst? case IsSer => t.kind.Ser? case IsVerb => t.kind.Verb?
  }

  function Names(toks: seq<Tok>, tag: Tag): seq<string> {
    if toks == [] then [] else (if Tagged(toks[0], tag) then [toks[0].name] else []) + Names(toks[1..], tag)
  }

  lemma {:induction false} NamesSnoc(toks: seq<Tok>, t: Tok, tag: Tag)
    ensures Names(toks + [t], tag) == Names(toks, tag) + (if Tagged(t, tag) then [t.name] else [])
  {
    if toks == [] {
      assert (toks + [t])[1..] == [];
    } else {
      NamesSnoc(toks[1..], t, tag);
      assert (toks + [t])[1..] == toks[1..] + [t];
    }
  }

  lemma {:induction false} NamesIn(toks: seq<Tok>, tag: Tag, n: string)
    ensures n in Names(toks, tag) <==> exists a :: 0 <= a < |toks| && Tagged(toks[a], tag) && toks[a].name == n
  {
    if toks != [] {
      NamesIn(toks[1..], tag, n);
      assert toks == [toks[0]] + toks[1..];
      if a :| 0 <= a < |toks| && Tagged(toks[a], tag) && toks[a].name == n {
        assert a > 0 ==> toks[1..][a - 1] == toks[a];
      }
      if b :| 0 <= b < |toks[1..]| && Tagged(toks[1..][b], tag) && toks[1..][b].name == n {
        assert toks[b + 1] == toks[1..][b];
      }
    }
  }

  /** The text of the first `oscpath`. */
  function PathOf(attrs: seq<Attr>): (r: Option<string>)
    ensures r.None? <==> forall i :: 0 <= i < |attrs| ==> !(attrs[i].NameValue? && attrs[i].key == "oscpath")
    ensures r.Some? ==> exists i :: 0 <= i < |attrs| && attrs[i] == NameValue("oscpath", r.value)
                                    && forall j :: 0 <= j < i ==> !(attrs[j].NameValue? && attrs[j].key == "oscpath")
  {
    if attrs == [] then None
    else if attrs[0].NameValue? && attrs[0].key == "oscpath" then Some(attrs[0].text)
    else PathOf(attrs[1..])
  }

  /** The first attribute naming a treatment decides; every other attribute met before it adds a
      defaulted token of its own. None is the generator's panic on a bare `verbatim`. */
  function AttrToks(f: Field, attrs: seq<Attr>): Option<seq<Tok>> {
    if attrs == [] then Some([])
    else
      match attrs[0]
      case Word(w) =>
        if w == "subst" then Some([Tok(f.name, f.ty, Subst)])
        else if w == "ser" then Some([Tok(f.name, f.ty, Ser)])
        else if w == "verbatim" then None
        else Some([Tok(f.name, f.ty, Plain)])
      case NameValue(k, t) =>
        if k == "verbatim" then Some([Tok(f.name, f.ty, Verb(t))]) else Plainly(f, AttrToks(f, attrs[1..]))
      case OtherAttr => Plainly(f, AttrToks(f, attrs[1..]))
  }

  function Plainly(f: Field, rest: Option<seq<Tok>>): Option<seq<Tok>> {
    match rest case None => None case Some(toks) => Some([Tok(f.name, f.ty, Plain)] + toks)
  }

  predicate Decides(a: Attr) {
    a.Word? || (a.NameValue? && a.key == "verbatim")
  }

  function Plains(f: Field, n: nat): (r: seq<Tok>)
    ensures |r| == n && forall i :: 0 <= i < n ==> r[i] == Tok(f.name, f.ty, Plain)
  {
    seq(n, _ => Tok(f.name, f.ty, Plain))
  }

  function FieldToks(fields: seq<Field>): Option<seq<Tok>> {
    if fields == [] then Some([])
    else
      match (AttrToks(fields[0], fields[0].attrs), FieldToks(fields[1..]))
      case (Some(a), Some(b)) => Some(a + b)
      case _ => None
  }

  function FieldsOf(v: Variant): seq<Field> {
    match v.fields case Some(fs) => fs case None => []
  }

  function MessageOf(path: string, ident: string, toks: seq<Tok>): Message {
    Message(path, ident, Names(toks, IsSubst), Names(toks, IsSer), Names(toks, IsVerb), toks)
  }

  datatype Derived = NoPath | Panic | Derived(msg: Message)

  function FromVariant(v: Variant): Derived {
    match PathOf(v.attrs)
    case None => NoPath
    case Some(path) =>
      match FieldToks(FieldsOf(v))
      case None => Panic
      case Some(toks) => Derived(MessageOf(path, v.name, toks))
  }

  // ---- reading the declaration, as the generator does ----

  method MessagePath(attrs: seq<Attr>) returns (path: Option<string>)
    ensures path == PathOf(attrs)
  {
    path := None;
    var i := 0;
    while i < |attrs|
      invariant i <= |attrs| && PathOf(attrs) == PathOf(attrs[i..])
    {
      if attrs[i].NameValue? && attrs[i].key == "oscpath" {
        return Some(attrs[i].text);
      }
      assert attrs[i..][1..] == attrs[i + 1..];
      i := i + 1;
    }
  }

  function Append(toks: seq<Tok>, rest: Option<seq<Tok>>): Option<seq<Tok>> {
    match rest case None => None case Some(more) => Some(toks + more)
  }

  lemma AppendAppend(a: seq<Tok>, b: seq<Tok>, rest: Option<seq<Tok>>)
    ensures Append(a, Append(b, rest)) == Append(a + b, rest)
  {
    if rest.Some? {
      assert a + (b + rest.value) == (a + b) + rest.value;
    }
  }

  /** A field with n attributes before one that decides, or before the end: a defaulted token for each of
      the n, then what is decided. */
  lemma {:induction false} DecidedBy(f: Field, attrs: seq<Attr>, n: nat)
    requires n <= |attrs| && forall j :: 0 <= j < n ==> !Decides(attrs[j])
    requires n < |attrs| ==> Decides(attrs[n])
    ensures AttrToks(f, attrs) ==
            Append(Plains(f, n),
                   if n == |attrs| then Some([])
                   else match attrs[n]
                        case Word(w) =>
                          if w == "verbatim" then None
                          else Some([Tok(f.name, f.ty, if w == "subst" then Subst else if w == "ser" then Ser
                                                       else Plain)])
                        case NameValue(_, t) => Some([Tok(f.name, f.ty, Verb(t))])
                        case OtherAttr => None)
  {
    if n > 0 {
      DecidedBy(f, attrs[1..], n - 1);
      assert Plains(f, n) == [Tok(f.name, f.ty, Plain)] + Plains(f, n - 1);
      AppendAppend([Tok(f.name, f.ty, Plain)], Plains(f, n - 1),
                   if n == |attrs| then Some([]) else AttrToks(f, attrs[n..]));
      assert n < |attrs| ==> attrs[n..][0] == attrs[n];
    } else {
      assert Plains(f, 0) == [];
      assert AttrToks(f, attrs).Some? ==> [] + AttrToks(f, attrs).value == AttrToks(f, attrs).value;
    }
  }

  /** The four token lists grow together. None is the panic. */
  method FieldTokens(f: Field, before: Message) returns (r: Option<Message>)
    requires before == MessageOf(before.path, before.ident, before.alltoks)
    ensures match Append(before.alltoks, AttrToks(f, f.attrs))
            case None => r == None
            case Some(toks) => r == Some(MessageOf(before.path, before.ident, toks))
  {
    var m := before;
    var i := 0;
    while i < |f.attrs|
      invariant i <= |f.attrs|
      invariant m == MessageOf(before.path, before.ident, m.alltoks)
      invariant Append(before.alltoks, AttrToks(f, f.attrs)) == Append(m.alltoks, AttrToks(f, f.attrs[i..]))
    {
      var attr := f.attrs[i];
      if attr == Word("verbatim") {
        return None;
      }
      var kind := match attr
        case Word(w) => if w == "subst" then Subst else if w == "ser" then Ser else Plain
        case NameValue(k, t) => if k == "verbatim" then Verb(t) else Plain
        case OtherAttr => Plain;
      var tok := Tok(f.name, f.ty, kind);
      assert f.attrs[i..][1..] == f.attrs[i + 1..];
      AppendAppend(m.alltoks, [tok], AttrToks(f, f.attrs[i + 1..]));
      m := AddToken(m, tok);
      if attr.Word? || kind.Verb? {
        return Some(m);
      }
      i := i + 1;
    }
    r := Some(m);
    assert m.alltoks + [] == m.alltoks;
  }

  method AddToken(m: Message, tok: Tok) returns (r: Message)
    requires m == MessageOf(m.path, m.ident, m.alltoks)
    ensures r == MessageOf(m.path, m.ident, m.alltoks + [tok])
  {
    NamesSnoc(m.alltoks, tok, IsSubst);
    NamesSnoc(m.alltoks, tok, IsSer);
    NamesSnoc(m.alltoks, tok, IsVerb);
    r := m.(alltoks := m.alltoks + [tok]);
    match tok.kind {
      case Subst => r := r.(substs := r.substs + [tok.name]);
      case Ser => r := r.(sers := r.sers + [tok.name]);
      case Verb(_) => r := r.(verbs := r.verbs + [tok.name]);
      case Plain =>
    }
  }

  method MessageFromVariant(v: Variant) returns (r: Derived)
    ensures r == FromVariant(v)
  {
    var path := MessagePath(v.attrs);
    if path.None? {
      return NoPath;
    }
    var fields := FieldsOf(v);
    var m := Message(path.value, v.name, [], [], [], []);
    var i := 0;
    assert fields[0..] == fields;
    assert FieldToks(fields).Some? ==> [] + FieldToks(fields).value == FieldToks(fields).value;
    while i < |fields|
      invariant i <= |fields|
      invariant m == MessageOf(path.value, v.name, m.alltoks)
      invariant FieldToks(fields) == Append(m.alltoks, FieldToks(fields[i..]))
    {
      assert fields[i..][1..] == fields[i + 1..];
      ghost var here, rest := AttrToks(fields[i], fields[i].attrs), FieldToks(fields[i + 1..]);
      if here.Some? {
        AppendAppend(m.alltoks, here.value, rest);
      }
      var next := FieldTokens(fields[i], m);
      if next.None? {
        return Panic;
      }
      m := next.value;
      i := i + 1;
    }
    assert m.alltoks + [] == m.alltoks;
    r := Derived(m);
  }

  // ---- values and packets ----

  datatype Value = Text(text: string) | Flag(flag: bool) | Int(num: int) | Opaque(ty: string, id: nat)

  predicate HasType(v: Value, ty: FieldType) {
    match ty
    case TextType => v.Text?
    case FlagType => v.Flag?
    case IntType => v.Int?
    case OpaqueType(n) => v.Opaque? && v.ty == n
  }

  datatype OscArg = Blob(bytes: seq<bv8>) | StringArg(text: string) | BoolArg(flag: bool) | IntArg(num: int) | OtherArg

  /** Text and byte forms of values, and the default of each type. */
  datatype Lib = Lib(
    show: Value -> string,
    parse: (FieldType, string) -> Option<Value>,
    toBytes: Value -> seq<bv8>,
    fromBytes: (FieldType, seq<bv8>) -> Option<Value>,
    default: FieldType -> Value)

  /** Reading undoes writing, at every type; the text of a string is the string. */
  ghost predicate Faithful(lib: Lib) {
    && (forall v, ty :: HasType(v, ty) ==> lib.parse(ty, lib.show(v)) == Some(v))
    && (forall v, ty :: HasType(v, ty) ==> lib.fromBytes(ty, lib.toBytes(v)) == Some(v))
    && (forall s :: lib.show(Text(s)) == s)
  }

  function IntoArg(v: Value): OscArg {
    match v case Text(s) => StringArg(s) case Flag(b) => BoolArg(b) case Int(i) => IntArg(i)
      case Opaque(_, _) => OtherArg
  }

  function Access(accessor: string, a: OscArg): Option<Value> {
    match a
    case StringArg(s) => if accessor == "string" then Some(Text(s)) else None
    case BoolArg(b) => if accessor == "bool" then Some(Flag(b)) else None
    case IntArg(i) => if accessor == "int" then Some(Int(i)) else None
    case _ => None
  }

  /** A scalar argument is accepted by the accessor of its own type, and only by that one. */
  lemma AccessIff(accessor: string, a: OscArg, v: Value)
    ensures Access(accessor, a) == Some(v) <==>
            || (accessor == "string" && a.StringArg? && v == Text(a.text))
            || (accessor == "bool" && a.BoolArg? && v == Flag(a.flag))
            || (accessor == "int" && a.IntArg? && v == Int(a.num))
  {
    assert |"string"| == 6 && |"bool"| == 4 && |"int"| == 3;
  }

  predicate VerbFits(accessor: string, ty: FieldType) {
    match ty
    case TextType => accessor == "string"
    case FlagType => accessor == "bool"
    case IntType => accessor == "int"
    case OpaqueType(_) => false
  }

  datatype Packet = Packet(addr: string, args: Option<seq<OscArg>>)

  datatype Msg = Msg(ident: string, fields: map<string, Value>)

  datatype OscError = BlankPath | UnknownPath | WrongArgs(wanted: string) | ParseFailed | BlobFailed

  // ---- what the compiler accepts ----

  /** Every field has one token, every placeholder one substituted field, every accessor its type. */
  ghost predicate Compiles(m: Message) {
    && m == MessageOf(m.path, m.ident, m.alltoks)
    && CleanPath(m.path)
    && (forall a, b :: 0 <= a < b < |m.alltoks| ==> m.alltoks[a].name != m.alltoks[b].name)
    && (forall a :: 0 <= a < |m.alltoks| ==>
        (m.alltoks[a].kind.Subst? <==> Capture(m.alltoks[a].name) in Patterns(m.path)))
    && (forall k :: 0 <= k < |Patterns(m.path)| && Patterns(m.path)[k].Capture? ==>
        Patterns(m.path)[k].name in m.substs)
    && (forall k, l :: 0 <= k < l < |Patterns(m.path)| && Patterns(m.path)[k].Capture? ==>
        Patterns(m.path)[k] != Patterns(m.path)[l])
    && (forall a :: 0 <= a < |m.alltoks| && m.alltoks[a].kind.Verb? ==>
        VerbFits(m.alltoks[a].kind.accessor, m.alltoks[a].ty))
  }

  predicate Typed(m: Message, fields: map<string, Value>) {
    && (forall a :: 0 <= a < |m.alltoks| ==>
        m.alltoks[a].name in fields && HasType(fields[m.alltoks[a].name], m.alltoks[a].ty))
    && (forall n :: n in fields ==> exists a :: 0 <= a < |m.alltoks| && m.alltoks[a].name == n)
  }

  // ---- the generated encoder ----

  predicate Holds(names: seq<string>, fields: map<string, Value>) {
    forall a :: 0 <= a < |names| ==> names[a] in fields
  }

  function Texts(lib: Lib, substs: seq<string>, fields: map<string, Value>): map<string, string>
    requires Holds(substs, fields)
  {
    map n | n in substs :: lib.show(fields[n])
  }

  function Blobs(lib: Lib, sers: seq<string>, fields: map<string, Value>): seq<OscArg>
    requires Holds(sers, fields)
    decreases |sers|
  {
    if sers == [] then [] else [Blob(lib.toBytes(fields[sers[0]]))] + Blobs(lib, sers[1..], fields)
  }

  function Direct(verbs: seq<string>, fields: map<string, Value>): seq<OscArg>
    requires Holds(verbs, fields)
    decreases |verbs|
  {
    if verbs == [] then [] else [IntoArg(fields[verbs[0]])] + Direct(verbs[1..], fields)
  }

  lemma TypedHolds(m: Message, fields: map<string, Value>)
    requires m == MessageOf(m.path, m.ident, m.alltoks)
    requires forall a :: 0 <= a < |m.alltoks| ==> m.alltoks[a].name in fields
    ensures Holds(m.substs, fields) && Holds(m.sers, fields) && Holds(m.verbs, fields)
  {
    forall n | n in m.substs ensures n in fields { NamesIn(m.alltoks, IsSubst, n); }
    forall n | n in m.sers ensures n in fields { NamesIn(m.alltoks, IsSer, n); }
    forall n | n in m.verbs ensures n in fields { NamesIn(m.alltoks, IsVerb, n); }
  }

  function Encode(lib: Lib, m: Message, fields: map<string, Value>): Packet
    requires Holds(m.substs, fields) && Holds(m.sers, fields) && Holds(m.verbs, fields)
  {
    var args := Blobs(lib, m.sers, fields) + Direct(m.verbs, fields);
    Packet(Format(m.path, Texts(lib, m.substs, fields)), if args == [] then None else Some(args))
  }

  /** The arguments sent: a blob per serialised field, then the verbatim fields as they are. */
  lemma {:induction false} ArgsSent(lib: Lib, m: Message, fields: map<string, Value>)
    requires Holds(m.substs, fields) && Holds(m.sers, fields) && Holds(m.verbs, fields)
    ensures
      var p := Encode(lib, m, fields);
      && (p.args.None? <==> m.sers == [] && m.verbs == [])
      && (p.args.Some? ==>
            && |p.args.value| == |m.sers| + |m.verbs|
            && (forall k :: 0 <= k < |m.sers| ==> p.args.value[k] == Blob(lib.toBytes(fields[m.sers[k]])))
            && (forall k :: 0 <= k < |m.verbs| ==>
                  p.args.value[|m.sers| + k] ==
                    match fields[m.verbs[k]]
                    case Text(t) => StringArg(t)
                    case Flag(b) => BoolArg(b)
                    case Int(i) => IntArg(i)
                    case Opaque(_, _) => OtherArg))
  {
    BlobsAt(lib, m.sers, fields);
    DirectAt(m.verbs, fields);
    hide Format, Texts;
  }

  lemma {:induction false} BlobsAt(lib: Lib, sers: seq<string>, fields: map<string, Value>)
    requires Holds(sers, fields)
    ensures |Blobs(lib, sers, fields)| == |sers|
    ensures forall k :: 0 <= k < |sers| ==> Blobs(lib, sers, fields)[k] == Blob(lib.toBytes(fields[sers[k]]))
    decreases |sers|
  {
    if sers != [] {
      BlobsAt(lib, sers[1..], fields);
      assert forall k :: 0 < k < |sers| ==> Blobs(lib, sers, fields)[k] == Blobs(lib, sers[1..], fields)[k - 1];
    }
  }

  lemma {:induction false} DirectAt(verbs: seq<string>, fields: map<string, Value>)
    requires Holds(verbs, fields)
    ensures |Direct(verbs, fields)| == |verbs|
    ensures forall k :: 0 <= k < |verbs| ==> Direct(verbs, fields)[k] == IntoArg(fields[verbs[k]])
    decreases |verbs|
  {
    if verbs != [] {
      DirectAt(verbs[1..], fields);
      assert forall k :: 0 < k < |verbs| ==> Direct(verbs, fields)[k] == Direct(verbs[1..], fields)[k - 1];
    }
  }

  function ArmOf(arms: seq<Message>, ident: string): (r: Option<nat>)
    ensures r.Some? ==> r.value < |arms| && arms[r.value].ident == ident
    ensures r.None? ==> forall i :: 0 <= i < |arms| ==> arms[i].ident != ident
  {
    if arms == [] then None
    else if arms[0].ident == ident then Some(0)
    else match ArmOf(arms[1..], ident) case None => None case Some(i) => assert arms[1..][i] == arms[i + 1]; Some(i + 1)
  }

  predicate Sendable(arms: seq<Message>, msg: Msg) {
    match ArmOf(arms, msg.ident)
    case None => true
    case Some(i) =>
      Holds(arms[i].substs, msg.fields) && Holds(arms[i].sers, msg.fields) && Holds(arms[i].verbs, msg.fields)
  }

  /** None for variants without a path. */
  function ToOsc(lib: Lib, arms: seq<Message>, msg: Msg): Option<Packet>
    requires Sendable(arms, msg)
  {
    match ArmOf(arms, msg.ident) case None => None case Some(i) => Some(Encode(lib, arms[i], msg.fields))
  }

  method EncodeMessage(lib: Lib, m: Message, fields: map<string, Value>) returns (p: Packet)
    requires Holds(m.substs, fields) && Holds(m.sers, fields) && Holds(m.verbs, fields)
    ensures p == Encode(lib, m, fields)
  {
    var path := Format(m.path, Texts(lib, m.substs, fields));
    var args := Blobs(lib, m.sers, fields);
    assert m.verbs[0..] == m.verbs;
    for i := 0 to |m.verbs|
      invariant args + Direct(m.verbs[i..], fields) == Blobs(lib, m.sers, fields) + Direct(m.verbs, fields)
    {
      assert m.verbs[i..][1..] == m.verbs[i + 1..];
      args := args + [IntoArg(fields[m.verbs[i]])];
    }
    assert Direct(m.verbs[|m.verbs|..], fields) == [] && args + [] == args;
    p := Packet(path, if |args| == 0 then None else Some(args));
  }

  // ---- the generated decoder ----

  predicate Matches(pats: seq<Pat>, comps: seq<string>) {
    |pats| == |comps| && forall k :: 0 <= k < |pats| && pats[k].Literal? ==> pats[k].text == comps[k]
  }

  function Binds(pats: seq<Pat>, comps: seq<string>): map<string, string>
    requires |pats| == |comps|
  {
    if pats == [] then map[]
    else if pats[0].Capture? then Binds(pats[1..], comps[1..])[pats[0].name := comps[0]]
    else Binds(pats[1..], comps[1..])
  }

  function Dispatch(arms: seq<Message>, comps: seq<string>, i: nat): (r: Option<nat>)
    requires i <= |arms|
    ensures r.Some? ==> i <= r.value < |arms| && Matches(Patterns(arms[r.value].path), comps)
    ensures r.Some? ==> forall j :: i <= j < r.value ==> !Matches(Patterns(arms[j].path), comps)
    ensures r.None? ==> forall j :: i <= j < |arms| ==> !Matches(Patterns(arms[j].path), comps)
    decreases |arms| - i
  {
    if i == |arms| then None
    else if Matches(Patterns(arms[i].path), comps) then Some(i)
    else Dispatch(arms, comps, i + 1)
  }

  datatype Read = Read(value: Value, args: seq<OscArg>)

  function ReadTok(lib: Lib, t: Tok, binds: map<string, string>, args: seq<OscArg>): Result<Read, OscError> {
    match t.kind
    case Subst =>
      if t.name !in binds then Err(ParseFailed)
      else (match lib.parse(t.ty, binds[t.name]) case None => Err(ParseFailed) case Some(v) => Ok(Read(v, args)))
    case Ser =>
      if args == [] || !args[0].Blob? then Err(WrongArgs("blob"))
      else (match lib.fromBytes(t.ty, args[0].bytes) case None => Err(BlobFailed)
            case Some(v) => Ok(Read(v, args[1..])))
    case Verb(id) =>
      if args == [] then Err(WrongArgs(id))
      else (match Access(id, args[0]) case None => Err(WrongArgs(id)) case Some(v) => Ok(Read(v, args[1..])))
    case Plain => Ok(Read(lib.default(t.ty), args))
  }

  function Decode(lib: Lib, toks: seq<Tok>, binds: map<string, string>, args: seq<OscArg>, acc: map<string, Value>)
    : Result<map<string, Value>, OscError>
  {
    if toks == [] then Ok(acc)
    else
      match ReadTok(lib, toks[0], binds, args)
      case Err(e) => Err(e)
      case Ok(rd) => Decode(lib, toks[1..], binds, rd.args, acc[toks[0].name := rd.value])
  }

  function FromOsc(lib: Lib, arms: seq<Message>, addr: string, args: Option<seq<OscArg>>): Result<Msg, OscError> {
    var path := Split(addr);
    var given := match args case Some(a) => a case None => [];
    if |path| < 2 then Err(BlankPath)
    else
      match Dispatch(arms, path[1..], 0)
      case None => Err(UnknownPath)
      case Some(i) =>
        match Decode(lib, arms[i].alltoks, Binds(Patterns(arms[i].path), path[1..]), given, map[])
        case Err(e) => Err(e)
        case Ok(fields) => Ok(Msg(arms[i].ident, fields))
  }

  // ---- when decoding succeeds ----

  /** How many arguments the fields before the k-th one take. */
  function Taken(toks: seq<Tok>, k: nat): (n: nat)
    requires k <= |toks|
    ensures n <= k
  {
    if k == 0 then 0
    else Taken(toks, k - 1) + (if toks[k - 1].kind.Ser? || toks[k - 1].kind.Verb? then 1 else 0)
  }

  /** What a field can be read from, when it is the n-th argument's turn. */
  ghost predicate Fits(lib: Lib, t: Tok, binds: map<string, string>, args: seq<OscArg>, n: nat) {
    match t.kind
    case Subst => t.name in binds && lib.parse(t.ty, binds[t.name]).Some?
    case Ser => n < |args| && args[n].Blob? && lib.fromBytes(t.ty, args[n].bytes).Some?
    case Verb(id) =>
      n < |args| && ((id == "string" && args[n].StringArg?) || (id == "bool" && args[n].BoolArg?)
                     || (id == "int" && args[n].IntArg?))
    case Plain => true
  }

  /** The error of a field that cannot be read. */
  ghost predicate FailsWith(t: Tok, args: seq<OscArg>, n: nat, e: OscError) {
    match t.kind
    case Subst => e == ParseFailed
    case Ser => e == if n < |args| && args[n].Blob? then BlobFailed else WrongArgs("blob")
    case Verb(id) => e == WrongArgs(id)
    case Plain => false
  }

  lemma ReadsIff(lib: Lib, t: Tok, binds: map<string, string>, args: seq<OscArg>, n: nat)
    requires n <= |args|
    ensures
      var r := ReadTok(lib, t, binds, args[n..]);
      if Fits(lib, t, binds, args, n) then
        r.Ok? && r.value.args == (if t.kind.Ser? || t.kind.Verb? then args[n + 1..] else args[n..])
      else r.Err? && FailsWith(t, args, n, r.error)
  {
    if n < |args| {
      assert args[n..][0] == args[n] && args[n..][1..] == args[n + 1..];
      if t.kind.Verb? {
        AccessIff(t.kind.accessor, args[n], if args[n].StringArg? then Text(args[n].text)
                                            else if args[n].BoolArg? then Flag(args[n].flag)
                                            else if args[n].IntArg? then Int(args[n].num) else Flag(true));
      }
    }
  }

  ghost predicate AllFit(lib: Lib, toks: seq<Tok>, i: nat, binds: map<string, string>, args: seq<OscArg>) {
    forall k :: i <= k < |toks| ==> Fits(lib, toks[k], binds, args, Taken(toks, k))
  }

  /** From field i on, the first misfit is field k, with that error. */
  ghost predicate FailsAt(lib: Lib, toks: seq<Tok>, i: nat, k: nat, binds: map<string, string>, args: seq<OscArg>,
                          e: OscError)
  {
    && i <= k < |toks|
    && (forall j :: i <= j < k ==> Fits(lib, toks[j], binds, args, Taken(toks, j)))
    && !Fits(lib, toks[k], binds, args, Taken(toks, k))
    && FailsWith(toks[k], args, Taken(toks, k), e)
  }

  /** Decoding succeeds if and only if every field finds what it needs, serialised and verbatim ones each
      in the next argument; otherwise the first that does not decides the error. */
  lemma DecodesIff(lib: Lib, toks: seq<Tok>, binds: map<string, string>, args: seq<OscArg>)
    ensures
      var r := Decode(lib, toks, binds, args, map[]);
      && (r.Ok? <==> AllFit(lib, toks, 0, binds, args))
      && (r.Err? ==> exists k :: FailsAt(lib, toks, 0, k, binds, args, r.error))
  {
    assert toks[0..] == toks && args[0..] == args;
    DecodesFrom(lib, toks, 0, binds, args, map[]);
  }

  lemma {:induction false} DecodesFrom(lib: Lib, toks: seq<Tok>, i: nat, binds: map<string, string>,
                                       args: seq<OscArg>, acc: map<string, Value>)
    requires i <= |toks| && Taken(toks, i) <= |args|
    ensures
      var r := Decode(lib, toks[i..], binds, args[Taken(toks, i)..], acc);
      && (r.Ok? <==> AllFit(lib, toks, i, binds, args))
      && (r.Err? ==> exists k :: FailsAt(lib, toks, i, k, binds, args, r.error))
    decreases |toks| - i
  {
    hide Fits, FailsWith, FailsAt, ReadTok;
    if i < |toks| {
      hide AllFit, Taken;
      var n := Taken(toks, i);
      ReadsIff(lib, toks[i], binds, args, n);
      TakesOne(lib, toks, i, binds, args);
      AllFitStep(lib, toks, i, binds, args);
      assert toks[i..][0] == toks[i] && toks[i..][1..] == toks[i + 1..];
      if Fits(lib, toks[i], binds, args, n) {
        var rd := ReadTok(lib, toks[i], binds, args[n..]).value;
        var acc' := acc[toks[i].name := rd.value];
        DecodesFrom(lib, toks, i + 1, binds, args, acc');
        var r := Decode(lib, toks[i + 1..], binds, args[Taken(toks, i + 1)..], acc');
        if r.Err? {
          var k :| FailsAt(lib, toks, i + 1, k, binds, args, r.error);
          FailsLater(lib, toks, i, k, binds, args, r.error);
        }
      } else {
        FailsHere(lib, toks, i, binds, args, ReadTok(lib, toks[i], binds, args[n..]).error);
      }
    }
  }

  lemma AllFitStep(lib: Lib, toks: seq<Tok>, i: nat, binds: map<string, string>, args: seq<OscArg>)
    requires i < |toks|
    ensures AllFit(lib, toks, i, binds, args) <==>
            Fits(lib, toks[i], binds, args, Taken(toks, i)) && AllFit(lib, toks, i + 1, binds, args)
  {
    hide Fits;
  }

  lemma FailsHere(lib: Lib, toks: seq<Tok>, i: nat, binds: map<string, string>, args: seq<OscArg>, e: OscError)
    requires i < |toks| && !Fits(lib, toks[i], binds, args, Taken(toks, i))
    requires FailsWith(toks[i], args, Taken(toks, i), e)
    ensures FailsAt(lib, toks, i, i, binds, args, e)
  {
  }

  lemma FailsLater(lib: Lib, toks: seq<Tok>, i: nat, k: nat, binds: map<string, string>, args: seq<OscArg>, e: OscError)
    requires i < |toks| && Fits(lib, toks[i], binds, args, Taken(toks, i))
    requires FailsAt(lib, toks, i + 1, k, binds, args, e)
    ensures FailsAt(lib, toks, i, k, binds, args, e)
  {
    hide Fits, FailsWith;
  }

  lemma TakesOne(lib: Lib, toks: seq<Tok>, i: nat, binds: map<string, string>, args: seq<OscArg>)
    requires i < |toks| && Taken(toks, i) <= |args|
    ensures Taken(toks, i + 1) == Taken(toks, i) + (if toks[i].kind.Ser? || toks[i].kind.Verb? then 1 else 0)
    ensures Fits(lib, toks[i], binds, args, Taken(toks, i)) ==> Taken(toks, i + 1) <= |args|
  {
  }

  /** Arguments are taken from the front; what is left over is ignored. */
  method DecodeFields(lib: Lib, toks: seq<Tok>, binds: map<string, string>, given: seq<OscArg>)
    returns (r: Result<map<string, Value>, OscError>)
    ensures r == Decode(lib, toks, binds, given, map[])
  {
    var args := given;
    var fields: map<string, Value> := map[];
    for i := 0 to |toks|
      invariant Decode(lib, toks, binds, given, map[]) == Decode(lib, toks[i..], binds, args, fields)
    {
      var t := toks[i];
      assert toks[i..][1..] == toks[i + 1..];
      var v: Value;
      match t.kind {
        case Subst =>
          if t.name !in binds {
            return Err(ParseFailed);
          }
          var parsed := lib.parse(t.ty, binds[t.name]);
          if parsed.None? {
            return Err(ParseFailed);
          }
          v := parsed.value;
        case Ser =>
          if |args| < 1 || !args[0].Blob? {
            return Err(WrongArgs("blob"));
          }
          var blob := args[0];
          args := args[1..];
          var read := lib.fromBytes(t.ty, blob.bytes);
          if read.None? {
            return Err(BlobFailed);
          }
          v := read.value;
        case Verb(id) =>
          if |args| < 1 {
            return Err(WrongArgs(id));
          }
          var got := Access(id, args[0]);
          args := args[1..];
          if got.None? {
            return Err(WrongArgs(id));
          }
          v := got.value;
        case Plain =>
          v := lib.default(t.ty);
      }
      fields := fields[t.name := v];
    }
    r := Ok(fields);
  }

  method ReadPacket(lib: Lib, arms: seq<Message>, addr: string, args: Option<seq<OscArg>>)
    returns (r: Result<Msg, OscError>)
    ensures r == FromOsc(lib, arms, addr, args)
    ensures r == Err(BlankPath) <==> SlashFree(addr)
    ensures r == Err(UnknownPath) <==>
            !SlashFree(addr) && forall i :: 0 <= i < |arms| ==> !Matches(Patterns(arms[i].path), Split(addr)[1..])
    ensures r.Ok? ==> exists i :: 0 <= i < |arms| && arms[i].ident == r.value.ident
                                  && Matches(Patterns(arms[i].path), Split(addr)[1..])
                                  && forall j :: 0 <= j < i ==> !Matches(Patterns(arms[j].path), Split(addr)[1..])
  {
    SplitClean(addr);
    var path := Split(addr);
    var given := match args case Some(a) => a case None => [];
    if |path| < 2 {
      return Err(BlankPath);
    }
    var i := 0;
    while i < |arms|
      invariant i <= |arms|
      invariant Dispatch(arms, path[1..], 0) == Dispatch(arms, path[1..], i)
      invariant forall j :: 0 <= j < i ==> !Matches(Patterns(arms[j].path), path[1..])
    {
      if Matches(Patterns(arms[i].path), path[1..]) {
        DecodesIff(lib, arms[i].alltoks, Binds(Patterns(arms[i].path), path[1..]), given);
        var fields := DecodeFields(lib, arms[i].alltoks, Binds(Patterns(arms[i].path), path[1..]), given);
        return match fields case Err(e) => Err(e) case Ok(fs) => Ok(Msg(arms[i].ident, fs));
      }
      i := i + 1;
    }
    r := Err(UnknownPath);
  }
}
