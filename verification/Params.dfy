/**
 Typed parameters (internal/controller/params.go): the workflow controller coerces its
 declared params and stamps them as JSON; the AgentRun controller reads the JSON back.  For
 which params do the workflow guide and the AgentRun see the same text?
 */
module Params {
  import opened Common
  import opened Decimals
  import opened Json
  import opened Utf8
  import F = Floats
  import S = Substitution

  datatype Type = NumberType | BooleanType | StringType

  datatype Param = Param(name: string, kind: Type, default: string)

  datatype Value =
    | IntValue(i: int)
    | FloatValue(f: F.Float)
    | BoolValue(b: bool)
    | StringValue(s: string)

  /** strconv.ParseFloat(s, 64), outside this model. */
  type Parser = string -> Option<F.Float>

  const TRUE_WORDS := {"1", "t", "T", "TRUE", "true", "True"}
  const FALSE_WORDS := {"0", "f", "F", "FALSE", "false", "False"}

  /** strconv.ParseBool */
  function ParseBool(s: string): Option<bool> {
    if s in TRUE_WORDS then Some(true) else if s in FALSE_WORDS then Some(false) else None
  }

  /** An integer if it is one, else a float. */
  function Coerce(kind: Type, s: string, floats: Parser): Option<Value> {
    match kind
    case NumberType =>
      if ParseInt(s).Some? then Some(IntValue(ParseInt(s).value))
      else if floats(s).Some? then Some(FloatValue(floats(s).value))
      else None
    case BooleanType => if ParseBool(s).Some? then Some(BoolValue(ParseBool(s).value)) else None
    case StringType => Some(StringValue(s))
  }

  /** The words strconv reads as a bool, and no others. */
  lemma BoolWords(s: string)
    ensures ParseBool(s) == Some(true) <==> s in {"1", "t", "T", "TRUE", "true", "True"}
    ensures ParseBool(s) == Some(false) <==> s in {"0", "f", "F", "FALSE", "false", "False"}
  {
    if s in {"0", "f", "F", "FALSE", "false", "False"} {
      assert s[0] in {'0', 'f', 'F'};
      assert forall w :: w in TRUE_WORDS ==> w[0] in {'1', 't', 'T'};
    }
  }

  /** What a declared type makes of a text: any string, a bool word, an integer where it is one and else a float. */
  lemma CoerceTable(s: string, floats: Parser)
    ensures Coerce(StringType, s, floats) == Some(StringValue(s))
    ensures Coerce(BooleanType, s, floats) == match ParseBool(s) case Some(b) => Some(BoolValue(b)) case None => None
    ensures Coerce(NumberType, s, floats) ==
      match (ParseInt(s), floats(s))
      case (Some(i), _) => Some(IntValue(i))
      case (None, Some(f)) => Some(FloatValue(f))
      case (None, None) => None
  {
  }

  function FormatBool(b: bool): string {
    if b then "true" else "false"
  }

  /** stringifyJSON on a value the controller coerced itself. */
  function Stringify(v: Value): string {
    match v
    case IntValue(i) => FormatInt(i)
    case FloatValue(f) => F.Plain(f)
    case BoolValue(b) => FormatBool(b)
    case StringValue(s) => s
  }

  /** Rendering is canonical: what is rendered coerces back to the same value. */
  lemma RenderingIsCanonical(kind: Type, s: string, floats: Parser)
    requires var v := Coerce(kind, s, floats); v.Some? && !v.value.FloatValue?
    ensures var v := Coerce(kind, s, floats); Coerce(kind, Stringify(v.value), floats) == v
  {
    if kind == NumberType {
      ParseIntFormat(ParseInt(s).value);
    } else if kind == BooleanType {
      assert "true" in TRUE_WORDS && "false" in FALSE_WORDS && "false" !in TRUE_WORDS by {
        assert "false"[0] == 'f';
        assert forall w :: w in TRUE_WORDS ==> w[0] in {'1', 't', 'T'};
      }
    }
  }

  // ---------------------------------------------------------------- coerceParams

  function Effective(p: Param, supplied: map<string, string>): string {
    if p.name in supplied then supplied[p.name] else p.default
  }

  ghost predicate DistinctNames(ps: seq<Param>) {
    forall i, j :: 0 <= i < j < |ps| ==> ps[i].name != ps[j].name
  }

  predicate Coercible(p: Param, supplied: map<string, string>, floats: Parser) {
    Effective(p, supplied) == "" || Coerce(p.kind, Effective(p, supplied), floats).Some?
  }

  ghost predicate AllCoercible(ps: seq<Param>, n: nat, supplied: map<string, string>, floats: Parser)
    requires n <= |ps|
  {
    forall i :: 0 <= i < n ==> Coercible(ps[i], supplied, floats)
  }

  function Names(ps: seq<Param>): set<string> {
    set i | 0 <= i < |ps| :: ps[i].name
  }

  /** What one param contributes: an unset param is empty text and no value. */
  ghost predicate Resolved(p: Param, supplied: map<string, string>, floats: Parser,
                           value: Option<Value>, text: string)
  {
    var e := Effective(p, supplied);
    if e == "" then value.None? && text == ""
    else value.Some? && Coerce(p.kind, e, floats) == value && text == Stringify(value.value)
  }

  function Get(m: map<string, Value>, n: string): Option<Value> {
    if n in m then Some(m[n]) else None
  }

  type Rule = (Param, Option<Value>, string) -> bool

  ghost function Rules(supplied: map<string, string>, floats: Parser): Rule {
    (p: Param, value: Option<Value>, text: string) => Resolved(p, supplied, floats, value, text)
  }

  /** The two maps hold what a rule allows for each param, and nothing else. */
  ghost predicate Follow(ps: seq<Param>, rule: Rule, coerced: map<string, Value>, strs: map<string, string>) {
    && strs.Keys == Names(ps) && coerced.Keys <= strs.Keys
    && forall p :: p in ps ==> p.name in strs && rule(p, Get(coerced, p.name), strs[p.name])
  }

  ghost predicate Resolves(ps: seq<Param>, supplied: map<string, string>, floats: Parser,
                           coerced: map<string, Value>, strs: map<string, string>)
  {
    Follow(ps, Rules(supplied, floats), coerced, strs)
  }

  method CoerceParams(ps: seq<Param>, supplied: map<string, string>, floats: Parser)
    returns (r: Result<(map<string, Value>, map<string, string>), string>)
    requires DistinctNames(ps)
    ensures r.Ok? <==> AllCoercible(ps, |ps|, supplied, floats)
    ensures r.Ok? ==> Resolves(ps, supplied, floats, r.value.0, r.value.1)
    ensures r.Err? ==> exists i :: 0 <= i < |ps| && ps[i].name == r.error && !Coercible(ps[i], supplied, floats)
                                   && AllCoercible(ps, i, supplied, floats)
  {
    var coerced: map<string, Value> := map[];
    var strs: map<string, string> := map[];
    for i := 0 to |ps|
      invariant AllCoercible(ps, i, supplied, floats)
      invariant Resolves(ps[..i], supplied, floats, coerced, strs)
    {
      var one := CoerceParam(ps[i], supplied, floats);
      if one.None? { return Err(ps[i].name); }
      var (value, text) := one.value;
      FollowSnoc(ps, i, Rules(supplied, floats), coerced, strs, value, text);
      if value.Some? { coerced := coerced[ps[i].name := value.value]; }
      strs := strs[ps[i].name := text];
    }
    assert ps[..|ps|] == ps;
    return Ok((coerced, strs));
  }

  method CoerceParam(p: Param, supplied: map<string, string>, floats: Parser)
    returns (r: Option<(Option<Value>, string)>)
    ensures r.Some? <==> Coercible(p, supplied, floats)
    ensures r.Some? ==> Resolved(p, supplied, floats, r.value.0, r.value.1)
  {
    var value := p.default;
    if p.name in supplied { value := supplied[p.name]; }
    if value == "" { return Some((None, "")); }
    var cv := Coerce(p.kind, value, floats);
    if cv.None? { return None; }
    return Some((cv, Stringify(cv.value)));
  }

  lemma NamesSnoc(a: seq<Param>, p: Param)
    ensures Names(a + [p]) == Names(a) + {p.name}
  {
    var b := a + [p];
    forall m | m in Names(a) ensures m in Names(b) {
      var k :| 0 <= k < |a| && a[k].name == m;
      assert b[k].name == m;
    }
    assert b[|a|].name == p.name;
  }

  lemma {:induction false} FollowSnoc(ps: seq<Param>, i: nat, rule: Rule, coerced: map<string, Value>,
                                      strs: map<string, string>, value: Option<Value>, text: string)
    requires i < |ps| && DistinctNames(ps) && Follow(ps[..i], rule, coerced, strs)
    requires rule(ps[i], value, text)
    ensures Follow(ps[..i + 1], rule,
                   if value.Some? then coerced[ps[i].name := value.value] else coerced, strs[ps[i].name := text])
  {
    var a, n := ps[..i], ps[i].name;
    var coerced' := if value.Some? then coerced[n := value.value] else coerced;
    var strs' := strs[n := text];
    assert ps[..i + 1] == a + [ps[i]];
    NamesSnoc(a, ps[i]);
    assert n !in Names(a);
    forall p | p in ps[..i + 1]
      ensures p.name in strs' && rule(p, Get(coerced', p.name), strs'[p.name])
    {
      if p in a { assert p.name in Names(a); }
    }
  }

  // ---------------------------------------------------------------- across the stamped JSON

  /** encoding/json refuses NaN and infinities. */
  predicate Marshalable(v: Value) {
    v.FloatValue? ==> !v.f.NotFinite?
  }

  function Marshal(v: Value): Json
    requires Marshalable(v)
  {
    match v
    case IntValue(i) => JNumber(FormatInt(i))
    case FloatValue(f) => JNumber(F.JsonText(f))
    case BoolValue(b) => JBool(b)
    case StringValue(s) => JString(s)
  }

  /** stringifyJSON on a value decoded from the stamped JSON, where numbers keep their text. */
  function StringifyJson(j: Json): string
    requires !j.JObject?
  {
    match j
    case JNumber(text) => text
    case JBool(b) => FormatBool(b)
    case JString(s) => s
  }

  predicate AllMarshalable(coerced: map<string, Value>) {
    forall n :: n in coerced ==> Marshalable(coerced[n])
  }

  /** The object json.Marshal writes for a map, its keys in some order. */
  function StampedFields(order: seq<string>, coerced: map<string, Value>): Fields
    requires (forall n :: n in order ==> n in coerced) && AllMarshalable(coerced)
  {
    if order == [] then NoFields
    else Field(order[0], Marshal(coerced[order[0]]), StampedFields(order[1..], coerced))
  }

  ghost predicate Enumerates(order: seq<string>, coerced: map<string, Value>) {
    forall n :: n in order <==> n in coerced
  }

  /** What is stamped onto the stage's AgentRun. */
  ghost function Stamped(order: seq<string>, coerced: map<string, Value>): string
    requires Enumerates(order, coerced) && AllMarshalable(coerced)
  {
    Print(JObject(StampedFields(order, coerced)))
  }

  /** Unset, or a value encoding/json can write. */
  predicate Stampable(p: Param, supplied: map<string, string>, floats: Parser) {
    var e := Effective(p, supplied);
    e == "" || (Coerce(p.kind, e, floats).Some? && Marshalable(Coerce(p.kind, e, floats).value))
  }

  ghost predicate AllStampable(ps: seq<Param>, n: nat, supplied: map<string, string>, floats: Parser)
    requires n <= |ps|
  {
    forall i :: 0 <= i < n ==> Stampable(ps[i], supplied, floats)
  }

  /** coerceWorkflowParams */
  method CoerceWorkflowParams(ps: seq<Param>, supplied: map<string, string>, floats: Parser)
    returns (r: Result<(map<string, Value>, map<string, string>), string>)
    requires DistinctNames(ps)
    ensures r.Ok? <==> AllStampable(ps, |ps|, supplied, floats)
    ensures r.Ok? ==> Resolves(ps, supplied, floats, r.value.0, r.value.1) && AllMarshalable(r.value.0)
  {
    var coerced := CoerceParams(ps, supplied, floats);
    if coerced.Err? {
      StampableFails(ps, supplied, floats);
      return Err(coerced.error);
    }
    var refused := FindUnmarshalable(ps, coerced.value.0);
    AllStampableExactly(ps, supplied, floats, coerced.value.0, coerced.value.1);
    if refused.Some? { return Err(refused.value); }
    NothingElseIsCoerced(ps, coerced.value.0);
    return Ok(coerced.value);
  }

  method FindUnmarshalable(ps: seq<Param>, values: map<string, Value>) returns (r: Option<string>)
    ensures r.None? <==> forall k :: 0 <= k < |ps| ==> MarshalableIn(values, ps[k].name)
  {
    for i := 0 to |ps|
      invariant forall k :: 0 <= k < i ==> MarshalableIn(values, ps[k].name)
    {
      if !MarshalableIn(values, ps[i].name) { return Some(ps[i].name); }
    }
    return None;
  }

  lemma AllStampableExactly(ps: seq<Param>, supplied: map<string, string>, floats: Parser,
                            coerced: map<string, Value>, strs: map<string, string>)
    requires Resolves(ps, supplied, floats, coerced, strs)
    ensures AllStampable(ps, |ps|, supplied, floats) <==>
      forall k :: 0 <= k < |ps| ==> MarshalableIn(coerced, ps[k].name)
  {
    forall i | 0 <= i < |ps| ensures Stampable(ps[i], supplied, floats) <==> MarshalableIn(coerced, ps[i].name) {
      StampableExactly(ps, supplied, floats, coerced, strs, i);
    }
  }

  lemma StampableFails(ps: seq<Param>, supplied: map<string, string>, floats: Parser)
    requires !AllCoercible(ps, |ps|, supplied, floats)
    ensures !AllStampable(ps, |ps|, supplied, floats)
  {
    var i :| 0 <= i < |ps| && !Coercible(ps[i], supplied, floats);
    assert !Stampable(ps[i], supplied, floats);
  }

  lemma StampableExactly(ps: seq<Param>, supplied: map<string, string>, floats: Parser,
                         coerced: map<string, Value>, strs: map<string, string>, i: nat)
    requires Resolves(ps, supplied, floats, coerced, strs) && i < |ps|
    ensures Stampable(ps[i], supplied, floats) <==> MarshalableIn(coerced, ps[i].name)
  {
    assert Resolved(ps[i], supplied, floats, Get(coerced, ps[i].name), strs[ps[i].name]);
  }

  predicate MarshalableIn(values: map<string, Value>, n: string) {
    n in values ==> Marshalable(values[n])
  }

  lemma NothingElseIsCoerced(ps: seq<Param>, values: map<string, Value>)
    requires values.Keys <= Names(ps) && forall k :: 0 <= k < |ps| ==> MarshalableIn(values, ps[k].name)
    ensures AllMarshalable(values)
  {
    forall n | n in values ensures Marshalable(values[n]) {
      assert n in Names(ps);
      var i :| 0 <= i < |ps| && ps[i].name == n;
      assert MarshalableIn(values, ps[i].name);
    }
  }

  /** The workflow scope the AgentRun controller substitutes from: what the stamped JSON says of a name. */
  function StampedText(text: string, n: string): Option<string> {
    match Read(text)
    case Some(JObject(f)) =>
      (match Lookup(f, n)
       case None => None
       case Some(j) => if j.JObject? then None else Some(StringifyJson(j)))
    case _ => None
  }

  lemma {:induction false} StampedWritable(order: seq<string>, coerced: map<string, Value>)
    requires (forall n :: n in order ==> n in coerced && S.IsName(n)) && AllMarshalable(coerced)
    ensures FieldsWritable(StampedFields(order, coerced))
  {
    if order != [] {
      var v := coerced[order[0]];
      assert order[0] in order;
      if v.IntValue? { F.IntegerIsNumber(v.i); }
      if v.FloatValue? { F.JsonTextIsNumber(v.f); }
      StampedWritable(order[1..], coerced);
    }
  }

  lemma {:induction false} StampedLookup(order: seq<string>, coerced: map<string, Value>, n: string)
    requires (forall m :: m in order ==> m in coerced) && AllMarshalable(coerced)
    ensures Lookup(CleanFields(StampedFields(order, coerced)), n) ==
      if n in order then Some(Clean(Marshal(coerced[n]))) else None
  {
    if order != [] {
      StampedLookup(order[1..], coerced, n);
      assert n in order <==> n == order[0] || n in order[1..];
    }
  }

  /** When a value reads the same on both sides: floats neither tiny nor huge, strings of valid UTF-8. */
  predicate SameText(v: Value) {
    match v
    case FloatValue(f) => !F.Extreme(f)
    case StringValue(s) => ValidUtf8(s)
    case _ => true
  }

  lemma StampedValueReadsTheSame(v: Value)
    requires Marshalable(v)
    ensures StringifyJson(Clean(Marshal(v))) == Stringify(v) <==> SameText(v)
  {
    match v {
      case FloatValue(f) => F.RenderingsAgreeExactly(f);
      case StringValue(s) => SanitizedExactly(s);
      case _ =>
    }
  }

  /**
   The guide (rendered by the workflow controller) and the AgentRun resolve a declared workflow
   param to the same text exactly when it has a value and, if that is a float, its magnitude is
   zero or from 1e-6 up to 1e21; strings have to be valid UTF-8, as all the API server admits are.
   */
  lemma ScopesAgreeExactly(ps: seq<Param>, supplied: map<string, string>, floats: Parser,
                           coerced: map<string, Value>, strs: map<string, string>, order: seq<string>, i: nat)
    requires Resolves(ps, supplied, floats, coerced, strs) && i < |ps|
    requires forall p :: p in ps ==> S.IsName(p.name)
    requires AllMarshalable(coerced) && Enumerates(order, coerced)
    ensures var n, e := ps[i].name, Effective(ps[i], supplied);
      && n in strs
      && (StampedText(Stamped(order, coerced), n) == Some(strs[n]) <==>
            e != "" && SameText(Coerce(ps[i].kind, e, floats).value))
  {
    var n := ps[i].name;
    assert Resolved(ps[i], supplied, floats, Get(coerced, n), strs[n]);
    StampedSeen(ps, order, coerced, n);
    if n in coerced { StampedValueReadsTheSame(coerced[n]); }
  }

  /** The AgentRun controller finds each stamped param under its name, and no other. */
  lemma StampedSeen(ps: seq<Param>, order: seq<string>, coerced: map<string, Value>, n: string)
    requires coerced.Keys <= Names(ps) && forall p :: p in ps ==> S.IsName(p.name)
    requires AllMarshalable(coerced) && Enumerates(order, coerced)
    ensures StampedText(Stamped(order, coerced), n) ==
      if n in coerced then Some(StringifyJson(Clean(Marshal(coerced[n])))) else None
  {
    forall m | m in order ensures S.IsName(m) {
      assert m in Names(ps);
      var k :| 0 <= k < |ps| && ps[k].name == m;
    }
    StampedWritable(order, coerced);
    RoundTrip(JObject(StampedFields(order, coerced)));
    StampedLookup(order, coerced, n);
  }

  // ---------------------------------------------------------------- where the two differ

  const HUGE := F.Finite(false, "1", 22)

  /** "1e21" is not an integer; as a float it reads 1000000000000000000000 in the guide and 1e+21 in the AgentRun. */
  lemma TenToThe21(floats: Parser)
    requires floats("1e21") == Some(HUGE)
    ensures Coerce(NumberType, "1e21", floats) == Some(FloatValue(HUGE))
    ensures Stringify(FloatValue(HUGE)) == "1000000000000000000000"
    ensures StringifyJson(Marshal(FloatValue(HUGE))) == "1e+21"
  {
    NotAnInteger();
    HugeInGuide();
    HugeInJson();
  }

  lemma NotAnInteger()
    ensures ParseInt("1e21") == None
  {
    assert !IsDigit("1e21"[1]);
  }

  lemma HugeInGuide()
    ensures F.Plain(HUGE) == "1000000000000000000000"
  {
    ZerosAre21();
    assert F.Plain(HUGE) == "" + ("1" + F.Zeros(21));
  }

  lemma HugeInJson()
    ensures F.JsonText(HUGE) == "1e+21"
  {
    assert Format(21) == Format(2) + [Digit(1)];
    assert F.Exponent(21) == "e+" + "21";
    assert F.Scientific("1", 22) == "1" + ("" + F.Exponent(21));
  }

  lemma ZerosAre21()
    ensures F.Zeros(21) == "000000000000000000000"
  {
  }

  /** A declared param left unset is empty text in the guide and missing from the stamped JSON. */
  lemma UnsetIsMissing(ps: seq<Param>, supplied: map<string, string>, floats: Parser,
                       coerced: map<string, Value>, strs: map<string, string>, order: seq<string>, i: nat)
    requires Resolves(ps, supplied, floats, coerced, strs) && i < |ps| && Effective(ps[i], supplied) == ""
    requires forall p :: p in ps ==> S.IsName(p.name)
    requires AllMarshalable(coerced) && Enumerates(order, coerced)
    ensures strs[ps[i].name] == "" && StampedText(Stamped(order, coerced), ps[i].name) == None
  {
    var n := ps[i].name;
    assert Resolved(ps[i], supplied, floats, Get(coerced, n), strs[n]);
    StampedSeen(ps, order, coerced, n);
  }
}
