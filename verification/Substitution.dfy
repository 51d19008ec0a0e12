/**
 $(agent.<name>) and $(workflow.<name>) substitution (internal/controller/params.go,
 substitute).  References never overlap, so a text splits into literals and references in
 exactly one way, and substitution replaces each reference once, never rescanning a value.
 */
module Substitution {
  import opened Common

  datatype Scope = Agent | Workflow

  /** A recognized reference. */
  datatype Ref = Ref(scope: Scope, name: string)

  type Scopes = map<Scope, map<string, string>>

  predicate IsLetter(c: char) {
    'a' <= c <= 'z' || 'A' <= c <= 'Z' || c == '_'
  }

  predicate IsWord(c: char) {
    IsLetter(c) || '0' <= c <= '9'
  }

  /** Letters, digits and underscores: where the ranges begin and end. */
  lemma WordBounds()
    ensures IsLetter('a') && IsLetter('z') && IsLetter('A') && IsLetter('Z') && IsLetter('_')
    ensures !IsWord('`') && !IsWord('{') && !IsWord('@') && !IsWord('[') && !IsWord('/') && !IsWord(':')
    ensures IsWord('0') && IsWord('9') && !IsLetter('0') && !IsLetter('9')
    ensures !IsWord('-') && !IsWord('.') && !IsWord('$') && !IsWord('(') && !IsWord(')') && !IsWord(' ')
  {
  }

  predicate IsName(n: string) {
    n != "" && IsLetter(n[0]) && forall i :: 0 <= i < |n| ==> IsWord(n[i])
  }

  function Prefix(s: Scope): string {
    match s
    case Agent => "$(agent."
    case Workflow => "$(workflow."
  }

  function Print(r: Ref): string {
    Prefix(r.scope) + r.name + ")"
  }

  /** How many word characters a text starts with. */
  function WordLength(t: string): (n: nat)
    ensures n <= |t| && (forall i :: 0 <= i < n ==> IsWord(t[i])) && (n < |t| ==> !IsWord(t[n]))
  {
    if t == "" || !IsWord(t[0]) then 0 else 1 + WordLength(t[1..])
  }

  /** The name and closing parenthesis of a reference whose prefix has been read. */
  function NameAt(t: string): Option<string> {
    var n := WordLength(t);
    if n == 0 || !IsLetter(t[0]) || n == |t| || t[n] != ')' then None else Some(t[..n])
  }

  function RefIn(scope: Scope, t: string): (r: Option<Ref>)
    ensures r.Some? ==> r.value.scope == scope && IsName(r.value.name) && Print(r.value) <= t
  {
    var p := Prefix(scope);
    if !(p <= t) || NameAt(t[|p|..]).None? then None
    else
      var name := NameAt(t[|p|..]).value;
      assert t == p + t[|p|..] && name + ")" <= t[|p|..];
      assert Print(Ref(scope, name)) == p + (name + ")");
      Some(Ref(scope, name))
  }

  /** The reference a text starts with, if any: one match of the controller's pattern. */
  function RefAt(t: string): (r: Option<Ref>)
    ensures r.Some? ==> IsName(r.value.name) && Print(r.value) <= t
  {
    var r := RefIn(Agent, t);
    if r.Some? then r else RefIn(Workflow, t)
  }

  // ---------------------------------------------------------------- unique decomposition

  datatype Token = Lit(c: char) | Reference(ref: Ref)

  function PrintToken(t: Token): string {
    match t
    case Lit(c) => [c]
    case Reference(r) => Print(r)
  }

  function PrintAll(ts: seq<Token>): string {
    if ts == [] then "" else PrintToken(ts[0]) + PrintAll(ts[1..])
  }

  /** Scan from the left, taking a reference wherever one starts. */
  function Tokens(text: string): seq<Token> {
    if text == "" then []
    else
      var r := RefAt(text);
      if r.Some? then [Reference(r.value)] + Tokens(text[|Print(r.value)|..])
      else [Lit(text[0])] + Tokens(text[1..])
  }

  lemma WordLengthOf(name: string, rest: string)
    requires forall i :: 0 <= i < |name| ==> IsWord(name[i])
    requires rest != "" && !IsWord(rest[0])
    ensures WordLength(name + rest) == |name|
  {
    var t := name + rest;
    var n := WordLength(t);
    assert t[|name|] == rest[0];
    assert forall i :: 0 <= i < |name| ==> t[i] == name[i];
  }

  lemma PrefixesDiffer(t: string)
    ensures !(Prefix(Agent) <= t && Prefix(Workflow) <= t)
  {
    assert Prefix(Agent)[2] == 'a' && Prefix(Workflow)[2] == 'w';
  }

  lemma NameAtPrint(name: string, rest: string)
    requires IsName(name)
    ensures NameAt(name + (")" + rest)) == Some(name)
  {
    var t := name + (")" + rest);
    WordLengthOf(name, ")" + rest);
    assert t[..|name|] == name && t[|name|] == ')' && t[0] == name[0];
  }

  /** A printed reference is read back, whatever follows it. */
  lemma RefAtPrint(r: Ref, rest: string)
    requires IsName(r.name)
    ensures RefAt(Print(r) + rest) == Some(r)
  {
    var t := Print(r) + rest;
    var p := Prefix(r.scope);
    var u := r.name + (")" + rest);
    assert t == p + u;
    assert p <= t && t[|p|..] == u;
    NameAtPrint(r.name, rest);
    assert RefIn(r.scope, t) == Some(r);
    PrefixesDiffer(t);
  }

  /** A reference holds one dollar sign, its first character. */
  lemma OneDollar(r: Ref)
    requires IsName(r.name)
    ensures Print(r) != "" && Print(r)[0] == '$' && forall i :: 0 < i < |Print(r)| ==> Print(r)[i] != '$'
  {
  }

  /** References never overlap. */
  lemma NoOverlap(text: string, i: nat, j: nat)
    requires i < j < |text|
    requires RefAt(text[i..]).Some? && RefAt(text[j..]).Some?
    ensures i + |Print(RefAt(text[i..]).value)| <= j
  {
    var a, b := RefAt(text[i..]).value, RefAt(text[j..]).value;
    OneDollar(a);
    OneDollar(b);
    assert text[j] == text[j..][0] == Print(b)[0] == '$';
    assert forall k :: 0 <= k < |Print(a)| ==> text[i + k] == text[i..][k] == Print(a)[k];
    assert text[i + (j - i)] == text[j];
  }

  /** Tokens whose literals hide no reference: at no literal does a reference start in the printed text. */
  predicate Proper(ts: seq<Token>) {
    ts != [] ==>
      && (ts[0].Reference? ==> IsName(ts[0].ref.name))
      && (ts[0].Lit? ==> RefAt(PrintAll(ts)).None?)
      && Proper(ts[1..])
  }

  /** Scanning splits every text into proper tokens that print it. */
  lemma {:induction false} TokensPrint(text: string)
    ensures PrintAll(Tokens(text)) == text && Proper(Tokens(text))
  {
    if text != "" {
      var r, ts := RefAt(text), Tokens(text);
      var n := if r.Some? then |Print(r.value)| else 1;
      TokensPrint(text[n..]);
      assert ts[1..] == Tokens(text[n..]);
      assert text == text[..n] + text[n..];
      assert PrintToken(ts[0]) == text[..n];
      assert PrintAll(ts) == text;
    }
  }

  /** ... and no other proper tokens do. */
  lemma {:induction false} TokensUnique(ts: seq<Token>)
    requires Proper(ts)
    ensures Tokens(PrintAll(ts)) == ts
  {
    if ts != [] {
      var text, rest := PrintAll(ts), PrintAll(ts[1..]);
      TokensUnique(ts[1..]);
      match ts[0] {
        case Lit(c) => assert text[1..] == rest;
        case Reference(r) =>
          RefAtPrint(r, rest);
          assert text[|Print(r)|..] == rest;
      }
    }
  }

  // ---------------------------------------------------------------- substitution

  predicate Bound(r: Ref, scopes: Scopes) {
    r.scope in scopes && r.name in scopes[r.scope]
  }

  /** The literals, with each bound reference's value spliced in as it is. */
  function Splice(ts: seq<Token>, scopes: Scopes): string {
    if ts == [] then "" else SpliceToken(ts[0], scopes) + Splice(ts[1..], scopes)
  }

  function SpliceToken(t: Token, scopes: Scopes): string {
    match t
    case Lit(c) => [c]
    case Reference(r) => if Bound(r, scopes) then scopes[r.scope][r.name] else Print(r)
  }

  /** The references of a text that no scope provides. */
  function Unresolved(ts: seq<Token>, scopes: Scopes): set<Ref> {
    set t | t in ts && t.Reference? && !Bound(t.ref, scopes) :: t.ref
  }

  function Substituted(text: string, scopes: Scopes): Result<string, set<Ref>> {
    var ts := Tokens(text);
    if Unresolved(ts, scopes) == {} then Ok(Splice(ts, scopes)) else Err(Unresolved(ts, scopes))
  }

  /** The pieces of any text, reference by reference: substitution acts on them and on nothing else. */
  lemma SubstitutionIsSplice(ts: seq<Token>, scopes: Scopes)
    requires Proper(ts)
    ensures (forall r :: Reference(r) in ts ==> Bound(r, scopes)) ==>
      Substituted(PrintAll(ts), scopes) == Ok(Splice(ts, scopes))
    ensures Substituted(PrintAll(ts), scopes).Err? <==> exists r :: Reference(r) in ts && !Bound(r, scopes)
    ensures Substituted(PrintAll(ts), scopes).Err? ==>
      forall r :: r in Substituted(PrintAll(ts), scopes).error <==> Reference(r) in ts && !Bound(r, scopes)
  {
    TokensUnique(ts);
    assert forall r :: Reference(r) in ts && !Bound(r, scopes) ==> r in Unresolved(ts, scopes);
    if Unresolved(ts, scopes) != {} {
      var r :| r in Unresolved(ts, scopes);
      assert Reference(r) in ts;
    }
  }

  /** strings.Contains(text, "$(") */
  predicate HasOpener(text: string) {
    exists i :: 0 <= i < |text| - 1 && text[i] == '$' && text[i + 1] == '('
  }

  /** The fast path: without an opener there is no reference to substitute. */
  lemma {:induction false} NoOpenerNoReference(text: string, scopes: Scopes)
    requires !HasOpener(text)
    ensures forall t :: t in Tokens(text) ==> t.Lit?
    ensures Substituted(text, scopes) == Ok(text)
  {
    LiteralsOnly(text, scopes);
  }

  lemma RefOpens(text: string)
    requires RefAt(text).Some?
    ensures |text| >= 2 && text[0] == '$' && text[1] == '('
  {
    var p := Prefix(RefAt(text).value.scope);
    assert p <= Print(RefAt(text).value) <= text;
    assert p[0] == '$' && p[1] == '(';
  }

  lemma {:induction false} LiteralsOnly(text: string, scopes: Scopes)
    requires !HasOpener(text)
    ensures forall t :: t in Tokens(text) ==> t.Lit?
    ensures Splice(Tokens(text), scopes) == text
  {
    if text != "" {
      assert RefAt(text).None? by {
        if RefAt(text).Some? { RefOpens(text); }
      }
      assert forall i :: 0 <= i < |text[1..]| ==> text[1..][i] == text[i + 1];
      LiteralsOnly(text[1..], scopes);
      assert Tokens(text)[1..] == Tokens(text[1..]);
    }
  }

  method Substitute(text: string, scopes: Scopes) returns (r: Result<string, set<Ref>>)
    ensures r == Substituted(text, scopes)
  {
    var opener := Contains(text);
    if text == "" || !opener {
      NoOpenerNoReference(text, scopes);
      return Ok(text);
    }
    var rendered, unresolved := ReplaceAll(text, scopes);
    if unresolved != {} { return Err(unresolved); }
    return Ok(rendered);
  }

  /** ReplaceAllStringFunc, with the callback's two effects. */
  method ReplaceAll(text: string, scopes: Scopes) returns (rendered: string, unresolved: set<Ref>)
    ensures rendered == Splice(Tokens(text), scopes)
    ensures unresolved == Unresolved(Tokens(text), scopes)
  {
    rendered, unresolved := "", {};
    var rest := text;
    while rest != ""
      invariant Splice(Tokens(text), scopes) == rendered + Splice(Tokens(rest), scopes)
      invariant Unresolved(Tokens(text), scopes) == unresolved + Unresolved(Tokens(rest), scopes)
      decreases |rest|
    {
      TokensStep(rest, scopes);
      var ref := RefAt(rest);
      var n := if ref.Some? then |Print(ref.value)| else 1;
      var piece := rest[..n];
      if ref.Some? {
        if Bound(ref.value, scopes) {
          piece := scopes[ref.value.scope][ref.value.name];
        } else {
          unresolved := unresolved + {ref.value};
        }
      }
      Assoc(rendered, piece, Splice(Tokens(rest[n..]), scopes));
      rendered := rendered + piece;
      rest := rest[n..];
    }
  }

  /** One token of the scan. */
  lemma TokensStep(text: string, scopes: Scopes)
    requires text != ""
    ensures var ref := RefAt(text);
      var n := if ref.Some? then |Print(ref.value)| else 1;
      var t := if ref.Some? then Reference(ref.value) else Lit(text[0]);
      && 0 < n <= |text| && (ref.None? || !Bound(ref.value, scopes) ==> SpliceToken(t, scopes) == text[..n])
      && Splice(Tokens(text), scopes) == SpliceToken(t, scopes) + Splice(Tokens(text[n..]), scopes)
      && Unresolved(Tokens(text), scopes) ==
           (if ref.Some? && !Bound(ref.value, scopes) then {ref.value} else {}) + Unresolved(Tokens(text[n..]), scopes)
  {
    var ts := Tokens(text);
    var ref := RefAt(text);
    var n := if ref.Some? then |Print(ref.value)| else 1;
    assert ts[1..] == Tokens(text[n..]);
    assert forall t :: t in ts <==> t == ts[0] || t in ts[1..];
  }

  method Contains(text: string) returns (found: bool)
    ensures found == HasOpener(text)
  {
    if |text| > 0 {
      for i := 0 to |text| - 1
        invariant forall k :: 0 <= k < i ==> !(text[k] == '$' && text[k + 1] == '(')
      {
        if text[i] == '$' && text[i + 1] == '(' { return true; }
      }
    }
    return false;
  }
}
