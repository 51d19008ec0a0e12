/**
 The termination blob (harness/cmd/migration-harness/outcome.go, writeTerminationLog and
 truncateRuneSafe): whatever a stage has to say, the JSON written to the termination log fits
 the kubelet's limit and keeps its verdict.  A char stands for one byte.
 */
module TerminationBlob {
  import opened Common
  import opened Decimals
  import opened Json
  import opened Utf8
  import Floats
  import SE = StageExit

  /** truncateRuneSafe */
  method TruncateRuneSafe(s: string, maxBytes: nat) returns (r: string)
    ensures r <= s && |r| <= maxBytes
    ensures |s| <= maxBytes ==> r == s
    ensures |s| > maxBytes ==>
      (forall k :: |r| < k <= maxBytes ==> Continuation(s[k])) && (|r| > 0 ==> RuneStart(s[|r|]))
  {
    if |s| <= maxBytes { return s; }
    var cut := maxBytes;
    while cut > 0 && !RuneStart(s[cut])
      invariant 0 <= cut <= maxBytes < |s|
      invariant forall k :: cut < k <= maxBytes ==> Continuation(s[k])
    {
      cut := cut - 1;
    }
    return s[..cut];
  }

  /** On well-formed text the truncation is well-formed, and no longer well-formed prefix would fit. */
  lemma TruncationIsLongest(s: string, maxBytes: nat, r: string)
    requires ValidUtf8(s) && r <= s && |r| <= maxBytes < |s|
    requires (forall k :: |r| < k <= maxBytes ==> Continuation(s[k])) && (|r| > 0 ==> RuneStart(s[|r|]))
    ensures ValidUtf8(r)
    ensures forall k :: |r| < k <= maxBytes ==> !ValidUtf8(s[..k])
  {
    assert r == s[..|r|];
    PrefixValidExactly(s, |r|);
    forall k | |r| < k <= maxBytes ensures !ValidUtf8(s[..k]) {
      PrefixValidExactly(s, k);
    }
  }

  // ---------------------------------------------------------------- the blob

  /** A cost as encoding/json writes it ("" when zero, hence omitted), or none for NaN and infinities. */
  datatype Cost = Finite(text: string) | NotFinite

  datatype Usage = Usage(turnsUsed: int, contextUsed: int, contextSize: int, cost: Cost)

  datatype Blob = Blob(verdict: SE.Blob, stopReason: string, usage: Option<Usage>)

  predicate Int64(i: int) {
    -TWO_63 <= i < TWO_63
  }

  predicate CostText(text: string) {
    text == "" || (IsNumber(text) && |text| <= Floats.MAX_TEXT)
  }

  function CostOf(f: Floats.Float): Cost {
    if f.NotFinite? then NotFinite else if f.Zero? then Finite("") else Finite(Floats.JsonText(f))
  }

  lemma CostFits(f: Floats.Float)
    ensures CostOf(f).Finite? ==> CostText(CostOf(f).text)
    ensures CostOf(f) == Finite("") <==> f.Zero?
  {
    if !f.NotFinite? {
      Floats.JsonTextIsNumber(f);
      Floats.JsonTextLength(f);
    }
  }

  predicate Representable(b: Blob) {
    && Int64(b.verdict.exitCode)
    && (b.usage.Some? ==>
          && Int64(b.usage.value.turnsUsed) && Int64(b.usage.value.contextUsed) && Int64(b.usage.value.contextSize)
          && (b.usage.value.cost.Finite? ==> CostText(b.usage.value.cost.text)))
  }

  function OutcomeText(o: SE.Outcome): (t: string)
    ensures |t| <= 12
  {
    match o
    case OutcomeSucceeded => "succeeded"
    case OutcomeLimitReached => "limitReached"
    case OutcomeFailed => "failed"
  }

  function LimitText(l: SE.Limit): (t: string)
    ensures |t| <= 8 && (t == "" <==> l == SE.NoLimit)
  {
    match l
    case NoLimit => ""
    case MaxTurns => "maxTurns"
    case MaxCost => "maxCost"
  }

  // The schema's field names.
  const EXIT_CODE := "exitCode"
  const OUTCOME := "outcome"
  const LIMIT_REACHED := "limitReached"
  const STOP_REASON := "stopReason"
  const USAGE := "usage"
  const TURNS_USED := "turnsUsed"
  const CONTEXT_USED := "contextUsed"
  const CONTEXT_SIZE := "contextSize"
  const COST := "cost"

  /** omitempty */
  function Unless(empty: bool, name: string, value: Json, rest: Fields): Fields {
    if empty then rest else Field(name, value, rest)
  }

  function IntField(name: string, i: int, rest: Fields): Fields {
    Unless(i == 0, name, JNumber(FormatInt(i)), rest)
  }

  function UsageFields(u: Usage): Fields
    requires u.cost.Finite?
  {
    IntField(TURNS_USED, u.turnsUsed, IntField(CONTEXT_USED, u.contextUsed, IntField(CONTEXT_SIZE, u.contextSize,
      Unless(u.cost.text == "", COST, JNumber(u.cost.text), NoFields))))
  }

  function BlobFields(b: Blob): Fields
    requires b.usage.Some? ==> b.usage.value.cost.Finite?
  {
    VerdictFields(b.verdict.exitCode, OutcomeText(b.verdict.outcome), LimitText(b.verdict.limit),
                  ReasonField(b.stopReason, UsageField(b.usage)))
  }

  function VerdictFields(code: int, outcome: string, limit: string, rest: Fields): Fields {
    Field(EXIT_CODE, JNumber(FormatInt(code)),
      Field(OUTCOME, JString(outcome), Unless(limit == "", LIMIT_REACHED, JString(limit), rest)))
  }

  function ReasonField(reason: string, rest: Fields): Fields {
    Unless(reason == "", STOP_REASON, JString(reason), rest)
  }

  function UsageField(usage: Option<Usage>): Fields
    requires usage.Some? ==> usage.value.cost.Finite?
  {
    if usage.None? then NoFields else Field(USAGE, JObject(UsageFields(usage.value)), NoFields)
  }

  /** json.Marshal; a cost that is not finite cannot be written. */
  function Marshal(b: Blob): Option<string> {
    if b.usage.Some? && b.usage.value.cost.NotFinite? then None else Some(Print(JObject(BlobFields(b))))
  }

  // ---------------------------------------------------------------- how long it is

  lemma Pow10Of19()
    ensures Floats.Pow10(19) == 10_000_000_000_000_000_000
  {
    assert Floats.Pow10(4) == 10_000;
    assert Floats.Pow10(8) == 10_000 * 10_000 by {
      assert Floats.Pow10(8) == 10 * (10 * (10 * (10 * Floats.Pow10(4))));
    }
    assert Floats.Pow10(12) == 10 * (10 * (10 * (10 * Floats.Pow10(8))));
    assert Floats.Pow10(16) == 10 * (10 * (10 * (10 * Floats.Pow10(12))));
    assert Floats.Pow10(19) == 10 * (10 * (10 * Floats.Pow10(16)));
  }

  lemma IntLength(i: int)
    requires Int64(i)
    ensures |FormatInt(i)| <= 20
  {
    Pow10Of19();
    Floats.FormatLength(if i < 0 then -i else i, 19);
  }

  /** A field costs its name, its value and at most four bytes of punctuation. */
  lemma FieldLength(name: string, value: Json, rest: Fields)
    ensures |PrintFields(Field(name, value, rest))| <= 6 * |name| + 4 + |Print(value)| + |PrintFields(rest)|
  {
  }

  lemma UnlessLength(empty: bool, name: string, value: Json, rest: Fields, bound: nat)
    requires empty || |Print(value)| <= bound
    ensures |PrintFields(Unless(empty, name, value, rest))| <= 6 * |name| + 4 + bound + |PrintFields(rest)|
  {
    if !empty { FieldLength(name, value, rest); }
  }

  lemma UsageLength(u: Usage)
    requires Int64(u.turnsUsed) && Int64(u.contextUsed) && Int64(u.contextSize)
    requires u.cost.Finite? && CostText(u.cost.text)
    ensures |PrintFields(UsageFields(u))| <= 320
  {
    var cost := Unless(u.cost.text == "", COST, JNumber(u.cost.text), NoFields);
    var size := IntField(CONTEXT_SIZE, u.contextSize, cost);
    var used := IntField(CONTEXT_USED, u.contextUsed, size);
    IntLength(u.turnsUsed);
    IntLength(u.contextUsed);
    IntLength(u.contextSize);
    UnlessLength(u.cost.text == "", COST, JNumber(u.cost.text), NoFields, 25);
    UnlessLength(u.contextSize == 0, CONTEXT_SIZE, JNumber(FormatInt(u.contextSize)), cost, 20);
    UnlessLength(u.contextUsed == 0, CONTEXT_USED, JNumber(FormatInt(u.contextUsed)), size, 20);
    UnlessLength(u.turnsUsed == 0, TURNS_USED, JNumber(FormatInt(u.turnsUsed)), used, 20);
  }

  lemma UsageFieldLength(usage: Option<Usage>)
    requires usage.Some? ==> usage.value.cost.Finite? && |PrintFields(UsageFields(usage.value))| <= 320
    ensures |PrintFields(UsageField(usage))| <= 360
  {
    if usage.Some? { FieldLength(USAGE, JObject(UsageFields(usage.value)), NoFields); }
  }

  lemma QuotedLength(s: string)
    ensures |Print(JString(s))| <= 6 * |s| + 2
  {
  }

  lemma ReasonLength(reason: string, rest: Fields)
    ensures |PrintFields(ReasonField(reason, rest))| <= 70 + 6 * |reason| + |PrintFields(rest)|
  {
    QuotedLength(reason);
    UnlessLength(reason == "", STOP_REASON, JString(reason), rest, 6 * |reason| + 2);
  }

  lemma VerdictLength(code: int, outcome: string, limit: string, rest: Fields)
    requires Int64(code) && |outcome| <= 12 && |limit| <= 12
    ensures |PrintFields(VerdictFields(code, outcome, limit, rest))| <= 360 + |PrintFields(rest)|
  {
    var limitField := Unless(limit == "", LIMIT_REACHED, JString(limit), rest);
    QuotedLength(limit);
    QuotedLength(outcome);
    UnlessLength(limit == "", LIMIT_REACHED, JString(limit), rest, 74);
    FieldLength(OUTCOME, JString(outcome), limitField);
    FieldLength(EXIT_CODE, JNumber(FormatInt(code)), Field(OUTCOME, JString(outcome), limitField));
    IntLength(code);
  }

  /** A blob is its stop reason and little else. */
  lemma MarshalLength(b: Blob)
    requires Representable(b) && Marshal(b).Some?
    ensures |Marshal(b).value| <= 800 + 6 * |b.stopReason|
  {
    if b.usage.Some? { UsageLength(b.usage.value); }
    UsageFieldLength(b.usage);
    ReasonLength(b.stopReason, UsageField(b.usage));
    VerdictLength(b.verdict.exitCode, OutcomeText(b.verdict.outcome), LimitText(b.verdict.limit),
                  ReasonField(b.stopReason, UsageField(b.usage)));
  }

  // ---------------------------------------------------------------- writing it

  const MAX_TERMINATION_LOG_BYTES := 4096
  const MAX_TRIMMED_REASON := 200
  const ELLIPSIS := "\U{E2}\U{80}\U{A6}"

  ghost predicate FiniteCost(b: Blob) {
    b.usage.Some? ==> b.usage.value.cost.Finite?
  }

  /** Same verdict and usage; the stop reason whole, or a rune-safe prefix and an ellipsis. */
  ghost predicate KeepsAllButReason(b: Blob, w: Blob) {
    && w.verdict == b.verdict && w.usage == b.usage
    && (w.stopReason == b.stopReason ||
        exists cut :: cut < b.stopReason && |cut| <= MAX_TRIMMED_REASON && w.stopReason == cut + ELLIPSIS
                      && (ValidUtf8(b.stopReason) ==> ValidUtf8(cut)))
  }

  /** What ends up in the termination log; None when nothing is written. */
  method WriteTerminationLog(term: Blob) returns (written: Option<string>, ghost kept: Blob)
    requires Representable(term)
    ensures written.Some? <==> FiniteCost(term)
    ensures written.Some? ==>
      && |written.value| <= MAX_TERMINATION_LOG_BYTES
      && written == Marshal(kept) && KeepsAllButReason(term, kept)
    ensures Marshal(term).Some? && |Marshal(term).value| <= MAX_TERMINATION_LOG_BYTES ==> kept == term
  {
    kept := term;
    var data := Marshal(term);
    if data.None? { return None, term; }
    if |data.value| > MAX_TERMINATION_LOG_BYTES {
      var t := term;
      if |t.stopReason| > MAX_TRIMMED_REASON {
        var cut := TruncateRuneSafe(t.stopReason, MAX_TRIMMED_REASON);
        if ValidUtf8(t.stopReason) { TruncationIsLongest(t.stopReason, MAX_TRIMMED_REASON, cut); }
        t := t.(stopReason := cut + ELLIPSIS);
        assert cut < term.stopReason;
      }
      MarshalLength(term);
      data := Marshal(t);
      MarshalLength(t);
      if data.None? || |data.value| > MAX_TERMINATION_LOG_BYTES {
        assert false;     // trimming the reason always suffices
        t := Blob(t.verdict, "", None);
        data := Marshal(t);
      }
      kept := t;
    }
    return data, kept;
  }
}
