/**
 The termination message as a consumer sees it: the whole text must be one JSON object, fields
 are found by name, and absent ones have their zero value.  Whatever blob was written, and
 however its reason was trimmed, the consumer gets it back; a text cut short is refused.
 */
module TerminationReader {
  import opened Common
  import opened Decimals
  import opened Json
  import opened Utf8
  import Floats
  import opened TerminationBlob
  import SE = StageExit

  function OutcomeNamed(name: string): Option<SE.Outcome> {
    if name == "succeeded" then Some(SE.OutcomeSucceeded)
    else if name == "failed" then Some(SE.OutcomeFailed)
    else if name == "limitReached" then Some(SE.OutcomeLimitReached)
    else None
  }

  function LimitNamed(name: string): Option<SE.Limit> {
    if name == "" then Some(SE.NoLimit)
    else if name == "maxTurns" then Some(SE.MaxTurns)
    else if name == "maxCost" then Some(SE.MaxCost)
    else None
  }

  function GetString(f: Fields, name: string): Option<string> {
    match Lookup(f, name)
    case None => Some("")
    case Some(JString(s)) => Some(s)
    case _ => None
  }

  function GetNumber(f: Fields, name: string): Option<string> {
    match Lookup(f, name)
    case None => Some("")
    case Some(JNumber(t)) => Some(t)
    case _ => None
  }

  function GetInt(f: Fields, name: string): Option<int> {
    var t := GetNumber(f, name);
    if t.None? then None else if t.value == "" then Some(0) else ParseInt(t.value)
  }

  function ReadUsage(f: Fields): Option<Usage> {
    var turns, used, size, cost :=
      GetInt(f, "turnsUsed"), GetInt(f, "contextUsed"), GetInt(f, "contextSize"), GetNumber(f, "cost");
    if turns.None? || used.None? || size.None? || cost.None? then None
    else Some(Usage(turns.value, used.value, size.value, Finite(cost.value)))
  }

  function ReadVerdict(f: Fields): Option<SE.Blob> {
    var code, outcome, limit := GetInt(f, "exitCode"), GetString(f, "outcome"), GetString(f, "limitReached");
    if code.None? || outcome.None? || limit.None? then None
    else if OutcomeNamed(outcome.value).None? || LimitNamed(limit.value).None? then None
    else Some(SE.Blob(code.value, OutcomeNamed(outcome.value).value, LimitNamed(limit.value).value))
  }

  function ReadUsageField(f: Fields): Option<Option<Usage>> {
    match Lookup(f, "usage")
    case None => Some(None)
    case Some(JObject(u)) => if ReadUsage(u).None? then None else Some(ReadUsage(u))
    case _ => None
  }

  function ReadBlob(text: string): Option<Blob> {
    match Read(text)
    case Some(JObject(f)) =>
      var verdict, reason, usage := ReadVerdict(f), GetString(f, "stopReason"), ReadUsageField(f);
      if verdict.None? || reason.None? || usage.None? then None
      else Some(Blob(verdict.value, reason.value, usage.value))
    case _ => None
  }

  // ---------------------------------------------------------------- every blob reads back

  lemma UnlessWritable(empty: bool, name: string, value: Json, rest: Fields)
    requires Ascii(name) && (empty || Writable(value)) && FieldsWritable(rest)
    ensures FieldsWritable(Unless(empty, name, value, rest))
  {
  }

  lemma IntWritable(name: string, i: int, rest: Fields)
    requires Ascii(name) && FieldsWritable(rest)
    ensures FieldsWritable(IntField(name, i, rest))
  {
    Floats.IntegerIsNumber(i);
  }

  lemma ThreeWritable(a: string, i: int, b: string, j: int, c: string, k: int, rest: Fields)
    requires Ascii(a) && Ascii(b) && Ascii(c) && FieldsWritable(rest)
    ensures FieldsWritable(IntField(a, i, IntField(b, j, IntField(c, k, rest))))
  {
    IntWritable(c, k, rest);
    IntWritable(b, j, IntField(c, k, rest));
    IntWritable(a, i, IntField(b, j, IntField(c, k, rest)));
  }

  lemma NamesPlain()
    ensures Ascii(TURNS_USED) && Ascii(CONTEXT_USED) && Ascii(CONTEXT_SIZE) && Ascii(COST)
  {
  }

  lemma CostWritable(cost: string)
    requires CostText(cost)
    ensures FieldsWritable(Unless(cost == "", COST, JNumber(cost), NoFields))
  {
    NamesPlain();
    UnlessWritable(cost == "", COST, JNumber(cost), NoFields);
  }

  lemma UsageWritable(u: Usage)
    requires u.cost.Finite? && CostText(u.cost.text)
    ensures FieldsWritable(UsageFields(u))
  {
    NamesPlain();
    CostWritable(u.cost.text);
    ThreeWritable(TURNS_USED, u.turnsUsed, CONTEXT_USED, u.contextUsed, CONTEXT_SIZE, u.contextSize,
                  Unless(u.cost.text == "", COST, JNumber(u.cost.text), NoFields));
  }

  lemma VerdictWritable(code: int, outcome: string, limit: string, rest: Fields)
    requires FieldsWritable(rest)
    ensures FieldsWritable(VerdictFields(code, outcome, limit, rest))
  {
    var limitField := Unless(limit == "", LIMIT_REACHED, JString(limit), rest);
    UnlessWritable(limit == "", LIMIT_REACHED, JString(limit), rest);
    UnlessWritable(false, OUTCOME, JString(outcome), limitField);
    Floats.IntegerIsNumber(code);
    UnlessWritable(false, EXIT_CODE, JNumber(FormatInt(code)), Field(OUTCOME, JString(outcome), limitField));
  }

  lemma BlobWritable(b: Blob)
    requires Representable(b) && FiniteCost(b)
    ensures FieldsWritable(BlobFields(b))
  {
    var usage := UsageField(b.usage);
    if b.usage.Some? { UsageWritable(b.usage.value); UnlessWritable(false, USAGE, JObject(UsageFields(b.usage.value)), NoFields); }
    UnlessWritable(b.stopReason == "", STOP_REASON, JString(b.stopReason), usage);
    VerdictWritable(b.verdict.exitCode, OutcomeText(b.verdict.outcome), LimitText(b.verdict.limit),
                    ReasonField(b.stopReason, usage));
  }

  lemma UnlessClean(empty: bool, name: string, value: Json, rest: Fields)
    ensures CleanFields(Unless(empty, name, value, rest)) == Unless(empty, name, Clean(value), CleanFields(rest))
  {
  }

  lemma UsageClean(u: Usage)
    requires u.cost.Finite?
    ensures CleanFields(UsageFields(u)) == UsageFields(u)
  {
    var cost := Unless(u.cost.text == "", COST, JNumber(u.cost.text), NoFields);
    var size := IntField(CONTEXT_SIZE, u.contextSize, cost);
    var used := IntField(CONTEXT_USED, u.contextUsed, size);
    UnlessClean(u.cost.text == "", COST, JNumber(u.cost.text), NoFields);
    UnlessClean(u.contextSize == 0, CONTEXT_SIZE, JNumber(FormatInt(u.contextSize)), cost);
    UnlessClean(u.contextUsed == 0, CONTEXT_USED, JNumber(FormatInt(u.contextUsed)), size);
    UnlessClean(u.turnsUsed == 0, TURNS_USED, JNumber(FormatInt(u.turnsUsed)), used);
  }

  lemma TextClean(t: string)
    requires Ascii(t)
    ensures Clean(JString(t)) == JString(t)
  {
    AsciiIsValid(t);
    ValidIsSanitized(t);
  }

  lemma EmptyStays(s: string)
    ensures Sanitize(s) == "" <==> s == ""
  {
  }

  lemma ReasonSeen(reason: string, usage: Fields)
    requires CleanFields(usage) == usage
    ensures CleanFields(ReasonField(reason, usage)) == ReasonField(Sanitize(reason), usage)
  {
    EmptyStays(reason);
    UnlessClean(reason == "", STOP_REASON, JString(reason), usage);
  }

  lemma VerdictSeen(code: int, outcome: string, limit: string, rest: Fields)
    requires Ascii(outcome) && Ascii(limit)
    ensures CleanFields(VerdictFields(code, outcome, limit, rest)) == VerdictFields(code, outcome, limit, CleanFields(rest))
  {
    TextClean(outcome);
    TextClean(limit);
    UnlessClean(limit == "", LIMIT_REACHED, JString(limit), rest);
  }

  lemma UsageSeen(usage: Option<Usage>)
    requires usage.Some? ==> usage.value.cost.Finite?
    ensures CleanFields(UsageField(usage)) == UsageField(usage)
  {
    if usage.Some? {
      UsageClean(usage.value);
      UnlessClean(false, USAGE, JObject(UsageFields(usage.value)), NoFields);
    }
  }

  /** A decoder sees the fields as they were written, but for the reason's stray bytes. */
  lemma FieldsSeen(b: Blob)
    requires FiniteCost(b)
    ensures CleanFields(BlobFields(b)) == BlobFields(b.(stopReason := Sanitize(b.stopReason)))
  {
    UsageSeen(b.usage);
    ReasonSeen(b.stopReason, UsageField(b.usage));
    VerdictSeen(b.verdict.exitCode, OutcomeText(b.verdict.outcome), LimitText(b.verdict.limit),
                ReasonField(b.stopReason, UsageField(b.usage)));
  }

  lemma UnlessLookup(empty: bool, name: string, value: Json, rest: Fields, key: string)
    ensures Lookup(Unless(empty, name, value, rest), key) ==
      if Lookup(rest, key).Some? then Lookup(rest, key) else if !empty && name == key then Some(value) else None
  {
  }

  lemma IntReads(i: int)
    requires Int64(i)
    ensures FormatInt(i) != "" && ParseInt(FormatInt(i)) == Some(i)
  {
    ParseIntFormat(i);
    Floats.IntegerIsNumber(i);
  }

  lemma UsageNamesDiffer()
    ensures TURNS_USED != CONTEXT_USED && TURNS_USED != CONTEXT_SIZE && TURNS_USED != COST
    ensures CONTEXT_USED != CONTEXT_SIZE && CONTEXT_USED != COST && CONTEXT_SIZE != COST
  {
    assert TURNS_USED[0] == 't' && CONTEXT_USED[0] == 'c' && CONTEXT_SIZE[0] == 'c' && COST[0] == 'c';
    assert CONTEXT_USED[7] == 'U' && CONTEXT_SIZE[7] == 'S';
    assert |COST| == 4;
  }

  /** Each field of the usage is found under its own name. */
  lemma UsageLookup(u: Usage, key: string)
    requires u.cost.Finite? && key in {TURNS_USED, CONTEXT_USED, CONTEXT_SIZE, COST}
    ensures Lookup(UsageFields(u), key) ==
      if key == COST then (if u.cost.text == "" then None else Some(JNumber(u.cost.text)))
      else
        var i := if key == TURNS_USED then u.turnsUsed else if key == CONTEXT_USED then u.contextUsed else u.contextSize;
        if i == 0 then None else Some(JNumber(FormatInt(i)))
  {
    var cost := Unless(u.cost.text == "", COST, JNumber(u.cost.text), NoFields);
    var size := IntField(CONTEXT_SIZE, u.contextSize, cost);
    var used := IntField(CONTEXT_USED, u.contextUsed, size);
    UsageNamesDiffer();
    UnlessLookup(u.cost.text == "", COST, JNumber(u.cost.text), NoFields, key);
    UnlessLookup(u.contextSize == 0, CONTEXT_SIZE, JNumber(FormatInt(u.contextSize)), cost, key);
    UnlessLookup(u.contextUsed == 0, CONTEXT_USED, JNumber(FormatInt(u.contextUsed)), size, key);
    UnlessLookup(u.turnsUsed == 0, TURNS_USED, JNumber(FormatInt(u.turnsUsed)), used, key);
  }

  lemma UsageReads(u: Usage)
    requires Int64(u.turnsUsed) && Int64(u.contextUsed) && Int64(u.contextSize)
    requires u.cost.Finite?
    ensures ReadUsage(UsageFields(u)) == Some(u)
  {
    UsageNamesDiffer();
    UsageLookup(u, TURNS_USED);
    UsageLookup(u, CONTEXT_USED);
    UsageLookup(u, CONTEXT_SIZE);
    UsageLookup(u, COST);
    IntReads(u.turnsUsed);
    IntReads(u.contextUsed);
    IntReads(u.contextSize);
  }

  lemma BlobNamesDiffer()
    ensures EXIT_CODE != OUTCOME && EXIT_CODE != LIMIT_REACHED && EXIT_CODE != STOP_REASON && EXIT_CODE != USAGE
    ensures OUTCOME != LIMIT_REACHED && OUTCOME != STOP_REASON && OUTCOME != USAGE
    ensures LIMIT_REACHED != STOP_REASON && LIMIT_REACHED != USAGE && STOP_REASON != USAGE
  {
    assert EXIT_CODE[0] == 'e' && OUTCOME[0] == 'o' && LIMIT_REACHED[0] == 'l' && STOP_REASON[0] == 's' && USAGE[0] == 'u';
  }

  /** Each field of the blob is found under its own name. */
  lemma BlobLookup(b: Blob, key: string)
    requires FiniteCost(b) && key in {EXIT_CODE, OUTCOME, LIMIT_REACHED, STOP_REASON, USAGE}
    ensures Lookup(BlobFields(b), key) ==
      if key == EXIT_CODE then Some(JNumber(FormatInt(b.verdict.exitCode)))
      else if key == OUTCOME then Some(JString(OutcomeText(b.verdict.outcome)))
      else if key == LIMIT_REACHED then
        if LimitText(b.verdict.limit) == "" then None else Some(JString(LimitText(b.verdict.limit)))
      else if key == STOP_REASON then if b.stopReason == "" then None else Some(JString(b.stopReason))
      else if b.usage.None? then None else Some(JObject(UsageFields(b.usage.value)))
  {
    var outcome, limit, usage := OutcomeText(b.verdict.outcome), LimitText(b.verdict.limit), UsageField(b.usage);
    BlobNamesDiffer();
    if b.usage.Some? { UnlessLookup(false, USAGE, JObject(UsageFields(b.usage.value)), NoFields, key); }
    UnlessLookup(b.stopReason == "", STOP_REASON, JString(b.stopReason), usage, key);
    VerdictLookup(b.verdict.exitCode, outcome, limit, ReasonField(b.stopReason, usage), key);
  }

  lemma VerdictLookup(code: int, outcome: string, limit: string, rest: Fields, key: string)
    requires Lookup(rest, key).None? || key !in {EXIT_CODE, OUTCOME, LIMIT_REACHED}
    ensures Lookup(VerdictFields(code, outcome, limit, rest), key) ==
      if key == EXIT_CODE then Some(JNumber(FormatInt(code)))
      else if key == OUTCOME then Some(JString(outcome))
      else if key == LIMIT_REACHED then if limit == "" then None else Some(JString(limit))
      else Lookup(rest, key)
  {
    var limitField := Unless(limit == "", LIMIT_REACHED, JString(limit), rest);
    BlobNamesDiffer();
    UnlessLookup(limit == "", LIMIT_REACHED, JString(limit), rest, key);
    UnlessLookup(false, OUTCOME, JString(outcome), limitField, key);
    UnlessLookup(false, EXIT_CODE, JNumber(FormatInt(code)), Field(OUTCOME, JString(outcome), limitField), key);
  }

  lemma NamesRead(v: SE.Blob)
    ensures OutcomeNamed(OutcomeText(v.outcome)) == Some(v.outcome) && LimitNamed(LimitText(v.limit)) == Some(v.limit)
  {
  }

  lemma FieldsRead(b: Blob)
    requires Representable(b) && FiniteCost(b)
    ensures ReadVerdict(BlobFields(b)) == Some(b.verdict) && GetString(BlobFields(b), STOP_REASON) == Some(b.stopReason)
    ensures ReadUsageField(BlobFields(b)) == Some(b.usage)
  {
    BlobNamesDiffer();
    BlobLookup(b, EXIT_CODE);
    BlobLookup(b, OUTCOME);
    BlobLookup(b, LIMIT_REACHED);
    BlobLookup(b, STOP_REASON);
    BlobLookup(b, USAGE);
    NamesRead(b.verdict);
    IntReads(b.verdict.exitCode);
    if b.usage.Some? { UsageReads(b.usage.value); }
  }

  /** The whole of a blob can be read back from its bytes; stray bytes in the reason come back as U+FFFD. */
  lemma BlobRoundTrip(b: Blob)
    requires Representable(b) && FiniteCost(b)
    ensures ReadBlob(Marshal(b).value) == Some(b.(stopReason := Sanitize(b.stopReason)))
    ensures ValidUtf8(b.stopReason) ==> ReadBlob(Marshal(b).value) == Some(b)
  {
    var seen := b.(stopReason := Sanitize(b.stopReason));
    BlobWritable(b);
    RoundTrip(JObject(BlobFields(b)));
    FieldsSeen(b);
    FieldsRead(seen);
    SanitizedExactly(b.stopReason);
  }

  lemma EllipsisIsValid()
    ensures ValidUtf8(ELLIPSIS)
  {
    assert RuneLength(ELLIPSIS) == 3 && ELLIPSIS[3..] == "";
  }

  /** However the message was trimmed, what is read from it is the stage's own verdict and usage. */
  lemma MessageSurvives(term: Blob, kept: Blob)
    requires Representable(term) && FiniteCost(term) && KeepsAllButReason(term, kept)
    ensures Marshal(kept).Some? && ReadBlob(Marshal(kept).value).Some?
    ensures var read := ReadBlob(Marshal(kept).value).value; read.verdict == term.verdict && read.usage == term.usage
    ensures ValidUtf8(term.stopReason) ==> ReadBlob(Marshal(kept).value) == Some(kept)
  {
    assert Representable(kept) && FiniteCost(kept);
    BlobRoundTrip(kept);
    if ValidUtf8(term.stopReason) && kept.stopReason != term.stopReason {
      var cut :| cut < term.stopReason && kept.stopReason == cut + ELLIPSIS && ValidUtf8(cut);
      EllipsisIsValid();
      ValidConcat(cut, ELLIPSIS);
    }
  }

  /** Cut anywhere, as the kubelet would cut a longer one, a message is no JSON object any more. */
  lemma CutMessageIsRefused(b: Blob, p: nat)
    requires Representable(b) && FiniteCost(b) && p < |Marshal(b).value|
    ensures ReadBlob(Marshal(b).value[..p]).None?
  {
    BlobWritable(b);
    CutIsRefused(BlobFields(b), p);
  }
}
