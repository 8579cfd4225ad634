/** The closed shape of an admission result, read back by the reconciler. */
module AdmissionContract {
  import opened Symbols
  import opened CoordinationRows
  import opened ReconcilerProtocol

  /** `validate_canonical_timestamp`, whatever it accepts. */
  type Clock = Text -> bool

  function ReceiptNamed(word: Text): Option<ReceiptState> {
    if word == Plain("not_needed") then Some(NotNeeded)
    else if word == Plain("pending") then Some(Pending)
    else if word == Plain("succeeded") then Some(Succeeded)
    else if word == Plain("failed") then Some(Failed)
    else if word == Plain("conflict") then Some(Conflicted)
    else if word == Plain("unknown") then Some(Unknown)
    else if word == Plain("abandoned") then Some(Abandoned)
    else None
  }

  lemma ReceiptNamedIff(word: Text, state: ReceiptState)
    ensures ReceiptNamed(word) == Some(state) <==> word == Plain(ReceiptWord(state))
  {
  }

  predicate IdField(fields: Payload, key: string) {
    Get(fields, key).Str? && IsOperationId(Get(fields, key).text)
  }

  /** `require_closed_admission_decision`. */
  function CloseDecision(value: Json, clock: Clock): Result<Verdict, Trouble> {
    if !value.Obj? then Err(NeedsRecovery) else
    var fields := value.fields;
    if Get(fields, "kind") == Str(Plain("replay_claimed")) then
      if fields.Keys == {"kind", "root_command_id"} && IdField(fields, "root_command_id") then
        Ok(ReplayClaimed(fields["root_command_id"].text))
      else Err(NeedsRecovery)
    else if Get(fields, "kind") == Str(Plain("abandoned")) then
      if fields.Keys == {"kind", "root_command_id", "decision_at"} && IdField(fields, "root_command_id")
         && fields["decision_at"].Str? && clock(fields["decision_at"].text) then
        Ok(AbandonedBy(fields["root_command_id"].text, fields["decision_at"].text))
      else Err(NeedsRecovery)
    else if Get(fields, "kind") == Str(Plain("observe")) then
      if fields.Keys == {"kind", "receipt_state"} && fields["receipt_state"].Str?
         && ReceiptNamed(fields["receipt_state"].text).Some? then
        Ok(Observe(ReceiptNamed(fields["receipt_state"].text).value))
      else Err(NeedsRecovery)
    else Err(NeedsRecovery)
  }

  /** A verdict as the admission policy writes it. */
  function VerdictJson(verdict: Verdict): Json {
    match verdict
    case ReplayClaimed(root) => Obj(map["kind" := Str(Plain("replay_claimed")), "root_command_id" := Str(root)])
    case AbandonedBy(root, at) =>
      Obj(map["kind" := Str(Plain("abandoned")), "root_command_id" := Str(root), "decision_at" := Str(at)])
    case Observe(state) => Obj(map["kind" := Str(Plain("observe")), "receipt_state" := Str(Plain(ReceiptWord(state)))])
  }

  predicate VerdictOk(verdict: Verdict, clock: Clock) {
    match verdict
    case ReplayClaimed(root) => IsOperationId(root)
    case AbandonedBy(root, at) => IsOperationId(root) && clock(at)
    case Observe(_) => true
  }

  lemma WrittenCloses(verdict: Verdict, clock: Clock)
    ensures CloseDecision(VerdictJson(verdict), clock) == if VerdictOk(verdict, clock) then Ok(verdict)
            else Err(NeedsRecovery)
  {
    hide IsOperationId, ReceiptNamed, ReceiptWord;
    if verdict.Observe? { ReceiptNamedIff(Plain(ReceiptWord(verdict.state)), verdict.state); }
  }

  lemma ClosedIsWritten(value: Json, clock: Clock)
    ensures CloseDecision(value, clock).Ok? ==> value == VerdictJson(CloseDecision(value, clock).value)
  {
    hide IsOperationId, ReceiptNamed, ReceiptWord;
    var closed := CloseDecision(value, clock);
    if closed.Ok? {
      if closed.value.Observe? { ReceiptNamedIff(value.fields["receipt_state"].text, closed.value.state); }
      assert value.fields == VerdictJson(closed.value).fields;
    }
  }

  const RECEIPT_STATES: map<string, ReceiptState> := map[
    "not_needed" := NotNeeded, "pending" := Pending, "succeeded" := Succeeded, "failed" := Failed,
    "conflict" := Conflicted, "unknown" := Unknown, "abandoned" := Abandoned]

  /** The three closed shapes a decision may have, and the verdict each means. */
  predicate Means(value: Json, verdict: Verdict, clock: Clock) {
    value.Obj? && match verdict
    case ReplayClaimed(root) =>
      value.fields == map["kind" := Str(Plain("replay_claimed")), "root_command_id" := Str(root)]
      && IsOperationId(root)
    case AbandonedBy(root, at) =>
      value.fields == map["kind" := Str(Plain("abandoned")), "root_command_id" := Str(root), "decision_at" := Str(at)]
      && IsOperationId(root) && clock(at)
    case Observe(state) =>
      && value.fields.Keys == {"kind", "receipt_state"} && value.fields["kind"] == Str(Plain("observe"))
      && value.fields["receipt_state"].Str? && value.fields["receipt_state"].text.Plain?
      && var word := value.fields["receipt_state"].text.chars;
      word in RECEIPT_STATES && RECEIPT_STATES[word] == state
  }

  lemma MeansIff(value: Json, verdict: Verdict, clock: Clock)
    ensures Means(value, verdict, clock) <==> value == VerdictJson(verdict) && VerdictOk(verdict, clock)
  {
    hide IsOperationId;
    if verdict.Observe? && value.Obj? {
      var fields := VerdictJson(verdict).fields;
      assert ReceiptWord(verdict.state) in RECEIPT_STATES;
      if Means(value, verdict, clock) {
        assert value.fields["receipt_state"].text.chars == ReceiptWord(verdict.state);
        assert value.fields == fields;
      }
    }
  }

  lemma OneTrouble(value: Json, clock: Clock)
    ensures CloseDecision(value, clock).Err? ==> CloseDecision(value, clock) == Err(NeedsRecovery)
  {
    hide IsOperationId, ReceiptNamed;
  }

  /** The decoder accepts exactly the three closed shapes and reads back what
      they mean; anything else requires recovery. */
  lemma CloseDecisionIff(value: Json, verdict: Verdict, clock: Clock)
    ensures CloseDecision(value, clock) == Ok(verdict) <==> Means(value, verdict, clock)
    ensures CloseDecision(value, clock).Err? ==> CloseDecision(value, clock) == Err(NeedsRecovery)
  {
    hide *;
    WrittenCloses(verdict, clock);
    ClosedIsWritten(value, clock);
    MeansIff(value, verdict, clock);
    OneTrouble(value, clock);
  }

  /** An admission result; its fields are none when they have the wrong type. */
  datatype AdmissionValue = AdmissionValue(keys: set<string>, ordered: Option<seq<Text>>,
                                           decisions: Option<map<Text, Json>>)

  const ADMISSION_KEYS: set<string> := {"ordered_command_ids", "decisions"}

  function IdSet(ids: seq<Text>): set<Text> {
    set i | 0 <= i < |ids| :: ids[i]
  }

  /** `require_exact_admission_decisions`. */
  function RequireExact(admission: AdmissionValue, ids: seq<Text>, clock: Clock): Result<map<Text, Verdict>, Trouble> {
    if admission.keys != ADMISSION_KEYS || admission.ordered != Some(ids) then Err(NeedsRecovery)
    else if admission.decisions.None? || admission.decisions.value.Keys != IdSet(ids) then Err(NeedsRecovery)
    else if exists c ::
           c in admission.decisions.value
           && CloseDecision(admission.decisions.value[c], clock).Err? then Err(NeedsRecovery)
    else Ok(map c | c in admission.decisions.value :: CloseDecision(admission.decisions.value[c], clock).value)
  }

  /** What the admission policy returns. */
  function Written(ids: seq<Text>, verdicts: map<Text, Verdict>): AdmissionValue {
    AdmissionValue(ADMISSION_KEYS, Some(ids), Some(map c | c in verdicts :: VerdictJson(verdicts[c])))
  }

  /** The reconciler takes exactly the two fields of what the policy wrote: the
      ids in their order and one closed decision for each. */
  predicate Admits(admission: AdmissionValue, ids: seq<Text>, verdicts: map<Text, Verdict>, clock: Clock) {
    && admission.keys == {"ordered_command_ids", "decisions"} && admission.ordered == Some(ids)
    && admission.decisions != None
    && admission.decisions.value.Keys == verdicts.Keys
    && (forall c :: c in verdicts ==> c in ids && Means(admission.decisions.value[c], verdicts[c], clock))
    && (forall i :: 0 <= i < |ids| ==> ids[i] in verdicts)
  }

  lemma RequireExactIff(admission: AdmissionValue, ids: seq<Text>, verdicts: map<Text, Verdict>, clock: Clock)
    ensures RequireExact(admission, ids, clock) == Ok(verdicts) <==> Admits(admission, ids, verdicts, clock)
    ensures RequireExact(admission, ids, clock).Err? ==> RequireExact(admission, ids, clock) == Err(NeedsRecovery)
  {
    hide CloseDecision, Means;
    forall value: Json, verdict: Verdict
      ensures CloseDecision(value, clock) == Ok(verdict) <==> Means(value, verdict, clock)
    {
      CloseDecisionIff(value, verdict, clock);
    }
    if Admits(admission, ids, verdicts, clock) {
      assert admission.decisions.value.Keys == IdSet(ids);
      forall c | c in verdicts ensures CloseDecision(admission.decisions.value[c], clock) == Ok(verdicts[c]) {
        assert Means(admission.decisions.value[c], verdicts[c], clock);
      }
      assert RequireExact(admission, ids, clock).value == verdicts;
    }
    if RequireExact(admission, ids, clock) == Ok(verdicts) {
      forall c | c in verdicts ensures Means(admission.decisions.value[c], verdicts[c], clock) {
        assert CloseDecision(admission.decisions.value[c], clock) == Ok(verdicts[c]);
      }
    }
  }

  /** In particular what the policy wrote for valid verdicts. */
  lemma WrittenIsRead(ids: seq<Text>, verdicts: map<Text, Verdict>, clock: Clock)
    requires verdicts.Keys == IdSet(ids) && forall c :: c in verdicts ==> VerdictOk(verdicts[c], clock)
    ensures RequireExact(Written(ids, verdicts), ids, clock) == Ok(verdicts)
  {
    hide CloseDecision, VerdictJson, VerdictOk, Means;
    forall c | c in verdicts ensures Means(VerdictJson(verdicts[c]), verdicts[c], clock) {
      MeansIff(VerdictJson(verdicts[c]), verdicts[c], clock);
    }
    RequireExactIff(Written(ids, verdicts), ids, verdicts, clock);
    assert Written(ids, verdicts).decisions.value.Keys == IdSet(ids);
  }
}
