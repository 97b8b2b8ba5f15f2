/**
  The gate every audit record passes: no field that may never be recorded, at any depth, and
  no guardrail entry outside its allow-list. The walk is proved to agree with a definition by
  paths, and to pass every event the logger can serialise.
 */
module NeverGate {
  import opened Texts
  import opened Nodes

  /** Case folding; a parameter. */
  type Lower = string -> string

  const NEVER_FIELDS: set<string> :=
    { "mapping", "mapping_table", "pairs", "original_content", "unredacted_content", "pre_sanitization",
      "replace_md", "rule_values", "x_corp_auth", "corp_token", "api_key", "authorization", "cookie",
      "set_cookie", "extra_headers" }

  const DATA_KEYED_FIELDS: set<string> := {"finding_label_counts"}

  const GUARDRAIL_INFORMATION_FIELDS: set<string> := {"guardrail_information", "standard_logging_guardrail_information"}

  const GUARDRAIL_INFORMATION_KEYS: set<string> :=
    { "guardrail_name", "guardrail_provider", "guardrail_mode", "guardrail_response", "guardrail_status",
      "start_time", "end_time", "duration", "masked_entity_count" }

  const GUARDRAIL_RESPONSE_REQUIRED: set<string> := {"redaction_count", "finding_label_counts"}

  const GUARDRAIL_RESPONSE_KEYS: set<string> := GUARDRAIL_RESPONSE_REQUIRED + {"block_reason"}

  const GUARDRAIL_STATUSES: set<string> :=
    {"success", "guardrail_flagged", "guardrail_intervened", "guardrail_failed_to_respond", "not_run"}

  function Dashed(s: string): string {
    seq(|s|, i requires 0 <= i < |s| => if s[i] == '-' then '_' else s[i])
  }

  function Normalize(lower: Lower, key: string): string { Dashed(lower(key)) }

  // ---- the values a guardrail entry may hold

  predicate IsGuardrailName(s: string) {
    && 1 <= |s| <= 64 && (IsLower(s[0]) || IsDigit(s[0]))
    && forall i :: 1 <= i < |s| ==> IsLower(s[i]) || IsDigit(s[i]) || s[i] == '_' || s[i] == '-'
  }

  predicate IsGuardrailMode(s: string) {
    1 <= |s| <= 32 && IsLower(s[0]) && forall i :: 1 <= i < |s| ==> IsLower(s[i]) || s[i] == '_'
  }

  predicate IsWord(s: string) {
    s != [] && IsLower(s[0]) && forall i :: 1 <= i < |s| ==> IsLower(s[i]) || IsDigit(s[i]) || s[i] == '_'
  }

  predicate IsBlockReason(s: string) {
    |s| <= 64 && (IsWord(s) || exists k :: 0 <= k < |s| && s[k] == ':' && IsWord(s[..k]) && IsWord(s[k + 1..]))
  }

  predicate IsFindingLabel(s: string) {
    1 <= |s| <= 64 && IsUpper(s[0]) && forall i :: 1 <= i < |s| ==> IsUpper(s[i]) || IsDigit(s[i]) || s[i] == '_'
  }

  predicate IsCount(n: Node) { n.Int? && n.integer >= 0 }
  predicate IsNumber(n: Node) { n.Int? || n.Float? }

  /** The keys are the given names: at least `required`, at most `allowed`. */
  predicate KeysBetween(entries: seq<(Key, Node)>, required: set<string>, allowed: set<string>) {
    && (forall name :: name in required ==> Name(name) in KeySet(entries))
    && (forall i :: 0 <= i < |entries| ==> entries[i].0.Name? && entries[i].0.name in allowed)
  }

  predicate LabelCounts(n: Node) {
    n.Dict? && forall i :: 0 <= i < |n.entries| ==>
      n.entries[i].0.Name? && IsFindingLabel(n.entries[i].0.name) && IsCount(n.entries[i].1)
  }

  predicate ResponseFieldOk(name: string, v: Node) {
    && (name == "block_reason" ==> v.Str? && IsBlockReason(v.text))
    && (name == "redaction_count" ==> IsCount(v))
    && (name == "finding_label_counts" ==> LabelCounts(v))
  }

  predicate ResponseOk(response: Node) {
    && response.Dict?
    && KeysBetween(response.entries, GUARDRAIL_RESPONSE_REQUIRED, GUARDRAIL_RESPONSE_KEYS)
    && forall i :: 0 <= i < |response.entries| && response.entries[i].0.Name? ==>
         ResponseFieldOk(response.entries[i].0.name, response.entries[i].1)
  }

  predicate EntryFieldOk(name: string, v: Node) {
    var mode := if v.Enum? then v.value else v;
    if name == "guardrail_response" then ResponseOk(v)
    else if name == "guardrail_name" then v.Str? && IsGuardrailName(v.text)
    else if name == "guardrail_mode" then mode.Str? && IsGuardrailMode(mode.text)
    else if name == "guardrail_status" then v.Str? && v.text in GUARDRAIL_STATUSES
    else if name == "guardrail_provider" || name == "masked_entity_count" then v.Null?
    else v.Null? || IsNumber(v)   // the three times
  }

  /** An allow-listed guardrail entry. */
  predicate EntryOk(entry: Node) {
    && entry.Dict?
    && KeysBetween(entry.entries, GUARDRAIL_INFORMATION_KEYS, GUARDRAIL_INFORMATION_KEYS)
    && forall i :: 0 <= i < |entry.entries| && entry.entries[i].0.Name? ==>
         EntryFieldOk(entry.entries[i].0.name, entry.entries[i].1)
  }

  predicate EntriesOk(entries: seq<Node>, i: nat)
    requires i <= |entries|
    decreases |entries| - i
  {
    i == |entries| || (EntryOk(entries[i]) && EntriesOk(entries, i + 1))
  }

  /** What a guardrail field may hold: nothing, an allow-listed entry, or a list of them. */
  predicate GuardrailValueOk(value: Node) {
    || value.Null?
    || (value.List? && EntriesOk(value.items, 0))
    || EntryOk(value)
  }

  // ---- the walk

  datatype Outcome = Passed | NeverKey(key: string) | NotAllowed

  function Walk(lower: Lower, node: Node): Outcome
    decreases node, 1, 0
  {
    match node
    case Dict(_) => WalkEntries(lower, node, 0)
    case List(_) => WalkItems(lower, node, 0)
    case Tuple(_) => WalkItems(lower, node, 0)
    case _ => Passed
  }

  function WalkEntries(lower: Lower, node: Node, i: nat): Outcome
    requires node.Dict? && i <= |node.entries|
    decreases node, 0, |node.entries| - i
  {
    if i == |node.entries| then Passed
    else
      var first := WalkEntry(lower, node.entries[i].0, node.entries[i].1);
      if first.Passed? then WalkEntries(lower, node, i + 1) else first
  }

  function WalkItems(lower: Lower, node: Node, i: nat): Outcome
    requires (node.List? || node.Tuple?) && i <= |node.items|
    decreases node, 0, |node.items| - i
  {
    if i == |node.items| then Passed
    else
      var first := Walk(lower, node.items[i]);
      if first.Passed? then WalkItems(lower, node, i + 1) else first
  }

  function WalkEntry(lower: Lower, key: Key, value: Node): Outcome
    decreases value, 3, 0
  {
    if key.Other? then Walk(lower, value)
    else
      var name := Normalize(lower, key.name);
      if name in DATA_KEYED_FIELDS then WalkValuesOnly(lower, value)
      else if name in NEVER_FIELDS then NeverKey(key.name)
      else if name in GUARDRAIL_INFORMATION_FIELDS then CheckGuardrail(lower, value)
      else Walk(lower, value)
  }

  /** Under a data-keyed field: the keys of this one dict are data, its values are walked. */
  function WalkValuesOnly(lower: Lower, node: Node): Outcome
    decreases node, 1, 0
  {
    match node
    case Dict(_) => WalkValues(lower, node, 0)
    case List(_) => WalkItems(lower, node, 0)
    case Tuple(_) => WalkItems(lower, node, 0)
    case _ => Passed
  }

  function WalkValues(lower: Lower, node: Node, i: nat): Outcome
    requires node.Dict? && i <= |node.entries|
    decreases node, 0, |node.entries| - i
  {
    if i == |node.entries| then Passed
    else
      var first := Walk(lower, node.entries[i].1);
      if first.Passed? then WalkValues(lower, node, i + 1) else first
  }

  function CheckGuardrail(lower: Lower, value: Node): Outcome
    decreases value, 2, 0
  {
    match value
    case Null => Passed
    case List(_) => CheckGuardrailEntries(lower, value, 0)
    case _ => CheckGuardrailEntry(lower, value)
  }

  function CheckGuardrailEntries(lower: Lower, list: Node, i: nat): Outcome
    requires list.List? && i <= |list.items|
    decreases list, 0, |list.items| - i
  {
    if i == |list.items| then Passed
    else
      var first := CheckGuardrailEntry(lower, list.items[i]);
      if first.Passed? then CheckGuardrailEntries(lower, list, i + 1) else first
  }

  /** The walk comes first, so a key that may never be recorded is reported as such. */
  function CheckGuardrailEntry(lower: Lower, entry: Node): Outcome
    decreases entry, 1, 1
  {
    if !entry.Dict? then NotAllowed
    else
      var walked := Walk(lower, entry);
      if !walked.Passed? then walked else if EntryOk(entry) then Passed else NotAllowed
  }
}
