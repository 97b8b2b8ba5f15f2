/** What the NEVER gate accepts, by paths, and why it never refuses a serialised event. */
module NeverTheorems {
  import opened Wrappers
  import opened Nodes
  import opened NeverGate

  // ---- the definition by paths

  /** How the keys of a dict are read: as field names, or as data under a data-keyed field. */
  datatype Reading = Schema | Data

  function Width(node: Node): nat {
    match node
    case Dict(entries) => |entries|
    case List(items) => |items|
    case Tuple(items) => |items|
    case _ => 0
  }

  function Child(node: Node, i: nat): Node
    requires i < Width(node)
  {
    if node.Dict? then node.entries[i].1 else node.items[i]
  }

  function EntryReading(lower: Lower, key: Key): Reading {
    if key.Name? && Normalize(lower, key.name) in DATA_KEYED_FIELDS then Data else Schema
  }

  function ChildReading(lower: Lower, node: Node, reading: Reading, i: nat): Reading
    requires i < Width(node)
  {
    if node.Dict? && reading.Schema? then EntryReading(lower, node.entries[i].0) else Schema
  }

  predicate IsPath(root: Node, path: seq<nat>)
    decreases |path|
  {
    path == [] || (path[0] < Width(root) && IsPath(Child(root, path[0]), path[1..]))
  }

  function NodeAt(root: Node, path: seq<nat>): Node
    requires IsPath(root, path)
    decreases |path|
  {
    if path == [] then root else NodeAt(Child(root, path[0]), path[1..])
  }

  function ReadingAt(lower: Lower, root: Node, reading: Reading, path: seq<nat>): Reading
    requires IsPath(root, path)
    decreases |path|
  {
    if path == [] then reading
    else ReadingAt(lower, Child(root, path[0]), ChildReading(lower, root, reading, path[0]), path[1..])
  }

  /** A field that may be where it is. */
  predicate FieldOk(lower: Lower, key: Key, value: Node) {
    key.Name? ==>
      var name := Normalize(lower, key.name);
      name !in NEVER_FIELDS && (name in GUARDRAIL_INFORMATION_FIELDS ==> GuardrailValueOk(value))
  }

  predicate FieldsOk(lower: Lower, node: Node, reading: Reading) {
    node.Dict? && reading.Schema? ==>
      forall i :: 0 <= i < |node.entries| ==> FieldOk(lower, node.entries[i].0, node.entries[i].1)
  }

  /** Wherever keys are read as field names, at whatever depth, every field may be there. */
  ghost predicate Clean(lower: Lower, root: Node, reading: Reading) {
    forall path :: IsPath(root, path) ==> FieldsOk(lower, NodeAt(root, path), ReadingAt(lower, root, reading, path))
  }

  lemma {:induction false} CleanFromParts(lower: Lower, root: Node, reading: Reading)
    requires FieldsOk(lower, root, reading)
    requires forall i :: 0 <= i < Width(root) ==> Clean(lower, Child(root, i), ChildReading(lower, root, reading, i))
    ensures Clean(lower, root, reading)
  {
    forall path | IsPath(root, path)
      ensures FieldsOk(lower, NodeAt(root, path), ReadingAt(lower, root, reading, path))
    {
      if path != [] {
        assert Clean(lower, Child(root, path[0]), ChildReading(lower, root, reading, path[0]));
        assert IsPath(Child(root, path[0]), path[1..]);
      }
    }
  }

  lemma {:induction false} CleanHere(lower: Lower, root: Node, reading: Reading)
    requires Clean(lower, root, reading)
    ensures FieldsOk(lower, root, reading)
  {
    assert IsPath(root, []);
  }

  lemma {:induction false} CleanBelow(lower: Lower, root: Node, reading: Reading, i: nat)
    requires Clean(lower, root, reading) && i < Width(root)
    ensures Clean(lower, Child(root, i), ChildReading(lower, root, reading, i))
  {
    var child := Child(root, i);
    forall path | IsPath(child, path)
      ensures FieldsOk(lower, NodeAt(child, path), ReadingAt(lower, child, ChildReading(lower, root, reading, i), path))
    {
      var longer := [i] + path;
      assert longer[1..] == path;
      assert IsPath(root, longer);
    }
  }

  // ---- an allow-listed guardrail value holds nothing the walk would refuse

  const RECORD_FIELDS: set<string> :=
    { "timestamp", "request_id", "user_id", "team_id", "provider", "model", "latency_ms", "prompt_token_count",
      "completion_token_count", "redaction_count", "finding_label_counts", "cache_a_hit", "gateway_version", "status",
      "placeholder_list", "error_code", "block_reason", "corp_llm_latency_ms", "pre_pass_latency_ms",
      "audit_buffer_full", "profile_ids", "jurisdiction" }

  /** Case folding leaves the schema's own names as they are. */
  ghost predicate Sane(lower: Lower) {
    forall s :: s in GUARDRAIL_INFORMATION_KEYS + GUARDRAIL_RESPONSE_KEYS + RECORD_FIELDS ==> Normalize(lower, s) == s
  }

  lemma {:induction false} LeafClean(lower: Lower, node: Node, reading: Reading)
    requires Width(node) == 0
    ensures Clean(lower, node, reading)
  {
    CleanFromParts(lower, node, reading);
  }

  lemma {:induction false} LabelCountsClean(lower: Lower, node: Node)
    requires LabelCounts(node)
    ensures Clean(lower, node, Data)
  {
    forall i | 0 <= i < Width(node)
      ensures Clean(lower, Child(node, i), ChildReading(lower, node, Data, i))
    {
      assert IsCount(node.entries[i].1);
      LeafClean(lower, node.entries[i].1, Schema);
    }
    CleanFromParts(lower, node, Data);
  }

  /** The names of the schema are no names the gate looks for, but for the data-keyed one. */
  ghost predicate Apart(name: string) {
    && name !in NEVER_FIELDS && name !in GUARDRAIL_INFORMATION_FIELDS
    && (name in DATA_KEYED_FIELDS <==> name == "finding_label_counts")
  }

  lemma {:induction false} EntryNamesApart()
    ensures forall name :: name in GUARDRAIL_INFORMATION_KEYS ==> Apart(name)
  {
  }

  lemma {:induction false} ResponseNamesApart()
    ensures forall name :: name in GUARDRAIL_RESPONSE_KEYS ==> Apart(name)
  {
  }

  lemma {:induction false} RecordNamesApart()
    ensures forall name :: name in RECORD_FIELDS ==> Apart(name)
  {
  }

  /** A field under one of the schema's names passes, and its value is read as that name says. */
  lemma {:induction false} SchemaField(lower: Lower, name: string, value: Node)
    requires Sane(lower) && name in GUARDRAIL_INFORMATION_KEYS + GUARDRAIL_RESPONSE_KEYS + RECORD_FIELDS
    ensures FieldOk(lower, Name(name), value)
    ensures EntryReading(lower, Name(name)) == if name == "finding_label_counts" then Data else Schema
  {
    EntryNamesApart();
    ResponseNamesApart();
    RecordNamesApart();
    assert Apart(name);
  }

  lemma {:induction false} DictClean(lower: Lower, node: Node)
    requires node.Dict?
    requires forall i :: 0 <= i < |node.entries| ==> CleanField(lower, node.entries[i].0, node.entries[i].1)
    ensures Clean(lower, node, Schema)
  {
    forall i | 0 <= i < Width(node)
      ensures Clean(lower, Child(node, i), ChildReading(lower, node, Schema, i))
    {
      assert CleanField(lower, node.entries[i].0, node.entries[i].1);
    }
    CleanFromParts(lower, node, Schema);
  }

  ghost predicate CleanField(lower: Lower, key: Key, value: Node) {
    FieldOk(lower, key, value) && Clean(lower, value, EntryReading(lower, key))
  }

  lemma {:induction false} ResponseFieldClean(lower: Lower, name: string, value: Node)
    requires Sane(lower) && name in GUARDRAIL_RESPONSE_KEYS && ResponseFieldOk(name, value)
    ensures CleanField(lower, Name(name), value)
  {
    SchemaField(lower, name, value);
    if name == "finding_label_counts" {
      LabelCountsClean(lower, value);
    } else {
      LeafClean(lower, value, Schema);
    }
  }

  lemma {:induction false} ResponseClean(lower: Lower, response: Node)
    requires Sane(lower) && ResponseOk(response)
    ensures Clean(lower, response, Schema)
  {
    forall i | 0 <= i < |response.entries|
      ensures CleanField(lower, response.entries[i].0, response.entries[i].1)
    {
      ResponseFieldClean(lower, response.entries[i].0.name, response.entries[i].1);
    }
    DictClean(lower, response);
  }

  lemma {:induction false} OtherFieldsAreLeaves(name: string, value: Node)
    requires name != "guardrail_response" && EntryFieldOk(name, value)
    ensures Width(value) == 0
  {
  }

  lemma {:induction false} EntryNameReading(lower: Lower, name: string)
    requires Sane(lower) && name in GUARDRAIL_INFORMATION_KEYS
    ensures EntryReading(lower, Name(name)) == Schema
  {
    EntryNamesApart();
    assert Apart(name);
  }

  lemma {:induction false} EntryFieldClean(lower: Lower, name: string, value: Node)
    requires Sane(lower) && name in GUARDRAIL_INFORMATION_KEYS && EntryFieldOk(name, value)
    ensures CleanField(lower, Name(name), value)
  {
    SchemaField(lower, name, value);
    EntryNameReading(lower, name);
    if name == "guardrail_response" {
      ResponseClean(lower, value);
    } else {
      OtherFieldsAreLeaves(name, value);
      LeafClean(lower, value, Schema);
    }
  }

  lemma {:induction false} EntryClean(lower: Lower, entry: Node)
    requires Sane(lower) && EntryOk(entry)
    ensures Clean(lower, entry, Schema)
  {
    forall i | 0 <= i < |entry.entries|
      ensures CleanField(lower, entry.entries[i].0, entry.entries[i].1)
    {
      EntryFieldClean(lower, entry.entries[i].0.name, entry.entries[i].1);
    }
    DictClean(lower, entry);
  }

  lemma {:induction false} EntriesOkAt(entries: seq<Node>, i: nat, j: nat)
    requires i <= j < |entries| && EntriesOk(entries, i)
    ensures EntryOk(entries[j])
    decreases j - i
  {
    if i < j {
      EntriesOkAt(entries, i + 1, j);
    }
  }

  lemma {:induction false} GuardrailValueClean(lower: Lower, value: Node)
    requires Sane(lower) && GuardrailValueOk(value)
    ensures Clean(lower, value, Schema)
  {
    if value.Dict? {
      EntryClean(lower, value);
    } else if value.List? {
      forall i | 0 <= i < Width(value)
        ensures Clean(lower, Child(value, i), Schema)
      {
        EntriesOkAt(value.items, 0, i);
        EntryClean(lower, value.items[i]);
      }
      CleanFromParts(lower, value, Schema);
    } else {
      LeafClean(lower, value, Schema);
    }
  }

  // ---- the walk agrees with the definition by paths

  lemma {:induction false} EntriesPass(lower: Lower, node: Node, i: nat)
    requires node.Dict? && i <= |node.entries|
    ensures WalkEntries(lower, node, i).Passed? <==>
      forall j :: i <= j < |node.entries| ==> WalkEntry(lower, node.entries[j].0, node.entries[j].1).Passed?
    decreases |node.entries| - i
  {
    if i < |node.entries| {
      EntriesPass(lower, node, i + 1);
    }
  }

  lemma {:induction false} ValuesPass(lower: Lower, node: Node, i: nat)
    requires node.Dict? && i <= |node.entries|
    ensures WalkValues(lower, node, i).Passed? <==>
      forall j :: i <= j < |node.entries| ==> Walk(lower, node.entries[j].1).Passed?
    decreases |node.entries| - i
  {
    if i < |node.entries| {
      ValuesPass(lower, node, i + 1);
    }
  }

  lemma {:induction false} ItemsPass(lower: Lower, node: Node, i: nat)
    requires (node.List? || node.Tuple?) && i <= |node.items|
    ensures WalkItems(lower, node, i).Passed? <==>
      forall j :: i <= j < |node.items| ==> Walk(lower, node.items[j]).Passed?
    decreases |node.items| - i
  {
    if i < |node.items| {
      ItemsPass(lower, node, i + 1);
    }
  }

  lemma {:induction false} CleanByParts(lower: Lower, root: Node, reading: Reading)
    ensures Clean(lower, root, reading) <==>
      FieldsOk(lower, root, reading) &&
      forall i :: 0 <= i < Width(root) ==> Clean(lower, Child(root, i), ChildReading(lower, root, reading, i))
  {
    if Clean(lower, root, reading) {
      CleanHere(lower, root, reading);
      forall i | 0 <= i < Width(root)
        ensures Clean(lower, Child(root, i), ChildReading(lower, root, reading, i))
      {
        CleanBelow(lower, root, reading, i);
      }
    } else if FieldsOk(lower, root, reading) && forall i :: 0 <= i < Width(root) ==>
      Clean(lower, Child(root, i), ChildReading(lower, root, reading, i)) {
      CleanFromParts(lower, root, reading);
    }
  }

  lemma {:induction false} CleanItems(lower: Lower, node: Node, reading: Reading)
    requires node.List? || node.Tuple?
    ensures Clean(lower, node, reading) <==> forall i :: 0 <= i < |node.items| ==> Clean(lower, node.items[i], Schema)
  {
    CleanByParts(lower, node, reading);
    assert forall i :: 0 <= i < |node.items| ==>
      Child(node, i) == node.items[i] && ChildReading(lower, node, reading, i) == Schema;
  }

  lemma {:induction false} CleanEntries(lower: Lower, node: Node)
    requires node.Dict?
    ensures Clean(lower, node, Schema) <==>
      forall i :: 0 <= i < |node.entries| ==> CleanField(lower, node.entries[i].0, node.entries[i].1)
  {
    CleanByParts(lower, node, Schema);
    assert forall i :: 0 <= i < |node.entries| ==>
      Child(node, i) == node.entries[i].1
        && ChildReading(lower, node, Schema, i) == EntryReading(lower, node.entries[i].0);
  }

  lemma {:induction false} CleanValues(lower: Lower, node: Node)
    requires node.Dict?
    ensures Clean(lower, node, Data) <==>
      forall i :: 0 <= i < |node.entries| ==> Clean(lower, node.entries[i].1, Schema)
  {
    CleanByParts(lower, node, Data);
    assert forall i :: 0 <= i < |node.entries| ==>
      Child(node, i) == node.entries[i].1 && ChildReading(lower, node, Data, i) == Schema;
  }

  /** The walk passes a record exactly when no field that may never be recorded is a field name
      anywhere in it, and every guardrail field in it holds an allow-listed value. */
  lemma {:induction false} WalkAgrees(lower: Lower, node: Node)
    requires Sane(lower)
    ensures Walk(lower, node).Passed? <==> Clean(lower, node, Schema)
    decreases node, 1
  {
    if node.Dict? {
      EntriesPass(lower, node, 0);
      CleanEntries(lower, node);
      forall j | 0 <= j < |node.entries|
        ensures WalkEntry(lower, node.entries[j].0, node.entries[j].1).Passed? <==>
          CleanField(lower, node.entries[j].0, node.entries[j].1)
      {
        EntryAgrees(lower, node.entries[j].0, node.entries[j].1);
      }
    } else if node.List? || node.Tuple? {
      ItemsAgree(lower, node, Schema);
    } else {
      LeafClean(lower, node, Schema);
    }
  }

  lemma {:induction false} ItemsAgree(lower: Lower, node: Node, reading: Reading)
    requires Sane(lower) && (node.List? || node.Tuple?)
    ensures WalkItems(lower, node, 0).Passed? <==> Clean(lower, node, reading)
    decreases node, 0
  {
    ItemsPass(lower, node, 0);
    CleanItems(lower, node, reading);
    forall j | 0 <= j < |node.items|
      ensures Walk(lower, node.items[j]).Passed? <==> Clean(lower, node.items[j], Schema)
    {
      WalkAgrees(lower, node.items[j]);
    }
  }

  lemma {:induction false} ValuesAgree(lower: Lower, node: Node)
    requires Sane(lower)
    ensures WalkValuesOnly(lower, node).Passed? <==> Clean(lower, node, Data)
    decreases node, 1
  {
    if node.Dict? {
      ValuesPass(lower, node, 0);
      CleanValues(lower, node);
      forall j | 0 <= j < |node.entries|
        ensures Walk(lower, node.entries[j].1).Passed? <==> Clean(lower, node.entries[j].1, Schema)
      {
        WalkAgrees(lower, node.entries[j].1);
      }
    } else if node.List? || node.Tuple? {
      ItemsAgree(lower, node, Data);
    } else {
      LeafClean(lower, node, Data);
    }
  }

  lemma {:induction false} GuardrailEntryAgrees(lower: Lower, entry: Node)
    requires Sane(lower)
    ensures CheckGuardrailEntry(lower, entry).Passed? <==> EntryOk(entry)
    decreases entry, 2
  {
    if EntryOk(entry) {
      EntryClean(lower, entry);
      WalkAgrees(lower, entry);
    }
  }

  lemma {:induction false} GuardrailEntriesAgree(lower: Lower, list: Node, i: nat)
    requires Sane(lower) && list.List? && i <= |list.items|
    ensures CheckGuardrailEntries(lower, list, i).Passed? <==> EntriesOk(list.items, i)
    decreases list, 2, |list.items| - i
  {
    if i < |list.items| {
      GuardrailEntryAgrees(lower, list.items[i]);
      GuardrailEntriesAgree(lower, list, i + 1);
    }
  }

  /** The check of a guardrail field lets through what the allow-list says, no less: the walk
      it starts with refuses nothing that is on the list. */
  lemma {:induction false} GuardrailAgrees(lower: Lower, value: Node)
    requires Sane(lower)
    ensures CheckGuardrail(lower, value).Passed? <==> GuardrailValueOk(value)
    decreases value, 3
  {
    if value.List? {
      GuardrailEntriesAgree(lower, value, 0);
    } else if !value.Null? {
      GuardrailEntryAgrees(lower, value);
    }
  }

  lemma {:induction false} EntryAgrees(lower: Lower, key: Key, value: Node)
    requires Sane(lower)
    ensures WalkEntry(lower, key, value).Passed? <==> CleanField(lower, key, value)
    decreases value, 4
  {
    if key.Name? && Normalize(lower, key.name) in DATA_KEYED_FIELDS {
      ValuesAgree(lower, value);
      RecordNamesApart();
    } else if key.Name? && Normalize(lower, key.name) in NEVER_FIELDS {
    } else if key.Name? && Normalize(lower, key.name) in GUARDRAIL_INFORMATION_FIELDS {
      GuardrailAgrees(lower, value);
      if GuardrailValueOk(value) {
        GuardrailValueClean(lower, value);
      }
    } else {
      WalkAgrees(lower, value);
    }
  }

  // ---- the key the walk names is there

  /** `key`, a name that may never be recorded, is read as a field name at `path`. */
  predicate OccursAt(lower: Lower, root: Node, reading: Reading, path: seq<nat>, i: nat, key: string) {
    && IsPath(root, path) && ReadingAt(lower, root, reading, path).Schema?
    && NodeAt(root, path).Dict? && i < |NodeAt(root, path).entries|
    && NodeAt(root, path).entries[i].0 == Name(key) && Normalize(lower, key) in NEVER_FIELDS
  }

  ghost predicate Occurs(lower: Lower, root: Node, reading: Reading, key: string) {
    exists path, i :: OccursAt(lower, root, reading, path, i, key)
  }

  lemma {:induction false} OccursBelow(lower: Lower, root: Node, reading: Reading, c: nat, key: string)
    requires c < Width(root) && Occurs(lower, Child(root, c), ChildReading(lower, root, reading, c), key)
    ensures Occurs(lower, root, reading, key)
  {
    var path, i :| OccursAt(lower, Child(root, c), ChildReading(lower, root, reading, c), path, i, key);
    assert ([c] + path)[1..] == path;
    assert OccursAt(lower, root, reading, [c] + path, i, key);
  }

  /** A record refused for a key that may never be recorded holds that key as a field name. */
  lemma {:induction false} WalkNamesTheKey(lower: Lower, node: Node, key: string)
    requires Walk(lower, node) == NeverKey(key)
    ensures Occurs(lower, node, Schema, key)
    decreases node, 1, 0
  {
    if node.Dict? {
      EntriesNameTheKey(lower, node, 0, key);
    } else {
      ItemsNameTheKey(lower, node, Schema, 0, key);
    }
  }

  lemma {:induction false} EntriesNameTheKey(lower: Lower, node: Node, i: nat, key: string)
    requires node.Dict? && i <= |node.entries| && WalkEntries(lower, node, i) == NeverKey(key)
    ensures Occurs(lower, node, Schema, key)
    decreases node, 0, |node.entries| - i
  {
    var (k, v) := node.entries[i];
    if WalkEntry(lower, k, v).Passed? {
      EntriesNameTheKey(lower, node, i + 1, key);
    } else if k.Name? && EntryReading(lower, k).Schema? && Normalize(lower, k.name) in NEVER_FIELDS {
      assert OccursAt(lower, node, Schema, [], i, key);
    } else {
      EntryNamesTheKey(lower, k, v, key);
      OccursBelow(lower, node, Schema, i, key);
    }
  }

  lemma {:induction false} EntryNamesTheKey(lower: Lower, k: Key, v: Node, key: string)
    requires WalkEntry(lower, k, v) == NeverKey(key)
    requires k.Name? && EntryReading(lower, k).Schema? ==> Normalize(lower, k.name) !in NEVER_FIELDS
    ensures Occurs(lower, v, EntryReading(lower, k), key)
    decreases v, 3, 0
  {
    if k.Name? && Normalize(lower, k.name) in DATA_KEYED_FIELDS {
      if v.Dict? {
        ValuesNameTheKey(lower, v, 0, key);
      } else {
        ItemsNameTheKey(lower, v, Data, 0, key);
      }
    } else if k.Name? && Normalize(lower, k.name) in GUARDRAIL_INFORMATION_FIELDS {
      if v.List? {
        GuardrailNamesTheKey(lower, v, 0, key);
      } else {
        assert CheckGuardrail(lower, v) == CheckGuardrailEntry(lower, v);
        WalkNamesTheKey(lower, v, key);
      }
    } else {
      WalkNamesTheKey(lower, v, key);
    }
  }

  lemma {:induction false} ValuesNameTheKey(lower: Lower, node: Node, i: nat, key: string)
    requires node.Dict? && i <= |node.entries| && WalkValues(lower, node, i) == NeverKey(key)
    ensures Occurs(lower, node, Data, key)
    decreases node, 0, |node.entries| - i
  {
    if Walk(lower, node.entries[i].1).Passed? {
      ValuesNameTheKey(lower, node, i + 1, key);
    } else {
      WalkNamesTheKey(lower, node.entries[i].1, key);
      OccursBelow(lower, node, Data, i, key);
    }
  }

  lemma {:induction false} ItemsNameTheKey(lower: Lower, node: Node, reading: Reading, i: nat, key: string)
    requires (node.List? || node.Tuple?) && i <= |node.items| && WalkItems(lower, node, i) == NeverKey(key)
    ensures Occurs(lower, node, reading, key)
    decreases node, 0, |node.items| - i
  {
    if Walk(lower, node.items[i]).Passed? {
      ItemsNameTheKey(lower, node, reading, i + 1, key);
    } else {
      WalkNamesTheKey(lower, node.items[i], key);
      OccursBelow(lower, node, reading, i, key);
    }
  }

  lemma {:induction false} GuardrailNamesTheKey(lower: Lower, list: Node, i: nat, key: string)
    requires list.List? && i <= |list.items| && CheckGuardrailEntries(lower, list, i) == NeverKey(key)
    ensures Occurs(lower, list, Schema, key)
    decreases list, 0, |list.items| - i
  {
    if CheckGuardrailEntry(lower, list.items[i]).Passed? {
      GuardrailNamesTheKey(lower, list, i + 1, key);
    } else {
      WalkNamesTheKey(lower, list.items[i], key);
      OccursBelow(lower, list, Schema, i, key);
    }
  }

  /** The key spells the name, in any case and with hyphens for underscores. */
  predicate Spells(lower: Lower, key: string, name: string) {
    && |lower(key)| == |name|
    && forall i :: 0 <= i < |name| ==> lower(key)[i] == name[i] || (name[i] == '_' && lower(key)[i] == '-')
  }

  /** However it is spelled, a field that may never be recorded is refused, and named. */
  lemma {:induction false} EverySpellingIsRefused(lower: Lower, key: string, name: string, value: Node)
    requires name in NEVER_FIELDS && Spells(lower, key, name)
    ensures Walk(lower, Dict([(Name(key), value)])) == NeverKey(key)
  {
    NoHyphens(name);
    SpelledIsNormal(lower, key, name);
    NeverNamesApart(name);
    var node := Dict([(Name(key), value)]);
    assert WalkEntry(lower, Name(key), value) == NeverKey(key);
    assert WalkEntries(lower, node, 0) == NeverKey(key);
  }

  lemma {:induction false} NoHyphens(name: string)
    requires name in NEVER_FIELDS
    ensures '-' !in name
  {
  }

  lemma {:induction false} NeverNamesApart(name: string)
    requires name in NEVER_FIELDS
    ensures name !in DATA_KEYED_FIELDS && name !in GUARDRAIL_INFORMATION_FIELDS
  {
  }

  lemma {:induction false} SpelledIsNormal(lower: Lower, key: string, name: string)
    requires Spells(lower, key, name) && '-' !in name
    ensures Normalize(lower, key) == name
  {
    assert forall i :: 0 <= i < |name| ==> name[i] in name;
  }

  // ---- what the logger serialises

  datatype AuditEvent = AuditEvent(
    timestamp: string, requestId: string, userId: string, teamId: string, provider: string, model: string,
    latencyMs: int, promptTokens: int, completionTokens: int, redactionCount: int,
    findingLabelCounts: seq<(string, int)>, cacheAHit: bool, status: string,
    placeholders: Option<seq<string>>, errorCode: Option<string>, blockReason: Option<string>,
    corpLlmLatencyMs: Option<int>, prePassLatencyMs: Option<int>, auditBufferFull: Option<bool>,
    profileIds: seq<string>, jurisdiction: Option<string>)

  type Fields = seq<(Key, Node)>

  function Strings(ss: seq<string>): Node { List(seq(|ss|, i requires 0 <= i < |ss| => Str(ss[i]))) }

  function Counts(counts: seq<(string, int)>): Node {
    Dict(seq(|counts|, i requires 0 <= i < |counts| => (Name(counts[i].0), Int(counts[i].1))))
  }

  function StringNode(s: Option<string>): Node { if s.None? then Null else Str(s.value) }
  function IntNode(n: Option<int>): Node { if n.None? then Null else Int(n.value) }
  function BoolNode(b: Option<bool>): Node { if b.None? then Null else Bool(b.value) }

  function Identity(e: AuditEvent): Fields {
    [ (Name("timestamp"), Str(e.timestamp)), (Name("request_id"), Str(e.requestId)), (Name("user_id"), Str(e.userId)),
      (Name("team_id"), Str(e.teamId)), (Name("provider"), Str(e.provider)), (Name("model"), Str(e.model)) ]
  }

  function Measures(e: AuditEvent): Fields {
    [ (Name("latency_ms"), Int(e.latencyMs)), (Name("prompt_token_count"), Int(e.promptTokens)),
      (Name("completion_token_count"), Int(e.completionTokens)), (Name("redaction_count"), Int(e.redactionCount)),
      (Name("finding_label_counts"), Counts(e.findingLabelCounts)) ]
  }

  function State(e: AuditEvent, version: string): Fields {
    [ (Name("cache_a_hit"), Bool(e.cacheAHit)), (Name("gateway_version"), Str(version)),
      (Name("status"), Str(e.status)) ]
  }

  /** The conditional fields, null where they are not set. */
  function Reasons(e: AuditEvent): Fields {
    [ (Name("placeholder_list"), if e.placeholders.None? then Null else Strings(e.placeholders.value)),
      (Name("error_code"), StringNode(e.errorCode)), (Name("block_reason"), StringNode(e.blockReason)),
      (Name("corp_llm_latency_ms"), IntNode(e.corpLlmLatencyMs)) ]
  }

  function Circumstances(e: AuditEvent): Fields {
    [ (Name("pre_pass_latency_ms"), IntNode(e.prePassLatencyMs)),
      (Name("audit_buffer_full"), BoolNode(e.auditBufferFull)),
      (Name("profile_ids"), if e.profileIds == [] then Null else Strings(e.profileIds)),
      (Name("jurisdiction"), StringNode(e.jurisdiction)) ]
  }

  function SetOnly(fields: Fields): Fields {
    if fields == [] then []
    else (if fields[0].1.Null? then [] else [fields[0]]) + SetOnly(fields[1..])
  }

  function Serialize(e: AuditEvent, version: string): Node {
    Dict(Identity(e) + Measures(e) + State(e, version) + SetOnly(Reasons(e) + Circumstances(e)))
  }

  /** A field of the record schema, and a value such a field may have. */
  ghost predicate RecordField(key: Key, value: Node) {
    && key.Name? && key.name in RECORD_FIELDS
    && if key.name == "finding_label_counts" then value.Dict? && Flat(value) else !value.Dict? && Flat(value)
  }

  predicate Flat(value: Node) {
    forall i :: 0 <= i < Width(value) ==> Width(Child(value, i)) == 0
  }

  ghost predicate RecordFields(fields: Fields) {
    forall i :: 0 <= i < |fields| ==> RecordField(fields[i].0, fields[i].1)
  }

  lemma {:induction false} FlatClean(lower: Lower, value: Node, reading: Reading)
    requires Flat(value) && (value.Dict? ==> reading.Data?)
    ensures Clean(lower, value, reading)
  {
    forall i | 0 <= i < Width(value)
      ensures Clean(lower, Child(value, i), ChildReading(lower, value, reading, i))
    {
      LeafClean(lower, Child(value, i), ChildReading(lower, value, reading, i));
    }
    CleanFromParts(lower, value, reading);
  }

  lemma {:induction false} RecordFieldClean(lower: Lower, key: Key, value: Node)
    requires Sane(lower) && RecordField(key, value)
    ensures CleanField(lower, key, value)
  {
    SchemaField(lower, key.name, value);
    FlatClean(lower, value, EntryReading(lower, key));
  }

  lemma {:induction false} RecordClean(lower: Lower, fields: Fields)
    requires Sane(lower) && RecordFields(fields)
    ensures Clean(lower, Dict(fields), Schema)
  {
    forall i | 0 <= i < |fields|
      ensures CleanField(lower, fields[i].0, fields[i].1)
    {
      RecordFieldClean(lower, fields[i].0, fields[i].1);
    }
    DictClean(lower, Dict(fields));
  }

  lemma {:induction false} AlwaysFields(e: AuditEvent, version: string)
    ensures RecordFields(Identity(e)) && RecordFields(Measures(e)) && RecordFields(State(e, version))
  {
  }

  lemma {:induction false} ConditionalFields(e: AuditEvent)
    ensures RecordFields(Reasons(e)) && RecordFields(Circumstances(e))
  {
  }

  lemma {:induction false} SetOnlyKeeps(fields: Fields)
    requires RecordFields(fields)
    ensures RecordFields(SetOnly(fields))
  {
    if fields != [] {
      SetOnlyKeeps(fields[1..]);
    }
  }

  /** The gate passes whatever the logger serialises, whatever the labels, texts and numbers. */
  lemma {:induction false} SerializedEventPasses(lower: Lower, e: AuditEvent, version: string)
    requires Sane(lower)
    ensures Walk(lower, Serialize(e, version)).Passed?
  {
    AlwaysFields(e, version);
    ConditionalFields(e);
    SetOnlyKeeps(Reasons(e) + Circumstances(e));
    RecordClean(lower, Serialize(e, version).entries);
    WalkAgrees(lower, Serialize(e, version));
  }

  // ---- and what it says

  /** What the event holds under each name: this and no other field is set. */
  function FieldOf(e: AuditEvent, version: string, name: string): Node {
    match name
    case "timestamp" => Str(e.timestamp)
    case "request_id" => Str(e.requestId)
    case "user_id" => Str(e.userId)
    case "team_id" => Str(e.teamId)
    case "provider" => Str(e.provider)
    case "model" => Str(e.model)
    case "latency_ms" => Int(e.latencyMs)
    case "prompt_token_count" => Int(e.promptTokens)
    case "completion_token_count" => Int(e.completionTokens)
    case "redaction_count" => Int(e.redactionCount)
    case "finding_label_counts" => Counts(e.findingLabelCounts)
    case "cache_a_hit" => Bool(e.cacheAHit)
    case "gateway_version" => Str(version)
    case "status" => Str(e.status)
    case "placeholder_list" => if e.placeholders.None? then Null else Strings(e.placeholders.value)
    case "error_code" => StringNode(e.errorCode)
    case "block_reason" => StringNode(e.blockReason)
    case "corp_llm_latency_ms" => IntNode(e.corpLlmLatencyMs)
    case "pre_pass_latency_ms" => IntNode(e.prePassLatencyMs)
    case "audit_buffer_full" => BoolNode(e.auditBufferFull)
    case "profile_ids" => if e.profileIds == [] then Null else Strings(e.profileIds)
    case "jurisdiction" => StringNode(e.jurisdiction)
    case _ => Null
  }

  ghost predicate Says(e: AuditEvent, version: string, fields: Fields) {
    && (forall i :: 0 <= i < |fields| ==> fields[i].0.Name? && fields[i].1 == FieldOf(e, version, fields[i].0.name))
    && (forall i, j :: 0 <= i < j < |fields| ==> fields[i].0 != fields[j].0)
  }

  lemma {:induction false} IdentitySays(e: AuditEvent, version: string)
    ensures Says(e, version, Identity(e)) && Says(e, version, State(e, version))
  {
  }

  lemma {:induction false} MeasuresSay(e: AuditEvent, version: string)
    ensures Says(e, version, Measures(e))
  {
  }

  lemma {:induction false} ReasonsSay(e: AuditEvent, version: string)
    ensures Says(e, version, Reasons(e))
  {
  }

  lemma {:induction false} CircumstancesSay(e: AuditEvent, version: string)
    ensures Says(e, version, Circumstances(e))
  {
  }

  lemma {:induction false} BothSay(e: AuditEvent, version: string, a: Fields, b: Fields)
    requires Says(e, version, a) && Says(e, version, b)
    requires forall i, j :: 0 <= i < |a| && 0 <= j < |b| ==> a[i].0 != b[j].0
    ensures Says(e, version, a + b)
  {
  }

  ghost predicate Has(fields: Fields, name: string) {
    exists i :: 0 <= i < |fields| && fields[i].0 == Name(name)
  }

  lemma {:induction false} SaysGet(e: AuditEvent, version: string, fields: Fields, name: string)
    requires Says(e, version, fields)
    ensures Get(fields, name) == if Has(fields, name) then Some(FieldOf(e, version, name)) else None
  {
    if Has(fields, name) {
      var i :| 0 <= i < |fields| && fields[i].0 == Name(name);
      GetAt(fields, name, i);
    } else {
      GetMissing(fields, name);
    }
  }

  lemma {:induction false} SetOnlyGets(e: AuditEvent, version: string, fields: Fields, name: string)
    requires Says(e, version, fields)
    ensures Get(SetOnly(fields), name) ==
      if Has(fields, name) && !FieldOf(e, version, name).Null? then Some(FieldOf(e, version, name)) else None
  {
    if fields != [] {
      SetOnlyGets(e, version, fields[1..], name);
      GetOfTwo(if fields[0].1.Null? then [] else [fields[0]], SetOnly(fields[1..]), name);
      assert Has(fields, name) <==> fields[0].0 == Name(name) || Has(fields[1..], name) by {
        if Has(fields, name) {
          var i :| 0 <= i < |fields| && fields[i].0 == Name(name);
          assert i > 0 ==> fields[1..][i - 1].0 == Name(name);
        }
        if Has(fields[1..], name) {
          var i :| 0 <= i < |fields[1..]| && fields[1..][i].0 == Name(name);
          assert fields[i + 1].0 == Name(name);
        }
      }
    }
  }

  lemma {:induction false} NamedSomewhere(e: AuditEvent, version: string, name: string)
    requires !FieldOf(e, version, name).Null?
    ensures Has(Identity(e), name) || Has(Measures(e), name) || Has(State(e, version), name)
            || Has(Reasons(e) + Circumstances(e), name)
  {
    var a, b, c, d := Identity(e), Measures(e), State(e, version), Reasons(e) + Circumstances(e);
    assert a[0].0 == Name("timestamp") && a[1].0 == Name("request_id") && a[2].0 == Name("user_id");
    assert a[3].0 == Name("team_id") && a[4].0 == Name("provider") && a[5].0 == Name("model");
    assert b[0].0 == Name("latency_ms") && b[1].0 == Name("prompt_token_count");
    assert b[2].0 == Name("completion_token_count") && b[3].0 == Name("redaction_count");
    assert b[4].0 == Name("finding_label_counts");
    assert c[0].0 == Name("cache_a_hit") && c[1].0 == Name("gateway_version") && c[2].0 == Name("status");
    assert d[0].0 == Name("placeholder_list") && d[1].0 == Name("error_code") && d[2].0 == Name("block_reason");
    assert d[3].0 == Name("corp_llm_latency_ms") && d[4].0 == Name("pre_pass_latency_ms");
    assert d[5].0 == Name("audit_buffer_full") && d[6].0 == Name("profile_ids") && d[7].0 == Name("jurisdiction");
  }

  lemma {:induction false} AlwaysSet(e: AuditEvent, version: string, name: string)
    requires FieldOf(e, version, name).Null?
    ensures !Has(Identity(e), name) && !Has(Measures(e), name) && !Has(State(e, version), name)
  {
  }

  /** Every field of the event that is set is read back from the record under its name, and the
      record holds no other. */
  lemma {:induction false} SerializedFieldIsRead(e: AuditEvent, version: string, name: string)
    ensures var value := FieldOf(e, version, name);
            Get(Serialize(e, version).entries, name) == if value.Null? then None else Some(value)
  {
    var a, b, c, d := Identity(e), Measures(e), State(e, version), Reasons(e) + Circumstances(e);
    IdentitySays(e, version);
    MeasuresSay(e, version);
    ReasonsSay(e, version);
    CircumstancesSay(e, version);
    BothSay(e, version, Reasons(e), Circumstances(e));
    SaysGet(e, version, a, name);
    SaysGet(e, version, b, name);
    SaysGet(e, version, c, name);
    SetOnlyGets(e, version, d, name);
    GetOfTwo(a, b, name);
    GetOfTwo(a + b, c, name);
    GetOfTwo(a + b + c, SetOnly(d), name);
    if FieldOf(e, version, name).Null? {
      AlwaysSet(e, version, name);
    } else {
      NamedSomewhere(e, version, name);
    }
  }
}
