/** The reshaping the control-plane tools apply to each element of a response:
    a fixed table of renamings from the remote API's camelCase keys to the
    tool's snake_case keys, each with its own default. */
module Reshape {
  import opened Results
  import opened Assoc
  import opened Json
  import opened Errors
  import opened PyValue

  /** One line of a reshaping table: the key written, the key read, and the
      value written when the key read is absent. */
  datatype FieldRule = FieldRule(target: string, source: string, fallback: Json)

  function Targets(rules: seq<FieldRule>): seq<string>
  {
    seq(|rules|, i requires 0 <= i < |rules| => rules[i].target)
  }

  /** No key is written twice: the formatted value is a well-formed dict. */
  predicate DistinctTargets(rules: seq<FieldRule>)
  {
    forall i, j :: 0 <= i < j < |rules| ==> rules[i].target != rules[j].target
  }

  /** `{rule.target: item.get(rule.source, rule.fallback) for rule in rules}`.
      Every table is non-empty, so an item that is not a dict fails on the first
      `get`. */
  function FormatRecord(item: Json, rules: seq<FieldRule>): (r: Result<Json, Error>)
    ensures r.Ok? <==> item.JObj?
    ensures r.Ok? ==> r.value.JObj? && Keys(r.value.members) == Targets(rules)
    ensures r.Err? ==> r.error == NoGet(item)
  {
    match item
    case JObj(ms) =>
      var out := seq(|rules|, i requires 0 <= i < |rules| =>
        (rules[i].target, GetOr(ms, rules[i].source, rules[i].fallback)));
      assert Keys(out) == Targets(rules);
      Ok(JObj(out))
    case _ => Err(NoGet(item))
  }

  /** `record` has exactly the table's keys, in order, and each holds what the
      source had under the renamed key, or the default when it had none. */
  predicate Renamed(record: Json, source: seq<(string, Json)>, rules: seq<FieldRule>)
  {
    && record.JObj?
    && Keys(record.members) == Targets(rules)
    && forall i :: 0 <= i < |rules| ==>
         Lookup(record.members, rules[i].target) == Some(GetOr(source, rules[i].source, rules[i].fallback))
  }

  /** A formatted dict has exactly the table's keys, with the renamed values. */
  lemma FormatRecordRenames(item: Json, rules: seq<FieldRule>)
    requires item.JObj?
    requires DistinctTargets(rules)
    ensures FormatRecord(item, rules).Ok?
    ensures Renamed(FormatRecord(item, rules).value, item.members, rules)
  {
    var ms := FormatRecord(item, rules).value.members;
    assert forall i :: 0 <= i < |ms| ==> ms[i].0 == rules[i].target;
    assert DistinctKeys(ms);
    forall i | 0 <= i < |rules|
      ensures Lookup(ms, rules[i].target) == Some(GetOr(item.members, rules[i].source, rules[i].fallback))
    {
      LookupAt(ms, i);
    }
  }

  /** `[format(item) for item in items]`, stopping at the first item that fails. */
  function FormatEach(items: seq<Json>, rules: seq<FieldRule>): (r: Result<seq<Json>, Error>)
    ensures r.Ok? <==> forall i :: 0 <= i < |items| ==> items[i].JObj?
    ensures r.Ok? ==> |r.value| == |items|
    ensures r.Ok? ==> forall i :: 0 <= i < |items| ==> FormatRecord(items[i], rules) == Ok(r.value[i])
    ensures r.Err? ==> exists i :: 0 <= i < |items| && !items[i].JObj?
                                   && (forall j :: 0 <= j < i ==> items[j].JObj?)
                                   && r.error == NoGet(items[i])
    decreases |items|
  {
    if |items| == 0 then Ok([])
    else
      var head :- FormatRecord(items[0], rules);
      var tail :- FormatEach(items[1..], rules);
      Ok([head] + tail)
  }
}
