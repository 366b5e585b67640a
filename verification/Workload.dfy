/** The two resolvers of an alert's workload: the action layer's (agents/action_execution.py,
    `_alert_workload`) and the verifier's (agents/verifier.py, `_resolve_operational_target`). */
module Workload {
  import opened Basics
  import opened Evidence

  const ALERT: string := "AtlasOpsOnlineBoutiqueDeploymentUnavailable"
  const TARGET_LABELS: seq<string> := ["deployment", "service", "app"]
  const SERVICES: set<string> := {
    "adservice", "cartservice", "checkoutservice", "currencyservice", "emailservice", "frontend", "loadgenerator",
    "paymentservice", "productcatalogservice", "recommendationservice", "redis-cart", "shippingservice"
  }

  predicate LowerAlnum(c: char) {
    'a' <= c <= 'z' || '0' <= c <= '9'
  }

  /** `_name`: at most 253 characters of `[a-z0-9](?:[-a-z0-9.]*[a-z0-9])?`. */
  predicate NameOk(s: string) {
    && 0 < |s| <= 253 && LowerAlnum(s[0]) && LowerAlnum(Last(s))
    && forall i :: 0 <= i < |s| ==> LowerAlnum(s[i]) || s[i] == '-' || s[i] == '.'
  }

  predicate Blank(c: char) {
    c in " \t\n\r"
  }

  /** `isinstance(value, str) and value and value == value.strip()`. Only blanks are stripped here:
      a label with other white space at its ends equals no alert, service or configured namespace,
      so either reading rejects the alert. */
  predicate LabelOk(v: Json) {
    v.String? && v.text != "" && !Blank(v.text[0]) && !Blank(Last(v.text))
  }

  // ---- the labels of an alert ----

  function ItemLabels(items: seq<Json>): Option<seq<Fields>> {
    if items == [] then Some([])
    else
      var rest := ItemLabels(items[..|items| - 1]);
      var labels := LabelsOf(Last(items));
      if rest.Some? && labels.Some? then Some(rest.value + [labels.value]) else None
  }

  function LabelsOf(item: Json): Option<Fields> {
    if item.Object? && Get(item.members, "labels", Null).Object?
    then Some(Get(item.members, "labels", Null).members) else None
  }

  /** The common labels followed by those of each individual alert. */
  function LabelSets(alert: Json): Option<seq<Fields>> {
    if !alert.Object? then None
    else
      var common := Get(alert.members, "commonLabels", Object(map[]));
      var items := Get(alert.members, "alerts", List([]));
      if !common.Object? || !items.List? || items.items == [] then None
      else match ItemLabels(items.items)
        case None => None
        case Some(labels) => Some([common.members] + labels)
  }

  ghost predicate HasLabels(item: Json, labels: Fields) {
    item.Object? && "labels" in item.members && item.members["labels"] == Object(labels)
  }

  /** What the label sets of an alert are: its common labels, possibly none, and those of each of its
      one or more individual alerts, in order. */
  ghost predicate Labelled(alert: Json, sets: seq<Fields>) {
    && alert.Object? && |sets| > 1
    && (if "commonLabels" in alert.members then alert.members["commonLabels"] == Object(sets[0]) else sets[0] == map[])
    && "alerts" in alert.members && alert.members["alerts"].List?
    && var items := alert.members["alerts"].items;
       |items| == |sets| - 1 && forall i :: 0 <= i < |items| ==> HasLabels(items[i], sets[i + 1])
  }

  ghost predicate AllLabels(items: seq<Json>, labels: seq<Fields>) {
    |items| == |labels| && forall i :: 0 <= i < |items| ==> HasLabels(items[i], labels[i])
  }

  lemma {:induction false} ItemLabelsAre(items: seq<Json>, labels: seq<Fields>)
    ensures ItemLabels(items) == Some(labels) <==> AllLabels(items, labels)
  {
    if items == [] {
      assert AllLabels(items, labels) <==> labels == [];
    } else {
      var init := items[..|items| - 1];
      if AllLabels(items, labels) {
        ItemLabelsAre(init, labels[..|labels| - 1]);
        assert labels == labels[..|labels| - 1] + [Last(labels)];
      }
      if ItemLabels(items) == Some(labels) {
        ItemLabelsAre(init, ItemLabels(init).value);
      }
    }
  }

  lemma LabelSetsAre(alert: Json, sets: seq<Fields>)
    ensures LabelSets(alert) == Some(sets) <==> Labelled(alert, sets)
  {
    if alert.Object? {
      var items := Get(alert.members, "alerts", List([]));
      if items.List? && sets != [] {
        ItemLabelsAre(items.items, sets[1..]);
        assert sets == [sets[0]] + sets[1..];
      }
    }
  }

  /** All values of the given labels, wherever they stand. */
  ghost function Values(sets: seq<Fields>, keys: seq<string>): iset<Json> {
    iset i, k | 0 <= i < |sets| && k in keys && k in sets[i] :: sets[i][k]
  }

  predicate Has(labels: Fields, keys: seq<string>) {
    exists k :: k in keys && k in labels
  }

  /** Every individual alert has one of the labels, itself or in common. */
  ghost predicate Covered(sets: seq<Fields>, keys: seq<string>)
    requires sets != []
  {
    forall i :: 1 <= i < |sets| ==> Has(sets[0], keys) || Has(sets[i], keys)
  }

  // ---- what each resolver accepts ----

  ghost predicate ActionResolves(alert: Json, configured: string, namespace: string, deployment: string) {
    && LabelSets(alert).Some?
    && var sets := LabelSets(alert).value;
       && Values(sets, ["alertname"]) == iset{String(ALERT)} && Covered(sets, ["alertname"])
       && Values(sets, TARGET_LABELS) == iset{String(deployment)} && Covered(sets, TARGET_LABELS)
       && Values(sets, ["namespace"]) == iset{String(namespace)} && Covered(sets, ["namespace"])
       && NameOk(deployment) && NameOk(namespace) && namespace == configured && deployment in SERVICES
  }

  /** The one value of the labels in one set: absent, or the same under every key. */
  ghost predicate Only(labels: Fields, keys: seq<string>, value: string) {
    forall k :: k in keys && k in labels ==> labels[k] == String(value)
  }

  /** Every set gives at most `value`, some set gives it, and the common or else each one does. */
  ghost predicate Agree(sets: seq<Fields>, keys: seq<string>, value: string)
    requires sets != []
  {
    && (forall i :: 0 <= i < |sets| ==> Only(sets[i], keys, value))
    && (exists i :: 0 <= i < |sets| && Has(sets[i], keys))
    && (Has(sets[0], keys) || forall i :: 1 <= i < |sets| ==> Has(sets[i], keys))
  }

  ghost predicate VerifierResolves(alert: Json, configured: string, deployment: string) {
    && LabelSets(alert).Some?
    && var sets := LabelSets(alert).value;
       && (forall i :: 1 <= i < |sets| ==> sets[i] != map[])
       && Agree(sets, ["alertname"], ALERT)
       && Agree(sets, TARGET_LABELS, deployment) && deployment in SERVICES
       && Agree(sets, ["namespace"], configured) && LabelOk(String(configured))
  }

  // ---- agreement ----

  lemma HasValue(sets: seq<Fields>, keys: seq<string>, i: nat)
    requires i < |sets| && Has(sets[i], keys)
    ensures Values(sets, keys) != iset{}
  {
    var k :| k in keys && k in sets[i];
    assert sets[i][k] in Values(sets, keys);
  }

  /** One common value and full cover is the same as agreement, when there is an individual alert. */
  lemma SameAgreement(sets: seq<Fields>, keys: seq<string>, value: string)
    requires |sets| > 1
    ensures Values(sets, keys) == iset{String(value)} && Covered(sets, keys) <==> Agree(sets, keys, value)
  {
    if Values(sets, keys) == iset{String(value)} && Covered(sets, keys) {
      forall i, k | 0 <= i < |sets| && k in keys && k in sets[i] ensures sets[i][k] == String(value) {
        assert sets[i][k] in Values(sets, keys);
      }
      assert Has(sets[0], keys) || Has(sets[1], keys);
    }
    if Agree(sets, keys, value) {
      var i :| 0 <= i < |sets| && Has(sets[i], keys);
      HasValue(sets, keys, i);
      forall x | x in Values(sets, keys) ensures x == String(value) {
        var j, k :| 0 <= j < |sets| && k in keys && k in sets[j] && x == sets[j][k];
        assert Only(sets[j], keys, value);
      }
      var x :| x in Values(sets, keys);
    }
  }

  lemma HasIndividuals(alert: Json)
    ensures LabelSets(alert).Some? ==> |LabelSets(alert).value| > 1
  {
  }

  lemma ServicesAreNames(s: string)
    requires s in SERVICES
    ensures NameOk(s)
  {
  }

  /** For a valid configured namespace the two resolvers differ in one thing only: the verifier
      also asks that no individual alert has an empty label map. Where it resolves an alert, the
      action layer resolves it to the same deployment and namespace. */
  lemma ResolversAgree(alert: Json, configured: string, deployment: string)
    requires NameOk(configured)
    ensures VerifierResolves(alert, configured, deployment) <==>
      && ActionResolves(alert, configured, configured, deployment)
      && forall i :: 1 <= i < |LabelSets(alert).value| ==> LabelSets(alert).value[i] != map[]
  {
    if LabelSets(alert).Some? {
      HasIndividuals(alert);
      SameAgreement(LabelSets(alert).value, ["alertname"], ALERT);
      SameAgreement(LabelSets(alert).value, TARGET_LABELS, deployment);
      SameAgreement(LabelSets(alert).value, ["namespace"], configured);
      NamesAreLabels(configured);
      if deployment in SERVICES { ServicesAreNames(deployment); }
    }
  }

  lemma NamesAreLabels(s: string)
    requires NameOk(s)
    ensures LabelOk(String(s))
  {
  }

  /** Each resolves an alert to at most one workload. */
  lemma WorkloadIsUnique(alert: Json, configured: string, namespace: string, deployment: string,
                         namespace': string, deployment': string)
    requires ActionResolves(alert, configured, namespace, deployment)
    requires ActionResolves(alert, configured, namespace', deployment')
    ensures namespace == namespace' && deployment == deployment'
  {
  }

  // ---- the resolvers ----

  method CollectLabels(alert: Json) returns (r: Option<seq<Fields>>)
    ensures r == LabelSets(alert)
  {
    if !alert.Object? {
      return None;
    }
    var common := Get(alert.members, "commonLabels", Object(map[]));
    var items := Get(alert.members, "alerts", List([]));
    if !common.Object? || !items.List? || items.items == [] {
      return None;
    }
    var labels := [];
    var i := 0;
    while i < |items.items|
      invariant 0 <= i <= |items.items| && ItemLabels(items.items[..i]) == Some(labels)
    {
      var selected := LabelsOf(items.items[i]);
      assert items.items[..i + 1][..i] == items.items[..i];
      if selected.None? {
        ItemLabelsFail(items.items, i + 1);
        return None;
      }
      labels := labels + [selected.value];
      i := i + 1;
    }
    assert items.items[..i] == items.items;
    r := Some([common.members] + labels);
  }

  lemma {:induction false} ItemLabelsFail(items: seq<Json>, i: nat)
    requires i <= |items| && ItemLabels(items[..i]).None?
    ensures ItemLabels(items).None?
  {
    if i == |items| {
      assert items[..i] == items;
    } else {
      assert items[..|items| - 1][..i] == items[..i];
      ItemLabelsFail(items[..|items| - 1], i);
    }
  }

  lemma ValuesSnoc(sets: seq<Fields>, labels: Fields, keys: seq<string>)
    ensures Values(sets + [labels], keys) == Values(sets, keys) + Values([labels], keys)
  {
    var more := sets + [labels];
    forall x | x in Values(more, keys) ensures x in Values(sets, keys) + Values([labels], keys) {
      var i, k :| 0 <= i < |more| && k in keys && k in more[i] && x == more[i][k];
      if i == |sets| { assert k in [labels][0] && x == [labels][0][k]; } else { assert x == sets[i][k]; }
    }
    forall x | x in Values(sets, keys) + Values([labels], keys) ensures x in Values(more, keys) {
      if x in Values(sets, keys) {
        var i, k :| 0 <= i < |sets| && k in keys && k in sets[i] && x == sets[i][k];
        assert more[i] == sets[i];
      } else {
        var i, k :| 0 <= i < |[labels]| && k in keys && k in [labels][i] && x == [labels][i][k];
        assert more[|sets|] == labels;
      }
    }
  }

  /** Adds the values of the labels in one set, each checked by `_name`. */
  method AddNames(labels: Fields, keys: seq<string>, names: set<Json>) returns (r: Option<set<Json>>)
    ensures r.Some? <==> forall k :: k in keys && k in labels ==> labels[k].String? && NameOk(labels[k].text)
    ensures r.Some? ==> forall x :: x in r.value <==> x in names || x in Values([labels], keys)
  {
    var all := names;
    var i := 0;
    while i < |keys|
      invariant 0 <= i <= |keys|
      invariant forall k :: k in keys[..i] && k in labels ==> labels[k].String? && NameOk(labels[k].text)
      invariant forall x :: x in all <==> x in names || exists k :: k in keys[..i] && k in labels && labels[k] == x
    {
      var key := keys[i];
      assert keys[..i + 1] == keys[..i] + [key];
      if key in labels {
        if !labels[key].String? || !NameOk(labels[key].text) {
          return None;
        }
        all := all + {labels[key]};
      }
      i := i + 1;
    }
    assert keys[..i] == keys;
    forall x ensures x in Values([labels], keys) <==> exists k :: k in keys && k in labels && labels[k] == x {
      if k :| k in keys && k in labels && labels[k] == x { assert [labels][0][k] == x; }
    }
    r := Some(all);
  }

  /** Whether the values of one label are exactly `want`, at every individual alert or in common. */
  method AlertNamesOk(sets: seq<Fields>) returns (ok: bool)
    requires sets != []
    ensures ok <==> Values(sets, ["alertname"]) == iset{String(ALERT)} && Covered(sets, ["alertname"])
  {
    var names: set<Json> := {};
    ok := true;
    var i := 0;
    while i < |sets|
      invariant 0 <= i <= |sets|
      invariant forall x :: x in names <==> x in Values(sets[..i], ["alertname"])
      invariant ok <==> forall j :: 1 <= j < i ==> Has(sets[0], ["alertname"]) || Has(sets[j], ["alertname"])
    {
      assert sets[..i + 1] == sets[..i] + [sets[i]];
      ValuesSnoc(sets[..i], sets[i], ["alertname"]);
      SingleValue(sets[i], "alertname");
      HasSingle(sets[0], "alertname");
      HasSingle(sets[i], "alertname");
      if "alertname" in sets[i] {
        names := names + {sets[i]["alertname"]};
      }
      if i > 0 && "alertname" !in sets[0] && "alertname" !in sets[i] {
        ok := false;
      }
      i := i + 1;
    }
    assert sets[..i] == sets;
    SameSingle(names, Values(sets, ["alertname"]), String(ALERT));
    if names != {String(ALERT)} {
      ok := false;
    }
  }

  lemma SameSingle<T>(a: set<T>, b: iset<T>, value: T)
    requires forall x :: x in a <==> x in b
    ensures a == {value} <==> b == iset{value}
  {
  }

  lemma SingleValue(labels: Fields, key: string)
    ensures Values([labels], [key]) == if key in labels then iset{labels[key]} else iset{}
  {
    if key in labels {
      assert key in [key] && [labels][0] == labels;
      assert labels[key] in Values([labels], [key]);
    }
  }

  lemma HasSingle(labels: Fields, key: string)
    ensures Has(labels, [key]) <==> key in labels
  {
  }

  /** A value that is no name cannot be the one value of its labels. */
  lemma BadValue(sets: seq<Fields>, i: nat, keys: seq<string>, value: string)
    requires i < |sets| && NameOk(value)
    requires exists k :: k in keys && k in sets[i] && !(sets[i][k].String? && NameOk(sets[i][k].text))
    ensures Values(sets, keys) != iset{String(value)}
  {
    var k :| k in keys && k in sets[i] && !(sets[i][k].String? && NameOk(sets[i][k].text));
    assert sets[i][k] in Values(sets, keys);
  }

  /** Collects the names given under `keys`; None when some value is no name. */
  method CollectNames(sets: seq<Fields>, keys: seq<string>) returns (r: Option<set<Json>>)
    ensures r.Some? ==> forall x :: x in r.value <==> x in Values(sets, keys)
    ensures r.Some? ==> forall x :: x in r.value ==> x.String? && NameOk(x.text)
    ensures r.None? ==> forall value :: NameOk(value) ==> Values(sets, keys) != iset{String(value)}
  {
    var names: set<Json> := {};
    var i := 0;
    while i < |sets|
      invariant 0 <= i <= |sets|
      invariant forall x :: x in names <==> x in Values(sets[..i], keys)
      invariant forall x :: x in names ==> x.String? && NameOk(x.text)
    {
      assert sets[..i + 1] == sets[..i] + [sets[i]];
      ValuesSnoc(sets[..i], sets[i], keys);
      var more := AddNames(sets[i], keys, names);
      if more.None? {
        forall value | NameOk(value) ensures Values(sets, keys) != iset{String(value)} { BadValue(sets, i, keys, value); }
        return None;
      }
      NamesIn(sets[i], keys);
      names := more.value;
      i := i + 1;
    }
    assert sets[..i] == sets;
    r := Some(names);
  }

  lemma NamesIn(labels: Fields, keys: seq<string>)
    requires forall k :: k in keys && k in labels ==> labels[k].String? && NameOk(labels[k].text)
    ensures forall x :: x in Values([labels], keys) ==> x.String? && NameOk(x.text)
  {
  }

  method AllCovered(sets: seq<Fields>, keys: seq<string>) returns (ok: bool)
    requires sets != []
    ensures ok <==> Covered(sets, keys)
  {
    var i := 1;
    while i < |sets|
      invariant 1 <= i <= |sets|
      invariant forall j :: 1 <= j < i ==> Has(sets[0], keys) || Has(sets[j], keys)
    {
      if !Has(sets[0], keys) && !Has(sets[i], keys) {
        return false;
      }
      i := i + 1;
    }
    ok := true;
  }

  /** `_alert_workload`: namespace and deployment. The source walks the label sets once, with its
      checks side by side; here each check is a walk of its own, so only the error text differs. */
  method AlertWorkload(alert: Json, configured: string) returns (r: Option<(string, string)>)
    ensures r.Some? ==> ActionResolves(alert, configured, r.value.0, r.value.1)
    ensures r.None? ==> forall namespace, deployment :: !ActionResolves(alert, configured, namespace, deployment)
  {
    var labels := CollectLabels(alert);
    if labels.None? {
      return None;
    }
    var sets := labels.value;
    var alertOk := AlertNamesOk(sets);
    var targetsOk := AllCovered(sets, TARGET_LABELS);
    var namespacesOk := AllCovered(sets, ["namespace"]);
    if !alertOk || !targetsOk || !namespacesOk {
      return None;
    }
    var namespace := OneName(sets, ["namespace"]);
    var deployment := OneName(sets, TARGET_LABELS);
    if namespace.None? || deployment.None? {
      return None;
    }
    OneNameOnly(sets, ["namespace"], namespace.value);
    OneNameOnly(sets, TARGET_LABELS, deployment.value);
    if namespace.value != configured || deployment.value !in SERVICES {
      return None;
    }
    r := Some((namespace.value, deployment.value));
  }

  method OneName(sets: seq<Fields>, keys: seq<string>) returns (r: Option<string>)
    ensures r.Some? ==> NameOk(r.value) && Values(sets, keys) == iset{String(r.value)}
    ensures r.None? ==> forall value :: NameOk(value) ==> Values(sets, keys) != iset{String(value)}
  {
    var names := CollectNames(sets, keys);
    if names.None? {
      return None;
    }
    if |names.value| != 1 {
      forall value | NameOk(value) ensures Values(sets, keys) != iset{String(value)} {
        SameSingle(names.value, Values(sets, keys), String(value));
      }
      return None;
    }
    var x :| x in names.value;
    OnlyOne(names.value, x);
    SameSingle(names.value, Values(sets, keys), x);
    r := Some(x.text);
  }

  lemma OnlyOne<T>(s: set<T>, x: T)
    requires |s| == 1 && x in s
    ensures s == {x}
  {
    assert |s - {x}| == 0;
  }

  lemma OneNameOnly(sets: seq<Fields>, keys: seq<string>, name: string)
    requires Values(sets, keys) == iset{String(name)}
    ensures forall value :: Values(sets, keys) == iset{String(value)} ==> value == name
  {
  }

  // ---- the verifier's resolver ----

  /** The one value of the labels in a set: Err when a value is malformed, unknown, or in conflict. */
  lemma OnlyGives(labels: Fields, keys: seq<string>, key: string)
    requires key in keys && key in labels
    ensures forall value :: Only(labels, keys, value) ==> labels[key] == String(value)
  {
  }

  method ReadTarget(labels: Fields) returns (r: Result<Option<string>>)
    ensures r.Ok? && r.value.Some? ==> r.value.value in SERVICES && Has(labels, TARGET_LABELS)
                                       && Only(labels, TARGET_LABELS, r.value.value)
    ensures r.Ok? && r.value.None? ==> !Has(labels, TARGET_LABELS)
    ensures r.Err? ==> forall value :: value in SERVICES ==> !Only(labels, TARGET_LABELS, value)
  {
    var found: Option<string> := None;
    var i := 0;
    while i < |TARGET_LABELS|
      invariant 0 <= i <= |TARGET_LABELS|
      invariant found.None? ==> forall k :: k in TARGET_LABELS[..i] ==> k !in labels
      invariant found.Some? ==> found.value in SERVICES && Has(labels, TARGET_LABELS)
      invariant found.Some? ==> Only(labels, TARGET_LABELS[..i], found.value)
      invariant found.Some? ==> forall value :: Only(labels, TARGET_LABELS, value) ==> value == found.value
    {
      var key := TARGET_LABELS[i];
      assert TARGET_LABELS[..i + 1] == TARGET_LABELS[..i] + [key];
      if key in labels {
        OnlyGives(labels, TARGET_LABELS, key);
        if !LabelOk(labels[key]) || labels[key].text !in SERVICES {
          return Err("label");
        }
        if found.Some? && found.value != labels[key].text {
          return Err("labels conflict");
        }
        found := Some(labels[key].text);
      }
      i := i + 1;
    }
    assert TARGET_LABELS[..i] == TARGET_LABELS;
    r := Ok(found);
  }

  /** A plain label: Err when it is malformed. */
  method ReadLabel(labels: Fields, name: string) returns (r: Result<Option<string>>)
    ensures r.Ok? && r.value.Some? ==> LabelOk(String(r.value.value)) && Has(labels, [name]) && Only(labels, [name], r.value.value)
    ensures r.Ok? && r.value.None? ==> !Has(labels, [name])
    ensures r.Err? ==> forall value :: LabelOk(String(value)) ==> !Only(labels, [name], value)
  {
    HasSingle(labels, name);
    if name !in labels {
      return Ok(None);
    }
    if !LabelOk(labels[name]) {
      assert name in [name];
      return Err("label is malformed");
    }
    r := Ok(Some(labels[name].text));
  }

  /** What the list of one value for each set says about agreement. */
  ghost predicate Reads(sets: seq<Fields>, keys: seq<string>, values: seq<Option<string>>) {
    && |values| == |sets|
    && forall i :: 0 <= i < |sets| ==>
         (values[i].Some? <==> Has(sets[i], keys)) && (values[i].Some? ==> Only(sets[i], keys, values[i].value))
  }

  /** One explicit value, and each individual alert has it unless the common labels do. */
  method Combine(sets: seq<Fields>, keys: seq<string>, values: seq<Option<string>>) returns (r: Option<string>)
    requires sets != [] && Reads(sets, keys, values)
    ensures r.Some? ==> Agree(sets, keys, r.value) && Some(r.value) in values
    ensures r.None? ==> forall value :: !Agree(sets, keys, value)
  {
    var explicit := set i | 0 <= i < |values| && values[i].Some? :: values[i].value;
    if |explicit| != 1 {
      forall value ensures !Agree(sets, keys, value) {
        AgreeExplicit(sets, keys, values, value);
      }
      return None;
    }
    var value :| value in explicit;
    OnlyOne(explicit, value);
    if values[0].None? && exists i :: 1 <= i < |values| && values[i].None? {
      return None;
    }
    ExplicitAgrees(sets, keys, values, value);
    r := Some(value);
  }

  lemma AgreeExplicit(sets: seq<Fields>, keys: seq<string>, values: seq<Option<string>>, value: string)
    requires sets != [] && Reads(sets, keys, values)
    ensures Agree(sets, keys, value) ==> (set i | 0 <= i < |values| && values[i].Some? :: values[i].value) == {value}
  {
  }

  lemma AbsentIsOnly(labels: Fields, keys: seq<string>, value: string)
    requires !Has(labels, keys)
    ensures Only(labels, keys, value)
  {
  }

  lemma ExplicitAgrees(sets: seq<Fields>, keys: seq<string>, values: seq<Option<string>>, value: string)
    requires sets != [] && Reads(sets, keys, values)
    requires (set i | 0 <= i < |values| && values[i].Some? :: values[i].value) == {value}
    requires values[0].Some? || forall i :: 1 <= i < |values| ==> values[i].Some?
    ensures Agree(sets, keys, value) && Some(value) in values
  {
    var explicit := set i | 0 <= i < |values| && values[i].Some? :: values[i].value;
    assert value in explicit;
    var j :| 0 <= j < |values| && values[j].Some? && values[j].value == value;
    assert values[j] == Some(value) && Has(sets[j], keys);
    forall i | 0 <= i < |sets| ensures Only(sets[i], keys, value) {
      if values[i].Some? {
        assert values[i].value in explicit;
      } else {
        AbsentIsOnly(sets[i], keys, value);
      }
    }
  }

  /** Reads one kind of label from every set. */
  method ReadTargets(sets: seq<Fields>) returns (r: Option<seq<Option<string>>>)
    ensures r.Some? ==> Reads(sets, TARGET_LABELS, r.value) && forall v :: Some(v) in r.value ==> v in SERVICES
    ensures r.None? ==> forall value :: value in SERVICES ==> exists i :: 0 <= i < |sets| && !Only(sets[i], TARGET_LABELS, value)
  {
    var values: seq<Option<string>> := [];
    var i := 0;
    while i < |sets|
      invariant 0 <= i <= |sets| && |values| == i
      invariant forall j :: 0 <= j < i ==>
        (values[j].Some? <==> Has(sets[j], TARGET_LABELS))
        && (values[j].Some? ==> values[j].value in SERVICES && Only(sets[j], TARGET_LABELS, values[j].value))
    {
      var value := ReadTarget(sets[i]);
      if value.Err? {
        return None;
      }
      values := values + [value.value];
      i := i + 1;
    }
    r := Some(values);
  }

  method ReadLabels(sets: seq<Fields>, name: string) returns (r: Option<seq<Option<string>>>)
    ensures r.Some? ==> Reads(sets, [name], r.value) && forall v :: Some(v) in r.value ==> LabelOk(String(v))
    ensures r.None? ==> forall value :: LabelOk(String(value)) ==> exists i :: 0 <= i < |sets| && !Only(sets[i], [name], value)
  {
    var values: seq<Option<string>> := [];
    var i := 0;
    while i < |sets|
      invariant 0 <= i <= |sets| && |values| == i
      invariant forall j :: 0 <= j < i ==>
        (values[j].Some? <==> Has(sets[j], [name]))
        && (values[j].Some? ==> LabelOk(String(values[j].value)) && Only(sets[j], [name], values[j].value))
    {
      var value := ReadLabel(sets[i], name);
      if value.Err? {
        return None;
      }
      values := values + [value.value];
      i := i + 1;
    }
    r := Some(values);
  }

  /** One agreed value of a plain label. */
  method AgreedLabel(sets: seq<Fields>, name: string) returns (r: Option<string>)
    requires sets != []
    ensures r.Some? ==> Agree(sets, [name], r.value) && LabelOk(String(r.value))
    ensures r.None? ==> forall value :: LabelOk(String(value)) ==> !Agree(sets, [name], value)
  {
    var values := ReadLabels(sets, name);
    if values.None? {
      return None;
    }
    r := Combine(sets, [name], values.value);
  }

  method AgreedTarget(sets: seq<Fields>) returns (r: Option<string>)
    requires sets != []
    ensures r.Some? ==> Agree(sets, TARGET_LABELS, r.value) && r.value in SERVICES
    ensures r.None? ==> forall value :: value in SERVICES ==> !Agree(sets, TARGET_LABELS, value)
  {
    var values := ReadTargets(sets);
    if values.None? {
      return None;
    }
    r := Combine(sets, TARGET_LABELS, values.value);
  }

  lemma AgreedOnce(sets: seq<Fields>, keys: seq<string>, value: string)
    requires sets != [] && Agree(sets, keys, value)
    ensures forall other :: Agree(sets, keys, other) ==> other == value
  {
  }

  /** `_resolve_operational_target`: the deployment in the configured namespace. */
  method ResolveOperationalTarget(alert: Json, configured: string) returns (r: Option<string>)
    requires NameOk(configured)
    ensures r.Some? ==> VerifierResolves(alert, configured, r.value)
    ensures r.None? ==> forall deployment :: !VerifierResolves(alert, configured, deployment)
  {
    NamesAreLabels(configured);
    var labels := CollectLabels(alert);
    if labels.None? {
      return None;
    }
    var sets := labels.value;
    if exists i :: 1 <= i < |sets| && sets[i] == map[] {
      return None;
    }
    var name := AgreedLabel(sets, "alertname");
    var deployment := AgreedTarget(sets);
    var namespace := AgreedLabel(sets, "namespace");
    AlertIsLabel();
    if name.None? || deployment.None? || namespace.None? {
      return None;
    }
    AgreedOnce(sets, ["alertname"], name.value);
    AgreedOnce(sets, ["namespace"], namespace.value);
    if name.value != ALERT || namespace.value != configured {
      return None;
    }
    r := deployment;
  }

  lemma AlertIsLabel()
    ensures LabelOk(String(ALERT))
  {
  }
}
