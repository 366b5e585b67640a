/** Occurrence references, the filtered payload a handler receives, and the incident map
    of agents/correlator.py. Time is a parameter; sha256 keys are any function of an alert
    and the envelope fields that survive filtering. */
module Correlator {
  import opened Basics

  /** An entry of `alerts`: a JSON object, or something that is not one. */
  datatype Item = Scalar(raw: string) | Alert(body: string)

  /** `alerts` is None when it is absent or not a list. */
  datatype Payload = Payload(envelope: string, alerts: Option<seq<Item>>)

  datatype Ref = Ref(key: string, index: Option<nat>)

  datatype Batch = Batch(incident: string, payload: Payload, refs: seq<Ref>)

  /** `_alert_occurrence_key`: of one alert item, or of the whole payload when no item is an object. */
  datatype Keying = Keying(ofAlert: (string, string) -> string, ofPayload: Payload -> string)

  // ---- `_occurrence_refs` ----

  /** The references of the first `n` items: the first index of each distinct key. */
  function RefsUpTo(kf: Keying, envelope: string, items: seq<Item>, n: nat): (r: seq<Ref>)
    requires n <= |items|
    ensures forall x :: x in r ==> x.index.Some? && x.index.value < n && items[x.index.value].Alert?
                                   && x.key == kf.ofAlert(items[x.index.value].body, envelope)
  {
    if n == 0 then []
    else
      var init := RefsUpTo(kf, envelope, items, n - 1);
      match items[n - 1]
      case Scalar(_) => init
      case Alert(body) =>
        var key := kf.ofAlert(body, envelope);
        if HasKey(init, key) then init else init + [Ref(key, Some(n - 1))]
  }

  predicate HasKey(refs: seq<Ref>, key: string) {
    exists i :: 0 <= i < |refs| && refs[i].key == key
  }

  function OccurrenceRefs(kf: Keying, p: Payload): seq<Ref> {
    if p.alerts.Some? && RefsUpTo(kf, p.envelope, p.alerts.value, |p.alerts.value|) != []
    then RefsUpTo(kf, p.envelope, p.alerts.value, |p.alerts.value|)
    else [Ref(kf.ofPayload(p), None)]
  }

  /** The item is the first object with its key. */
  ghost predicate FirstOfKey(kf: Keying, envelope: string, items: seq<Item>, i: nat, key: string) {
    && i < |items| && items[i].Alert? && kf.ofAlert(items[i].body, envelope) == key
    && forall j :: 0 <= j < i && items[j].Alert? ==> kf.ofAlert(items[j].body, envelope) != key
  }

  ghost predicate RefersTo(kf: Keying, envelope: string, items: seq<Item>, n: nat, x: Ref) {
    x.index.Some? && x.index.value < n && FirstOfKey(kf, envelope, items, x.index.value, x.key)
  }

  predicate Rising(refs: seq<Ref>) {
    forall j, k :: 0 <= j < k < |refs| && refs[j].index.Some? && refs[k].index.Some? ==> refs[j].index.value < refs[k].index.value
  }

  /** The references are exactly those, in the order of the items. */
  ghost predicate Refers(kf: Keying, envelope: string, items: seq<Item>, n: nat, refs: seq<Ref>) {
    Rising(refs) && forall x :: x in refs <==> RefersTo(kf, envelope, items, n, x)
  }

  lemma NextRefers(kf: Keying, envelope: string, items: seq<Item>, n: nat, x: Ref)
    requires n < |items|
    ensures RefersTo(kf, envelope, items, n + 1, x) <==>
      RefersTo(kf, envelope, items, n, x) || (x.index == Some(n) && FirstOfKey(kf, envelope, items, n, x.key))
  {
  }

  lemma RisingSnoc(refs: seq<Ref>, x: Ref)
    requires Rising(refs) && x.index.Some?
    requires forall y :: y in refs ==> y.index.Some? && y.index.value < x.index.value
    ensures Rising(refs + [x])
  {
    forall k | 0 <= k < |refs| ensures refs[k] in refs {}
  }

  /** One object more is referred to exactly if its key is new. */
  lemma RefsSnoc(kf: Keying, envelope: string, items: seq<Item>, n: nat)
    requires n < |items| && items[n].Alert?
    requires Refers(kf, envelope, items, n, RefsUpTo(kf, envelope, items, n))
    ensures Refers(kf, envelope, items, n + 1, RefsUpTo(kf, envelope, items, n + 1))
  {
    var refs := RefsUpTo(kf, envelope, items, n);
    var key := kf.ofAlert(items[n].body, envelope);
    KeySeenIff(kf, envelope, items, n, key);
    RisingSnoc(refs, Ref(key, Some(n)));
    var more := RefsUpTo(kf, envelope, items, n + 1);
    forall x ensures x in more <==> RefersTo(kf, envelope, items, n + 1, x) {
      NextRefers(kf, envelope, items, n, x);
    }
  }

  lemma ScalarKeeps(kf: Keying, envelope: string, items: seq<Item>, n: nat, refs: seq<Ref>)
    requires n < |items| && !items[n].Alert? && Refers(kf, envelope, items, n, refs)
    ensures Refers(kf, envelope, items, n + 1, refs)
  {
    forall x ensures x in refs <==> RefersTo(kf, envelope, items, n + 1, x) { NextRefers(kf, envelope, items, n, x); }
  }

  lemma {:induction false} RefsAre(kf: Keying, envelope: string, items: seq<Item>, n: nat)
    requires n <= |items|
    ensures Refers(kf, envelope, items, n, RefsUpTo(kf, envelope, items, n))
  {
    if n > 0 {
      RefsAre(kf, envelope, items, n - 1);
      if items[n - 1].Alert? {
        RefsSnoc(kf, envelope, items, n - 1);
      } else {
        ScalarKeeps(kf, envelope, items, n - 1, RefsUpTo(kf, envelope, items, n - 1));
      }
    }
  }

  /** The key of an earlier object is among the references. */
  lemma KeySeenIff(kf: Keying, envelope: string, items: seq<Item>, n: nat, key: string)
    requires n <= |items| && Refers(kf, envelope, items, n, RefsUpTo(kf, envelope, items, n))
    ensures HasKey(RefsUpTo(kf, envelope, items, n), key) <==>
      exists j :: 0 <= j < n && items[j].Alert? && kf.ofAlert(items[j].body, envelope) == key
  {
    var refs := RefsUpTo(kf, envelope, items, n);
    if HasKey(refs, key) {
      var k :| 0 <= k < |refs| && refs[k].key == key;
      assert refs[k] in refs;
    }
    if j :| 0 <= j < n && items[j].Alert? && kf.ofAlert(items[j].body, envelope) == key {
      var i := FirstIndex(kf, envelope, items, j, key);
      assert RefersTo(kf, envelope, items, n, Ref(key, Some(i)));
      var k :| 0 <= k < |refs| && refs[k] == Ref(key, Some(i));
    }
  }

  lemma {:induction false} FirstIndex(kf: Keying, envelope: string, items: seq<Item>, j: nat, key: string) returns (i: nat)
    requires j < |items| && items[j].Alert? && kf.ofAlert(items[j].body, envelope) == key
    ensures i <= j && FirstOfKey(kf, envelope, items, i, key)
  {
    if j' :| 0 <= j' < j && items[j'].Alert? && kf.ofAlert(items[j'].body, envelope) == key {
      i := FirstIndex(kf, envelope, items, j', key);
    } else {
      i := j;
    }
  }

  lemma EmptyIff<T(!new)>(xs: seq<T>)
    ensures xs == [] <==> forall x :: x !in xs
  {
    if xs != [] { assert xs[0] in xs; }
  }

  /** The occurrences of a payload: the first object of each key, in order, or, when it lists no object
      at all, the payload itself. */
  lemma OccurrencesTold(kf: Keying, p: Payload)
    ensures var refs := OccurrenceRefs(kf, p);
      if p.alerts.Some? && exists i :: 0 <= i < |p.alerts.value| && p.alerts.value[i].Alert? then
        Refers(kf, p.envelope, p.alerts.value, |p.alerts.value|, refs)
      else refs == [Ref(kf.ofPayload(p), None)]
  {
    if p.alerts.Some? {
      var items := p.alerts.value;
      var refs := RefsUpTo(kf, p.envelope, items, |items|);
      RefsAre(kf, p.envelope, items, |items|);
      EmptyIff(refs);
      if i :| 0 <= i < |items| && items[i].Alert? {
        KeySeenIff(kf, p.envelope, items, |items|, kf.ofAlert(items[i].body, p.envelope));
        assert refs != [];
      }
    }
  }

  function KeysOf(refs: seq<Ref>): (r: seq<string>)
    ensures |r| == |refs|
    ensures forall i :: 0 <= i < |refs| ==> r[i] == refs[i].key
  {
    seq(|refs|, i requires 0 <= i < |refs| => refs[i].key)
  }

  method ComputeOccurrenceRefs(kf: Keying, p: Payload) returns (r: seq<Ref>)
    ensures r == OccurrenceRefs(kf, p)
  {
    if p.alerts.Some? {
      var items := p.alerts.value;
      var refs: seq<Ref> := [];
      var seen: set<string> := {};
      var i := 0;
      while i < |items|
        invariant 0 <= i <= |items|
        invariant refs == RefsUpTo(kf, p.envelope, items, i)
        invariant KeysSeen(seen, refs)
      {
        match items[i] {
          case Scalar(_) =>
          case Alert(body) =>
            var key := kf.ofAlert(body, p.envelope);
            if key !in seen {
              KeysSeenSnoc(seen, refs, Ref(key, Some(i)));
              refs := refs + [Ref(key, Some(i))];
              seen := seen + {key};
            }
        }
        i := i + 1;
      }
      if refs != [] {
        return refs;
      }
    }
    r := [Ref(kf.ofPayload(p), None)];
  }

  ghost predicate KeysSeen(seen: set<string>, refs: seq<Ref>) {
    forall k :: k in seen <==> HasKey(refs, k)
  }

  lemma KeysSeenSnoc(seen: set<string>, refs: seq<Ref>, r: Ref)
    requires KeysSeen(seen, refs)
    ensures KeysSeen(seen + {r.key}, refs + [r])
  {
    forall k ensures HasKey(refs + [r], k) <==> HasKey(refs, k) || k == r.key {
      if j :| 0 <= j < |refs| && refs[j].key == k { assert (refs + [r])[j].key == k; }
      assert (refs + [r])[|refs|] == r;
    }
  }

  // ---- `_filtered_payload` ----

  function AdmittedIndices(refs: seq<Ref>, admitted: set<string>): set<nat> {
    set i | 0 <= i < |refs| && refs[i].key in admitted && refs[i].index.Some? :: refs[i].index.value
  }

  /** The items at the given positions, in position order (positions past the end are skipped). */
  function ItemsAt(items: seq<Item>, indices: set<nat>, n: nat): (r: seq<Item>)
    requires n <= |items|
    ensures |r| <= n
  {
    if n == 0 then []
    else ItemsAt(items, indices, n - 1) + if n - 1 in indices then [items[n - 1]] else []
  }

  function FilteredPayload(p: Payload, refs: seq<Ref>, admitted: set<string>): Payload {
    if p.alerts.None? || AdmittedIndices(refs, admitted) == {} then p
    else p.(alerts := Some(ItemsAt(p.alerts.value, AdmittedIndices(refs, admitted), |p.alerts.value|)))
  }

  /** The keys of RefsUpTo, computed without the indices. */
  function KeysUpTo(kf: Keying, envelope: string, items: seq<Item>): seq<string> {
    if items == [] then []
    else
      var init := KeysUpTo(kf, envelope, items[..|items| - 1]);
      match Last(items)
      case Scalar(_) => init
      case Alert(body) =>
        var key := kf.ofAlert(body, envelope);
        if key in init then init else init + [key]
  }

  lemma {:induction false} KeysOfRefs(kf: Keying, envelope: string, items: seq<Item>, n: nat)
    requires n <= |items|
    ensures KeysOf(RefsUpTo(kf, envelope, items, n)) == KeysUpTo(kf, envelope, items[..n])
  {
    if n > 0 {
      KeysOfRefs(kf, envelope, items, n - 1);
      assert items[..n][..n - 1] == items[..n - 1];
      HasKeyIsMember(RefsUpTo(kf, envelope, items, n - 1));
    }
  }

  lemma HasKeyIsMember(refs: seq<Ref>)
    ensures forall k :: HasKey(refs, k) <==> k in KeysOf(refs)
  {
  }

  lemma KeysSnoc(kf: Keying, envelope: string, items: seq<Item>, body: string)
    ensures var key := kf.ofAlert(body, envelope); var init := KeysUpTo(kf, envelope, items);
      KeysUpTo(kf, envelope, items + [Alert(body)]) == if key in init then init else init + [key]
  {
  }

  /** Position m carries an admitted reference. */
  predicate Selected(kf: Keying, envelope: string, items: seq<Item>, admitted: set<string>, m: nat)
    requires m < |items|
  {
    && items[m].Alert?
    && kf.ofAlert(items[m].body, envelope) in admitted
    && kf.ofAlert(items[m].body, envelope) !in KeysUpTo(kf, envelope, items[..m])
  }

  /** One item more: it is kept exactly when it introduces an admitted key. */
  lemma KeptStep(kf: Keying, envelope: string, prefix: seq<Item>, item: Item, kept: seq<Item>,
                 admitted: set<string>, selected: bool)
    requires KeysUpTo(kf, envelope, kept) == Keep(KeysUpTo(kf, envelope, prefix), admitted)
    requires selected <==> item.Alert? && kf.ofAlert(item.body, envelope) in admitted
                           && kf.ofAlert(item.body, envelope) !in KeysUpTo(kf, envelope, prefix)
    ensures KeysUpTo(kf, envelope, kept + if selected then [item] else []) ==
            Keep(KeysUpTo(kf, envelope, prefix + [item]), admitted)
  {
    assert kept + [] == kept;
    match item {
      case Scalar(_) =>
        assert (prefix + [item])[..|prefix|] == prefix;
      case Alert(body) =>
        KeysSnoc(kf, envelope, prefix, body);
        KeysSnoc(kf, envelope, kept, body);
        KeepSnoc(KeysUpTo(kf, envelope, prefix), kf.ofAlert(body, envelope), admitted);
    }
  }

  /** Keeping the first occurrence of every admitted key keeps exactly the admitted keys. */
  lemma {:induction false} KeysOfKeptItems(
    kf: Keying, envelope: string, items: seq<Item>, indices: set<nat>, admitted: set<string>, n: nat)
    requires n <= |items|
    requires forall m: nat :: m < |items| ==> (m in indices <==> Selected(kf, envelope, items, admitted, m))
    ensures KeysUpTo(kf, envelope, ItemsAt(items, indices, n)) ==
            Keep(KeysUpTo(kf, envelope, items[..n]), admitted)
  {
    if n > 0 {
      KeysOfKeptItems(kf, envelope, items, indices, admitted, n - 1);
      assert items[..n] == items[..n - 1] + [items[n - 1]];
      KeptStep(kf, envelope, items[..n - 1], items[n - 1], ItemsAt(items, indices, n - 1), admitted, n - 1 in indices);
    }
  }

  predicate HasIndex(refs: seq<Ref>, m: nat) {
    exists i :: 0 <= i < |refs| && refs[i].index == Some(m)
  }

  lemma HasIndexSnoc(refs: seq<Ref>, r: Ref, m: nat)
    ensures HasIndex(refs + [r], m) <==> HasIndex(refs, m) || r.index == Some(m)
  {
    if i :| 0 <= i < |refs| && refs[i].index == Some(m) { assert (refs + [r])[i].index == Some(m); }
    if r.index == Some(m) { assert (refs + [r])[|refs|].index == Some(m); }
  }

  lemma EarlierIndices(kf: Keying, envelope: string, items: seq<Item>, n: nat)
    requires n <= |items|
    ensures !HasIndex(RefsUpTo(kf, envelope, items, n), n)
  {
  }

  /** The next item adds a reference to its own position, or none. */
  lemma RefsStep(kf: Keying, envelope: string, items: seq<Item>, n: nat, m: nat)
    requires n < |items|
    ensures HasIndex(RefsUpTo(kf, envelope, items, n + 1), m) <==>
      HasIndex(RefsUpTo(kf, envelope, items, n), m)
      || (m == n && items[n].Alert? && kf.ofAlert(items[n].body, envelope) !in KeysUpTo(kf, envelope, items[..n]))
  {
    var before := RefsUpTo(kf, envelope, items, n);
    KeysOfRefs(kf, envelope, items, n);
    HasKeyIsMember(before);
    if items[n].Alert? { HasIndexSnoc(before, Ref(kf.ofAlert(items[n].body, envelope), Some(n)), m); }
  }

  lemma {:induction false} RefsUpToAt(kf: Keying, envelope: string, items: seq<Item>, m: nat, n: nat)
    requires m < n <= |items|
    ensures HasIndex(RefsUpTo(kf, envelope, items, n), m) <==>
            items[m].Alert?
            && kf.ofAlert(items[m].body, envelope) !in KeysUpTo(kf, envelope, items[..m])
  {
    RefsStep(kf, envelope, items, n - 1, m);
    if m == n - 1 { EarlierIndices(kf, envelope, items, m); } else { RefsUpToAt(kf, envelope, items, m, n - 1); }
  }

  /** The positions selected by `_filtered_payload` are the first occurrences of admitted keys. */
  lemma AdmittedIndicesAreSelected(kf: Keying, envelope: string, items: seq<Item>, admitted: set<string>)
    ensures var refs := RefsUpTo(kf, envelope, items, |items|);
      forall m: nat :: m < |items| ==>
        (m in AdmittedIndices(refs, admitted) <==> Selected(kf, envelope, items, admitted, m))
  {
    var refs := RefsUpTo(kf, envelope, items, |items|);
    forall m: nat | m < |items|
      ensures m in AdmittedIndices(refs, admitted) <==> Selected(kf, envelope, items, admitted, m)
    {
      RefsUpToAt(kf, envelope, items, m, |items|);
      if m in AdmittedIndices(refs, admitted) {
        var i :| 0 <= i < |refs| && refs[i].key in admitted && refs[i].index == Some(m);
        assert refs[i] in refs;
      }
      if Selected(kf, envelope, items, admitted, m) {
        var i :| 0 <= i < |refs| && refs[i].index == Some(m);
        assert refs[i] in refs;
      }
    }
  }

  /** The references of the kept items are those of all items with an admitted key. */
  lemma KeptRefs(kf: Keying, envelope: string, items: seq<Item>, admitted: set<string>)
    ensures var refs := RefsUpTo(kf, envelope, items, |items|);
      var kept := ItemsAt(items, AdmittedIndices(refs, admitted), |items|);
      KeysOf(RefsUpTo(kf, envelope, kept, |kept|)) == Keep(KeysOf(refs), admitted)
  {
    var refs := RefsUpTo(kf, envelope, items, |items|);
    var indices := AdmittedIndices(refs, admitted);
    var kept := ItemsAt(items, indices, |items|);
    AdmittedIndicesAreSelected(kf, envelope, items, admitted);
    KeysOfKeptItems(kf, envelope, items, indices, admitted, |items|);
    KeysOfRefs(kf, envelope, items, |items|);
    KeysOfRefs(kf, envelope, kept, |kept|);
    assert items[..|items|] == items && kept[..|kept|] == kept;
  }

  /** What a handler is given: the occurrences of the filtered payload are exactly the
      admitted occurrences of the original one, in order. */
  lemma DeliveredKeysAreAdmittedKeys(kf: Keying, p: Payload, admitted: set<string>)
    requires exists k :: k in KeysOf(OccurrenceRefs(kf, p)) && k in admitted
    ensures var refs := OccurrenceRefs(kf, p);
      KeysOf(OccurrenceRefs(kf, FilteredPayload(p, refs, admitted))) == Keep(KeysOf(refs), admitted)
  {
    var refs := OccurrenceRefs(kf, p);
    var k :| k in KeysOf(refs) && k in admitted;
    var j :| 0 <= j < |KeysOf(refs)| && KeysOf(refs)[j] == k;
    assert k in Keep(KeysOf(refs), admitted);
    if p.alerts.Some? && RefsUpTo(kf, p.envelope, p.alerts.value, |p.alerts.value|) != [] {
      assert refs[j] in refs;
      assert refs[j].index.value in AdmittedIndices(refs, admitted);
      KeptRefs(kf, p.envelope, p.alerts.value, admitted);
    } else {
      assert AdmittedIndices(refs, admitted) == {};
      assert FilteredPayload(p, refs, admitted) == p;
      assert KeysOf(refs) == [] + [refs[0].key];
      KeepSnoc([], refs[0].key, admitted);
    }
  }

  // ---- the incident map ----

  const CORRELATION_WINDOW_S: real := 300.0

  datatype Incident = Incident(active: bool, lastAlertAt: real)

  function Flags(incidents: map<string, Incident>): map<string, bool> {
    map i | i in incidents :: incidents[i].active
  }

  class IncidentCorrelator {
    var incidents: map<string, Incident>

    constructor ()
      ensures incidents == map[]
    {
      incidents := map[];
    }

    function Active(): map<string, bool>
      reads this
    {
      Flags(incidents)
    }

    method MarkProcessing(incident: string, active: bool)
      modifies this
      ensures incidents == if incident in old(incidents)
                           then old(incidents)[incident := old(incidents)[incident].(active := active)]
                           else old(incidents)
    {
      if incident in incidents {
        incidents := incidents[incident := incidents[incident].(active := active)];
      }
    }

    /** A new incident, under a freshly drawn id. */
    method Track(incident: string, now: real)
      requires incident !in incidents
      modifies this
      ensures incidents == old(incidents)[incident := Incident(false, now)]
    {
      incidents := incidents[incident := Incident(false, now)];
    }

    /** `_expire_old`: an incident is dropped exactly when it is idle and outside the window. */
    method ExpireOld(now: real)
      modifies this
      ensures forall i :: i in incidents <==>
        i in old(incidents)
        && (old(incidents)[i].active || now - old(incidents)[i].lastAlertAt <= CORRELATION_WINDOW_S)
      ensures forall i :: i in incidents ==> incidents[i] == old(incidents)[i]
    {
      incidents := map i | i in incidents
        && !(now - incidents[i].lastAlertAt > CORRELATION_WINDOW_S && !incidents[i].active) :: incidents[i];
    }
  }
}
