/** Prepared actions as compare-and-swap (agents/action_execution.py) against a Kubernetes API server
    that other clients also write. Resources are maps from JSON pointers to values; a patch is
    applied as RFC 6902 says (sections 4 and 5): in order, and not at all when one operation fails. */
module Actions {
  import opened Basics
  import opened Evidence

  type Path = string
  type Version = string
  type Uid = string

  datatype Resource = Resource(uid: Uid, version: Version, slots: map<string, Json>)

  /** `used` remembers every uid ever given out, with every version each has ever had. */
  datatype Server = Server(resources: map<Path, Resource>, used: map<Uid, set<Version>>)

  datatype Op = Test(slot: string, value: Json) | Replace(slot: string, value: Json) | Add(slot: string, value: Json)

  const UID := "/metadata/uid"
  const VERSION := "/metadata/resourceVersion"
  const DELETION := "/metadata/deletionTimestamp"
  const FINALIZERS := "/metadata/finalizers"

  // ---- JSON patch ----

  function ValueAt(r: Resource, slot: string): Option<Json> {
    if slot == UID then Some(String(r.uid))
    else if slot == VERSION then Some(String(r.version))
    else if slot in r.slots then Some(r.slots[slot]) else None
  }

  function ApplyOp(r: Resource, op: Op): Option<Resource> {
    match op
    case Test(slot, value) => if ValueAt(r, slot) == Some(value) then Some(r) else None
    case Replace(slot, value) => if slot in r.slots then Some(r.(slots := r.slots[slot := value])) else None
    case Add(slot, value) =>
      if slot == UID || slot == VERSION then None else Some(r.(slots := r.slots[slot := value]))
  }

  function ApplyPatch(r: Resource, ops: seq<Op>): Option<Resource>
    decreases |ops|
  {
    if ops == [] then Some(r)
    else match ApplyOp(r, ops[0])
      case None => None
      case Some(r') => ApplyPatch(r', ops[1..])
  }

  lemma {:induction false} ApplyConcat(r: Resource, a: seq<Op>, b: seq<Op>)
    ensures ApplyPatch(r, a + b) ==
      match ApplyPatch(r, a) case None => None case Some(m) => ApplyPatch(m, b)
    decreases |a|
  {
    if a == [] {
      assert a + b == b;
    } else {
      assert (a + b)[1..] == a[1..] + b;
      match ApplyOp(r, a[0]) {
        case None =>
        case Some(m) => ApplyConcat(m, a[1..], b);
      }
    }
  }

  // ---- the server ----

  predicate Unused(s: Server, uid: Uid, v: Version) {
    uid !in s.used || v !in s.used[uid]
  }

  function UsedWith(s: Server, uid: Uid, v: Version): map<Uid, set<Version>> {
    s.used[uid := (if uid in s.used then s.used[uid] else {}) + {v}]
  }

  /** A write that changes something takes a version its object never had; one that changes
      nothing is no write. */
  function Store(s: Server, path: Path, r: Resource, slots: map<string, Json>, v: Version): Server {
    if slots == r.slots then s
    else Server(s.resources[path := Resource(r.uid, v, slots)], UsedWith(s, r.uid, v))
  }

  datatype Body = Ops(ops: seq<Op>) | DeleteOptions(uid: Uid, version: Version)

  datatype Status = Applied | NotFound | Conflict | Invalid

  /** A PATCH, or a DELETE with preconditions; an object with finalizers is only marked. */
  function Serve(s: Server, path: Path, body: Body, v: Version): (Server, Status) {
    if path !in s.resources then (s, NotFound)
    else
      var r := s.resources[path];
      match body
      case Ops(ops) =>
        (match ApplyPatch(r, ops)
         case None => (s, Invalid)
         case Some(r') => (Store(s, path, r, r'.slots, v), Applied))
      case DeleteOptions(uid, version) =>
        if r.uid != uid || r.version != version then (s, Conflict)
        else if FINALIZERS in r.slots
        then (Store(s, path, r, if DELETION in r.slots then r.slots else r.slots[DELETION := Bool(true)], v), Applied)
        else (s.(resources := s.resources - {path}), Applied)
  }

  // ---- preparation ----

  datatype Target = Target(server: string, path: Path, uid: Uid, version: Version)

  datatype Prepared = Prepared(target: Target, body: Body)

  function Tests(t: Target): seq<Op> {
    [Test(UID, String(t.uid)), Test(VERSION, String(t.version))]
  }

  /** What a tool makes of the resource it read: a change, a deletion, or an error. */
  datatype Intent = Change(ops: seq<Op>) | Removal | Refusal

  /** `prepare_action`: one read of the target, the tool's checks on it, and the pinned request. */
  function Prepare(s: Server, host: string, path: Path, intent: Resource -> Intent): Option<Prepared> {
    if path !in s.resources then None
    else
      var r := s.resources[path];
      var target := Target(host, path, r.uid, r.version);
      match intent(r)
      case Refusal => None
      case Removal => Some(Prepared(target, DeleteOptions(r.uid, r.version)))
      case Change(ops) => Some(Prepared(target, Ops(Tests(target) + ops)))
  }

  // ---- execution ----

  /** What happens to the request on its way. */
  datatype Fate = Delivered | LostBefore | LostAfter

  datatype Answer = Success | TargetMismatch | TargetConflict | Uncertain

  function Execute(s: Server, p: Prepared, host: string, fate: Fate, v: Version): (Server, Answer) {
    if host != p.target.server then (s, TargetMismatch)
    else
      var (s', status) := Serve(s, p.target.path, p.body, v);
      match fate
      case LostBefore => (s, Uncertain)
      case LostAfter => (s', Uncertain)
      case Delivered => (s', if status == Applied then Success else TargetConflict)
  }

  /** What anyone does to the server between preparation and execution. */
  datatype Event =
    | Create(path: Path, uid: Uid, version: Version, slots: map<string, Json>)
    | Request(path: Path, body: Body, version: Version)
    | Update(path: Path, slots: map<string, Json>, version: Version)
    | Remove(path: Path)

  /** An event that would reuse a version of an object, or a uid, does not happen. */
  function Step(s: Server, e: Event): Server {
    match e
    case Create(path, uid, version, slots) =>
      if path in s.resources || uid in s.used then s
      else Server(s.resources[path := Resource(uid, version, slots)], UsedWith(s, uid, version))
    case Request(path, body, v) =>
      if path in s.resources && !Unused(s, s.resources[path].uid, v) then s else Serve(s, path, body, v).0
    case Update(path, slots, v) =>
      if path in s.resources && Unused(s, s.resources[path].uid, v)
      then Store(s, path, s.resources[path], slots, v) else s
    case Remove(path) => s.(resources := s.resources - {path})
  }

  function Run(s: Server, events: seq<Event>): Server {
    if events == [] then s else Step(Run(s, events[..|events| - 1]), Last(events))
  }

  // ---- versions identify states ----

  ghost predicate Tracked(s: Server) {
    forall path :: path in s.resources ==>
      s.resources[path].uid in s.used && s.resources[path].version in s.used[s.resources[path].uid]
  }

  ghost predicate MoreUsed(s: Server, s': Server) {
    forall uid :: uid in s.used ==> uid in s'.used && s.used[uid] <= s'.used[uid]
  }

  /** Whatever still carries a version known in `s` is exactly what it was in `s`. */
  ghost predicate SameVersionSameState(s: Server, s': Server) {
    forall path :: path in s'.resources && !Unused(s, s'.resources[path].uid, s'.resources[path].version) ==>
      path in s.resources && s'.resources[path] == s.resources[path]
  }

  ghost predicate Follows(s: Server, s': Server) {
    Tracked(s') && MoreUsed(s, s') && SameVersionSameState(s, s')
  }

  lemma StoreFollows(base: Server, s: Server, path: Path, slots: map<string, Json>, v: Version)
    requires Follows(base, s) && path in s.resources && Unused(s, s.resources[path].uid, v)
    ensures Follows(base, Store(s, path, s.resources[path], slots, v))
  {
  }

  lemma ServeFollows(base: Server, s: Server, path: Path, body: Body, v: Version)
    requires Follows(base, s) && (path in s.resources ==> Unused(s, s.resources[path].uid, v))
    ensures Follows(base, Serve(s, path, body, v).0)
  {
  }

  lemma StepFollows(base: Server, s: Server, e: Event)
    requires Follows(base, s)
    ensures Follows(base, Step(s, e))
  {
    match e {
      case Create(path, uid, version, slots) =>
        if path !in s.resources && uid !in s.used { assert Unused(base, uid, version); }
      case Request(path, body, v) =>
        if path !in s.resources || Unused(s, s.resources[path].uid, v) { ServeFollows(base, s, path, body, v); }
      case Update(path, slots, v) =>
        if path in s.resources && Unused(s, s.resources[path].uid, v) { StoreFollows(base, s, path, slots, v); }
      case Remove(_) =>
    }
  }

  lemma {:induction false} RunFollows(s: Server, events: seq<Event>)
    requires Tracked(s)
    ensures Follows(s, Run(s, events))
  {
    if events != [] {
      RunFollows(s, events[..|events| - 1]);
      StepFollows(s, Run(s, events[..|events| - 1]), Last(events));
    }
  }

  // ---- main results ----

  lemma TestsPin(r: Resource, t: Target, ops: seq<Op>)
    ensures ApplyPatch(r, Tests(t) + ops) ==
      if r.uid == t.uid && r.version == t.version then ApplyPatch(r, ops) else None
  {
  }

  /** A prepared request is served only in the pinned version of the pinned object. */
  lemma ServedOnlyWhenPinned(s0: Server, host: string, path: Path, intent: Resource -> Intent, s: Server, v: Version)
    requires Prepare(s0, host, path, intent).Some?
    ensures var p := Prepare(s0, host, path, intent).value;
      Serve(s, path, p.body, v).1 == Applied ==>
        path in s.resources && s.resources[path].uid == s0.resources[path].uid
        && s.resources[path].version == s0.resources[path].version
  {
    var p := Prepare(s0, host, path, intent).value;
    if path in s.resources && p.body.Ops? {
      TestsPin(s.resources[path], p.target, intent(s0.resources[path]).ops);
    }
  }

  /** Compare-and-swap: whatever others did since preparation, a successful execution finds the
      target in exactly the state that was read, and makes exactly the change approved for it. */
  lemma SuccessAppliesToPreparedState(s0: Server, host: string, path: Path, intent: Resource -> Intent,
                                      events: seq<Event>, host': string, fate: Fate, v: Version)
    requires Tracked(s0) && Prepare(s0, host, path, intent).Some?
    requires Execute(Run(s0, events), Prepare(s0, host, path, intent).value, host', fate, v).1 == Success
    ensures var s := Run(s0, events); var r := s0.resources[path];
      var s' := Execute(s, Prepare(s0, host, path, intent).value, host', fate, v).0;
      && host' == host && path in s.resources && s.resources[path] == r
      && match intent(r)
         case Refusal => false
         case Change(ops) => ApplyPatch(r, ops).Some? && s' == Store(s, path, r, ApplyPatch(r, ops).value.slots, v)
         case Removal =>
           if FINALIZERS in r.slots
           then s' == Store(s, path, r, if DELETION in r.slots then r.slots else r.slots[DELETION := Bool(true)], v)
           else s' == s.(resources := s.resources - {path})
  {
    RunFollows(s0, events);
    var s := Run(s0, events);
    var p := Prepare(s0, host, path, intent).value;
    ServedOnlyWhenPinned(s0, host, path, intent, s, v);
    assert s.resources[path] == s0.resources[path];
    if p.body.Ops? { TestsPin(s.resources[path], p.target, intent(s0.resources[path]).ops); }
  }

  /** The request can be served in `s`: the target is as it was read, and the change fits it. */
  ghost predicate Serveable(s: Server, path: Path, r: Resource, intent: Intent) {
    path in s.resources && s.resources[path] == r && (intent.Change? ==> ApplyPatch(r, intent.ops).Some?)
  }

  /** What every execution answers, and which ones take effect: a request is prepared for every
      resource the tool accepts; it is refused on another server; an answer that is lost leaves the
      outcome uncertain; and one that arrives tells success exactly if nobody changed the target since
      it was read (and the change fits it). Lost or not, a served request has the same effect. */
  lemma ExecutionAnswered(s0: Server, host: string, path: Path, intent: Resource -> Intent,
                          events: seq<Event>, host': string, fate: Fate, v: Version)
    requires Tracked(s0) && path in s0.resources && !intent(s0.resources[path]).Refusal?
    ensures Prepare(s0, host, path, intent).Some?
    ensures var s := Run(s0, events); var r := s0.resources[path]; var p := Prepare(s0, host, path, intent).value;
      var serves := Serveable(s, path, r, intent(r));
      && Execute(s, p, host', fate, v).1 ==
           (if host' != host then TargetMismatch else if fate != Delivered then Uncertain
            else if serves then Success else TargetConflict)
      && Execute(s, p, host', fate, v).0 ==
           (if host' == host && fate != LostBefore && serves then Execute(s, p, host, Delivered, v).0 else s)
  {
    RunFollows(s0, events);
    var s := Run(s0, events);
    var p := Prepare(s0, host, path, intent).value;
    if path in s.resources && p.body.Ops? {
      TestsPin(s.resources[path], p.target, intent(s0.resources[path]).ops);
    }
    ServedOnlyWhenPinned(s0, host, path, intent, s, v);
  }

  /** A conflict or a changed server leaves the server as it was. */
  lemma RefusedHasNoEffect(s: Server, p: Prepared, host: string, fate: Fate, v: Version)
    ensures var (s', answer) := Execute(s, p, host, fate, v);
      answer == TargetMismatch || answer == TargetConflict ==> s' == s
  {
  }

  lemma ServedMovesVersion(s0: Server, host: string, path: Path, intent: Resource -> Intent, s: Server, v: Version)
    requires Prepare(s0, host, path, intent).Some? && path in s0.resources && path in s.resources
    requires s.resources[path] == s0.resources[path] && Unused(s, s.resources[path].uid, v) && Tracked(s)
    ensures var s' := Serve(s, path, Prepare(s0, host, path, intent).value.body, v).0;
      s' != s && path in s'.resources ==> s'.resources[path].version != s0.resources[path].version
  {
  }

  /** Once a prepared action took effect, executing it again never has an effect, whatever anyone
      did before, in between, and whatever became of the answers. */
  lemma RepeatHasNoEffect(s0: Server, host: string, path: Path, intent: Resource -> Intent,
                          before: seq<Event>, v: Version, between: seq<Event>, again: Version)
    requires Tracked(s0) && Prepare(s0, host, path, intent).Some?
    requires var s := Run(s0, before); path in s.resources ==> Unused(s, s.resources[path].uid, v)
    requires var p := Prepare(s0, host, path, intent).value;
      Serve(Run(s0, before), path, p.body, v).0 != Run(s0, before)
    ensures var p := Prepare(s0, host, path, intent).value;
      var s := Run(Serve(Run(s0, before), path, p.body, v).0, between);
      Serve(s, path, p.body, again) .0 == s && Serve(s, path, p.body, again).1 != Applied
  {
    var p := Prepare(s0, host, path, intent).value;
    var s1 := Run(s0, before);
    RunFollows(s0, before);
    ServedOnlyWhenPinned(s0, host, path, intent, s1, v);
    assert Serve(s1, path, p.body, v).1 == Applied;
    ServedMovesVersion(s0, host, path, intent, s1, v);
    ServeFollows(s0, s1, path, p.body, v);
    var s2 := Serve(s1, path, p.body, v).0;
    RunFollows(s2, between);
    var s3 := Run(s2, between);
    ServedOnlyWhenPinned(s0, host, path, intent, s3, again);
    if path in s3.resources && s3.resources[path].uid == s0.resources[path].uid
       && s3.resources[path].version == s0.resources[path].version {
      StillUsed(s0, s1, path);
      ServeKeepsUsed(s1, s2, path, p.body, v, s0.resources[path].uid, s0.resources[path].version);
      assert false;
    }
  }

  lemma StillUsed(s0: Server, s1: Server, path: Path)
    requires Tracked(s0) && MoreUsed(s0, s1) && path in s0.resources
    ensures !Unused(s1, s0.resources[path].uid, s0.resources[path].version)
  {
  }

  lemma ServeKeepsUsed(s1: Server, s2: Server, path: Path, body: Body, v: Version, uid: Uid, version: Version)
    requires !Unused(s1, uid, version) && s2 == Serve(s1, path, body, v).0
    ensures !Unused(s2, uid, version)
  {
  }

  // ---- the Argo rollback patch ----

  predicate Hex40(s: string) {
    |s| == 40 && forall i :: 0 <= i < |s| ==> '0' <= s[i] <= '9' || 'a' <= s[i] <= 'f'
  }

  predicate Digits(s: string) {
    s != "" && forall i :: 0 <= i < |s| ==> '0' <= s[i] <= '9'
  }

  /** `text` is Python's `str`; `nonzero` as for `Truthy`. */
  datatype Python = Python(text: Json -> string, nonzero: string -> bool)

  function SlotOr(r: Resource, slot: string, default: Json): Json {
    if slot in r.slots then r.slots[slot] else default
  }

  function Entries(r: Resource): seq<Json> {
    var h := SlotOr(r, "/status/history", List([]));
    if h.List? then h.items else []
  }

  function EntryId(py: Python, entry: Json): string {
    if entry.Object? then py.text(Get(entry.members, "id", Null)) else ""
  }

  function WithId(py: Python, entries: seq<Json>, id: string): (found: seq<Json>)
    ensures forall e :: e in found ==> e in entries && EntryId(py, e) == id
    ensures forall e :: e in entries && EntryId(py, e) == id ==> e in found
  {
    if entries == [] then []
    else (if EntryId(py, entries[0]) == id then [entries[0]] else []) + WithId(py, entries[1..], id)
  }

  predicate SameOrigin(a: Fields, b: Fields) {
    Get(a, "repoURL", Null) == Get(b, "repoURL", Null) && Get(a, "path", Null) == Get(b, "path", Null)
  }

  /** `_argo_patch` for an Application that passed the ownership checks. */
  function ArgoIntent(py: Python, revision: string, r: Resource): Intent {
    var source := SlotOr(r, "/spec/source", Null);
    var found := WithId(py, Entries(r), revision);
    if !Digits(revision) || !source.Object? || Truthy(py.nonzero, SlotOr(r, "/spec/sources", Null))
       || Truthy(py.nonzero, SlotOr(r, "/operation", Null))
       || (exists i :: 0 <= i < |Entries(r)| && !Entries(r)[i].Object?) || |found| != 1 || !found[0].Object? then Refusal
    else
      var entry := found[0].members;
      var target := Get(entry, "revision", Null);
      var recorded := Get(entry, "source", Null);
      var origin := if Truthy(py.nonzero, recorded) then recorded else Object(map[]);
      if !target.String? || !Hex40(target.text) || !origin.Object? || !SameOrigin(origin.members, source.members)
         || Truthy(py.nonzero, Get(entry, "sources", Null)) then Refusal
      else Change([
        Test("/spec/source", source),
        Replace("/spec/source", Object(source.members["targetRevision" := target])),
        Add("/operation", Object(map[
          "initiatedBy" := Object(map["username" := String("atlasops")]),
          "sync" := Object(map["revision" := target, "prune" := Bool(false)])]))])
  }

  predicate Empty(py: Python, fields: map<string, Json>, key: string) {
    key !in fields || !Truthy(py.nonzero, fields[key])
  }

  /** The one entry of the history with the requested id, in an idle Application with one source. */
  ghost predicate Recorded(py: Python, revision: string, r: Resource, entry: Fields) {
    && Digits(revision) && "/spec/source" in r.slots && r.slots["/spec/source"].Object?
    && Empty(py, r.slots, "/spec/sources") && Empty(py, r.slots, "/operation")
    && "/status/history" in r.slots && r.slots["/status/history"].List?
    && var entries := r.slots["/status/history"].items;
       && (forall e :: e in entries ==> e.Object?)
       && exists i :: SoleEntry(py, entries, revision, i) && entries[i] == Object(entry)
                      && py.text(if "id" in entry then entry["id"] else Null) == revision
  }

  /** The entry is of one commit of the same repository and path. */
  ghost predicate SameSource(py: Python, entry: Fields, source: Fields) {
    && "revision" in entry && entry["revision"].String? && Hex40(entry["revision"].text) && Empty(py, entry, "sources")
    && (Empty(py, entry, "source") || entry["source"].Object?)
    && var recorded := if Empty(py, entry, "source") then map[] else entry["source"].members;
       forall key :: key in {"repoURL", "path"} ==> Get(recorded, key, Null) == Get(source, key, Null)
  }

  ghost predicate SoleEntry(py: Python, entries: seq<Json>, id: string, i: int) {
    && 0 <= i < |entries| && EntryId(py, entries[i]) == id
    && forall j :: 0 <= j < |entries| && EntryId(py, entries[j]) == id ==> j == i
  }

  lemma {:induction false} NoneWithId(py: Python, entries: seq<Json>, id: string)
    ensures WithId(py, entries, id) == [] <==> forall j :: 0 <= j < |entries| ==> EntryId(py, entries[j]) != id
  {
    var found := WithId(py, entries, id);
    if found == [] {
      forall j | 0 <= j < |entries| ensures EntryId(py, entries[j]) != id { assert entries[j] in entries; }
    } else {
      assert found[0] in found;
    }
  }

  /** The two lists of ids are the same from the second entry on. */
  lemma SoleEntryCons(py: Python, entries: seq<Json>, id: string, i: int)
    requires entries != []
    ensures SoleEntry(py, entries, id, i + 1) && EntryId(py, entries[0]) != id <==>
      SoleEntry(py, entries[1..], id, i) && EntryId(py, entries[0]) != id
  {
    if SoleEntry(py, entries, id, i + 1) && EntryId(py, entries[0]) != id {
      forall j | 0 <= j < |entries[1..]| && EntryId(py, entries[1..][j]) == id ensures j == i {
        assert EntryId(py, entries[j + 1]) == id;
      }
    }
    if SoleEntry(py, entries[1..], id, i) && EntryId(py, entries[0]) != id {
      forall j | 0 <= j < |entries| && EntryId(py, entries[j]) == id ensures j == i + 1 {
        assert EntryId(py, entries[1..][j - 1]) == id;
      }
    }
  }

  lemma FirstIsSole(py: Python, entries: seq<Json>, id: string)
    requires entries != [] && EntryId(py, entries[0]) == id
    ensures (exists i :: SoleEntry(py, entries, id, i)) <==> WithId(py, entries[1..], id) == []
  {
    NoneWithId(py, entries[1..], id);
    if WithId(py, entries[1..], id) == [] {
      forall j | 1 <= j < |entries| ensures EntryId(py, entries[j]) != id {
        assert entries[j] == entries[1..][j - 1];
      }
      assert SoleEntry(py, entries, id, 0);
    }
    if i :| SoleEntry(py, entries, id, i) {
      assert i == 0;
      forall j | 0 <= j < |entries[1..]| ensures EntryId(py, entries[1..][j]) != id {
        assert entries[1..][j] == entries[j + 1];
      }
    }
  }

  lemma {:induction false} CountWithId(py: Python, entries: seq<Json>, id: string)
    ensures |WithId(py, entries, id)| == 1 <==> exists i :: SoleEntry(py, entries, id, i)
  {
    if entries != [] {
      if EntryId(py, entries[0]) == id {
        FirstIsSole(py, entries, id);
      } else {
        CountWithId(py, entries[1..], id);
        if i :| SoleEntry(py, entries, id, i) { SoleEntryCons(py, entries, id, i - 1); }
        if i :| SoleEntry(py, entries[1..], id, i) { SoleEntryCons(py, entries, id, i); }
      }
    }
  }

  lemma TheOneFound(py: Python, revision: string, r: Resource, entry: Fields)
    requires Recorded(py, revision, r, entry)
    ensures WithId(py, Entries(r), revision) == [Object(entry)]
  {
    var found := WithId(py, Entries(r), revision);
    CountWithId(py, Entries(r), revision);
    assert found[0] in found;
  }

  /** When a rollback patch is made, and that it then applies to the state it was made from: it points
      the source at the recorded commit, starts the sync to it, and changes nothing else. */
  lemma ArgoPatchRollsBack(py: Python, revision: string, r: Resource)
    ensures ArgoIntent(py, revision, r).Change? <==>
      exists entry: Fields :: Recorded(py, revision, r, entry) && SameSource(py, entry, r.slots["/spec/source"].members)
    ensures forall entry: Fields :: Recorded(py, revision, r, entry) && ArgoIntent(py, revision, r).Change? ==>
      RolledBack(r, Get(entry, "revision", Null), ApplyPatch(r, ArgoIntent(py, revision, r).ops))
  {
    if ArgoIntent(py, revision, r).Change? { MadeFromOneEntry(py, revision, r); }
    forall entry: Fields | Recorded(py, revision, r, entry)
      ensures SameSource(py, entry, r.slots["/spec/source"].members) ==> ArgoIntent(py, revision, r).Change?
      ensures ArgoIntent(py, revision, r).Change? ==>
        RolledBack(r, Get(entry, "revision", Null), ApplyPatch(r, ArgoIntent(py, revision, r).ops))
    {
      TheOneFound(py, revision, r, entry);
      if ArgoIntent(py, revision, r).Change? { MadePatchRollsBack(py, revision, r, entry); }
    }
  }

  lemma MadeFromOneEntry(py: Python, revision: string, r: Resource)
    requires ArgoIntent(py, revision, r).Change?
    ensures exists entry: Fields :: Recorded(py, revision, r, entry) && SameSource(py, entry, r.slots["/spec/source"].members)
  {
    var found := WithId(py, Entries(r), revision);
    CountWithId(py, Entries(r), revision);
    assert found == [found[0]] && found[0] in found;
    var entry := found[0].members;
    assert Recorded(py, revision, r, entry);
    assert SameSource(py, entry, r.slots["/spec/source"].members);
  }

  lemma MadePatchRollsBack(py: Python, revision: string, r: Resource, entry: Fields)
    requires ArgoIntent(py, revision, r).Change? && WithId(py, Entries(r), revision) == [Object(entry)]
    ensures RolledBack(r, Get(entry, "revision", Null), ApplyPatch(r, ArgoIntent(py, revision, r).ops))
  {
    var ops := ArgoIntent(py, revision, r).ops;
    ApplyThree(r, ops[0], ops[1], ops[2]);
    assert ops == [ops[0], ops[1], ops[2]];
  }

  lemma ApplyThree(r: Resource, a: Op, b: Op, c: Op)
    ensures ApplyPatch(r, [a, b, c]) ==
      match ApplyOp(r, a) case None => None case Some(x) =>
      match ApplyOp(x, b) case None => None case Some(y) => ApplyOp(y, c)
  {
    assert [a, b, c] == [a] + [b, c] && [b, c] == [b] + [c];
    ApplyConcat(r, [a], [b, c]);
    ApplyOne(r, a);
    if ApplyOp(r, a).Some? {
      var x := ApplyOp(r, a).value;
      ApplyConcat(x, [b], [c]);
      ApplyOne(x, b);
      if ApplyOp(x, b).Some? { ApplyOne(ApplyOp(x, b).value, c); }
    }
  }

  lemma ApplyOne(r: Resource, a: Op)
    ensures ApplyPatch(r, [a]) == ApplyOp(r, a)
  {
  }

  ghost predicate RolledBack(r: Resource, revision: Json, patched: Option<Resource>) {
    && patched.Some?
    && "/spec/source" in r.slots && "/spec/source" in patched.value.slots && "/operation" in patched.value.slots
    && SourceMoved(r.slots["/spec/source"], patched.value.slots["/spec/source"], revision)
    && revision.String? && Hex40(revision.text)
    && Syncs(patched.value.slots["/operation"], revision)
    && (forall slot :: slot != "/spec/source" && slot != "/operation" ==>
          (slot in patched.value.slots <==> slot in r.slots)
          && (slot in r.slots ==> patched.value.slots[slot] == r.slots[slot]))
  }

  /** The operation, marked as AtlasOps' own, starts a sync to the revision without pruning. */
  predicate Syncs(operation: Json, revision: Json) {
    && operation.Object? && Get(operation.members, "sync", Null).Object?
    && Get(operation.members, "initiatedBy", Null) == Object(map["username" := String("atlasops")])
    && Get(Get(operation.members, "sync", Null).members, "revision", Null) == revision
    && Get(Get(operation.members, "sync", Null).members, "prune", Null) == Bool(false)
  }

  predicate SourceMoved(source: Json, source': Json, revision: Json) {
    source.Object? && source'.Object? && source'.members == source.members["targetRevision" := revision]
  }

  // ---- the rollback template ----

  datatype Owner = Owner(uid: Json, controller: Json)

  /** A ReplicaSet; `revision` is None when its annotation is no integer. */
  datatype ReplicaSet = ReplicaSet(owners: seq<Owner>, revision: Option<int>, template: Fields)

  predicate OwnedBy(rs: ReplicaSet, uid: Uid) {
    exists i :: 0 <= i < |rs.owners| && rs.owners[i].uid == String(uid) && rs.owners[i].controller == Bool(true)
  }

  predicate Prior(rs: ReplicaSet, uid: Uid, current: int) {
    OwnedBy(rs, uid) && rs.revision.Some? && 0 < rs.revision.value < current
  }

  /** The newest owned ReplicaSet older than the current revision, when there is exactly one. */
  ghost predicate NewestPrior(sets: seq<ReplicaSet>, uid: Uid, current: int, k: int) {
    && 0 <= k < |sets| && Prior(sets[k], uid, current)
    && forall j :: 0 <= j < |sets| && j != k && Prior(sets[j], uid, current) ==> sets[j].revision.value < sets[k].revision.value
  }

  /** `_rollback_template`: fails on any malformed revision, on no prior template, and on a tie for
      the newest; the pod-template-hash label is dropped by `clean`. */
  method RollbackTemplate(sets: seq<ReplicaSet>, uid: Uid, current: Option<int>, clean: Fields -> Fields)
    returns (r: Option<Fields>)
    ensures r.Some? ==> current.Some? && (forall j :: 0 <= j < |sets| ==> sets[j].revision.Some?)
                        && exists k :: NewestPrior(sets, uid, current.value, k) && r.value == clean(sets[k].template)
    ensures r.None? ==> current.None? || (exists j :: 0 <= j < |sets| && sets[j].revision.None?)
                        || forall k :: !NewestPrior(sets, uid, current.value, k)
  {
    if current.None? {
      return None;
    }
    var best := -1;
    var tied := false;
    var i := 0;
    while i < |sets|
      invariant 0 <= i <= |sets| && -1 <= best < i
      invariant forall j :: 0 <= j < i ==> sets[j].revision.Some?
      invariant best == -1 ==> !tied && forall j :: 0 <= j < i ==> !Prior(sets[j], uid, current.value)
      invariant best >= 0 ==> Prior(sets[best], uid, current.value)
      invariant best >= 0 ==> forall j :: 0 <= j < i && Prior(sets[j], uid, current.value) ==>
        sets[j].revision.value <= sets[best].revision.value
      invariant best >= 0 ==> (tied <==> exists j :: 0 <= j < i && j != best && Prior(sets[j], uid, current.value)
                                                   && sets[j].revision == sets[best].revision)
    {
      if sets[i].revision.None? {
        return None;
      }
      if Prior(sets[i], uid, current.value) {
        if best == -1 || sets[i].revision.value > sets[best].revision.value {
          best := i;
          tied := false;
        } else if sets[i].revision.value == sets[best].revision.value {
          tied := true;
        }
      }
      i := i + 1;
    }
    if best == -1 || tied {
      return None;
    }
    assert NewestPrior(sets, uid, current.value, best);
    r := Some(clean(sets[best].template));
  }
}
