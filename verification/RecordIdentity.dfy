/** File names as record identities: the writer in agents/coordinator.py against the readers in
    agents/incident_history.py. An incident id may itself look like a follow-up or partial name. */
module RecordIdentity {
  import opened Basics

  const EXECUTION_TAG: string := ".execution-"
  const PARTIAL_TAG: string := ".partial-"
  const SUFFIX: string := ".json"

  const RESERVED: set<string> := {
    "CON", "PRN", "AUX", "NUL",
    "COM1", "COM2", "COM3", "COM4", "COM5", "COM6", "COM7", "COM8", "COM9",
    "LPT1", "LPT2", "LPT3", "LPT4", "LPT5", "LPT6", "LPT7", "LPT8", "LPT9"
  }

  // ---- identifiers ----

  predicate Alnum(c: char) {
    'a' <= c <= 'z' || 'A' <= c <= 'Z' || '0' <= c <= '9'
  }

  function Upper(s: string): string {
    seq(|s|, i requires 0 <= i < |s| => if 'a' <= s[i] <= 'z' then s[i] - 'a' + 'A' else s[i])
  }

  function BeforeDot(s: string): string {
    if s == [] || s[0] == '.' then [] else [s[0]] + BeforeDot(s[1..])
  }

  predicate ValidIncident(s: string) {
    && 0 < |s| <= 128
    && Alnum(s[0]) && Last(s) != '.'
    && (forall i :: 0 <= i < |s| ==> Alnum(s[i]) || s[i] in "._-")
    && Upper(BeforeDot(s)) !in RESERVED
  }

  predicate ValidExecution(s: string) {
    |s| == 32 && forall i :: 0 <= i < |s| ==> '0' <= s[i] <= '9' || 'a' <= s[i] <= 'f'
  }

  // ---- names ----

  function CanonicalName(incident: string): string {
    incident + SUFFIX
  }

  function TaggedName(incident: string, tag: string, execution: string): string {
    incident + tag + execution + SUFFIX
  }

  predicate EndsWith(s: string, end: string) {
    |s| >= |end| && s[|s| - |end|..] == end
  }

  /** Matches `(.+)<tag>([0-9a-f]{32})\.json` against the whole name. */
  function Match(name: string, tag: string): Option<(string, string)> {
    if |name| <= |tag| + 37 || !EndsWith(name, SUFFIX) then None
    else
      var stem := name[..|name| - 5];
      var execution := stem[|stem| - 32..];
      var head := stem[..|stem| - 32];
      if ValidExecution(execution) && EndsWith(head, tag) then Some((head[..|head| - |tag|], execution)) else None
  }

  datatype Kind = Canonical | Execution | Partial

  datatype Identity = Identity(kind: Kind, incident: string, execution: Option<string>)

  datatype Candidate = Candidate(name: string, identities: seq<Identity>, isPartial: bool)

  function CandidateForName(name: string): Option<Candidate> {
    if !EndsWith(name, SUFFIX) then None
    else
      var id := name[..|name| - 5];
      var partial := Match(name, PARTIAL_TAG);
      if partial.Some? then
        if !ValidIncident(id) then None
        else Some(Candidate(name,
          [Identity(Canonical, id, None)]
          + (if ValidIncident(partial.value.0) && ValidExecution(partial.value.1)
             then [Identity(Partial, partial.value.0, Some(partial.value.1))] else []),
          true))
      else
        var execution := Match(name, EXECUTION_TAG);
        var identities :=
          (if execution.Some? && ValidIncident(execution.value.0) && ValidExecution(execution.value.1)
           then [Identity(Execution, execution.value.0, Some(execution.value.1))] else [])
          + (if ValidIncident(id) then [Identity(Canonical, id, None)] else []);
        if identities == [] then None else Some(Candidate(name, identities, false))
  }

  // ---- stored files ----

  datatype Field = Absent | NotText | Text(text: string)

  const MAX_RECORD_BYTES: nat := 1_048_576

  /** The rest of a record, and what matters of its printed form: whether it can be printed at all,
      its size in bytes, whether all its numbers are finite, and whether no object repeats a key
      (the keys 1 and "1" print alike). */
  datatype Payload = Payload(text: string, serialisable: bool, size: nat, finite: bool, distinctKeys: bool)

  /** What the readers accept. The writers check none of it. */
  predicate Fits(p: Payload) {
    p.serialisable && p.size <= MAX_RECORD_BYTES && p.finite && p.distinctKeys
  }

  /** `Unsafe` is no regular file under the root; `Unusable` is too large, not UTF-8 JSON, has
      duplicate keys or a number that is not finite, or is no object. */
  datatype File = Unsafe | Unusable | Doc(incident: Field, execution: Field, payload: Payload)

  type Store = map<string, File>

  datatype Loaded = Found(identity: Identity, doc: File) | NotFound | Unavailable

  predicate Readable(file: File, allowMissing: bool) {
    && file.Doc? && file.incident.Text? && ValidIncident(file.incident.text)
    && (match file.execution
        case Absent => allowMissing
        case NotText => false
        case Text(e) => ValidExecution(e))
  }

  predicate Matches(identity: Identity, file: File)
    requires file.Doc?
  {
    && file.incident == Text(identity.incident)
    && (identity.execution.None? || file.execution == Text(identity.execution.value))
  }

  function Matching(identities: seq<Identity>, file: File): (r: seq<Identity>)
    requires file.Doc?
    ensures forall x :: x in r ==> x in identities && Matches(x, file)
  {
    if identities == [] then []
    else (if Matches(identities[0], file) then [identities[0]] else []) + Matching(identities[1..], file)
  }

  lemma {:induction false} MatchingConcat(a: seq<Identity>, b: seq<Identity>, file: File)
    requires file.Doc?
    ensures Matching(a + b, file) == Matching(a, file) + Matching(b, file)
  {
    if a == [] {
      assert a + b == b;
    } else {
      assert (a + b)[1..] == a[1..] + b;
      MatchingConcat(a[1..], b, file);
    }
  }

  lemma MatchingOne(x: Identity, file: File)
    requires file.Doc?
    ensures Matching([x], file) == if Matches(x, file) then [x] else []
  {
  }

  function Load(store: Store, c: Candidate): Loaded {
    if c.name !in store || store[c.name].Unsafe? then NotFound
    else
      var file := store[c.name];
      if !Readable(file, exists i :: 0 <= i < |c.identities| && c.identities[i].kind == Canonical) then Unavailable
      else
        var matches := Matching(c.identities, file);
        if |matches| == 1 then Found(matches[0], file) else Unavailable
  }

  /** `read_incident_history`. */
  function Read(store: Store, incident: string, execution: Option<string>): Loaded {
    if !ValidIncident(incident) then NotFound
    else match execution
      case None => Load(store, Candidate(CanonicalName(incident), [Identity(Canonical, incident, None)], false))
      case Some(e) =>
        if !ValidExecution(e) then NotFound
        else Load(store, Candidate(TaggedName(incident, EXECUTION_TAG, e),
                                   [Identity(Execution, incident, Some(e))], false))
  }

  /** Whether `list_incident_history` lists the file `name`. */
  predicate Listed(store: Store, name: string) {
    && name in store && !store[name].Unsafe?
    && var c := CandidateForName(name);
       && c.Some?
       && (c.value.isPartial ==>
             var l := Load(store, c.value); l.Found? && l.identity.kind == Canonical)
  }

  /** The page of `list_incident_history` over these names: None when some record is unusable. */
  function Page(store: Store, names: seq<string>): Option<seq<Loaded>> {
    if names == [] then Some([])
    else
      var rest := Page(store, names[..|names| - 1]);
      var c := CandidateForName(Last(names));
      if rest.None? || c.None? || !Load(store, c.value).Found? then None else Some(rest.value + [Load(store, c.value)])
  }

  // ---- the writers ----

  /** A finished record (`_persist_incident_record`) or the remains of a failed episode. */
  datatype Write = Persist(incident: string, execution: string, payload: Payload)
                 | SavePartial(incident: string, execution: string, payload: Payload)

  /** The file a write leaves, as the readers see it. */
  function Stored(w: Write): File {
    if Fits(w.payload) then Doc(Text(w.incident), Text(w.execution), w.payload) else Unusable
  }

  datatype Outcome = Written(name: string) | FileExists | ValueError | Unserialisable

  function WriteStep(store: Store, w: Write): (Store, Outcome) {
    var canonical := CanonicalName(w.incident);
    match w
    case Persist(incident, execution, _) =>
      if !ValidIncident(incident) || !ValidExecution(execution) then (store, ValueError)
      else if !w.payload.serialisable then (store, Unserialisable)
      else
        var followup := TaggedName(incident, EXECUTION_TAG, execution);
        if canonical !in store then (store[canonical := Stored(w)], Written(canonical))
        else if followup !in store then (store[followup := Stored(w)], Written(followup))
        else (store, FileExists)
    case SavePartial(incident, execution, _) =>
      var name := TaggedName(incident, PARTIAL_TAG, execution);
      // the file is created before the record is printed into it
      if name !in store then (store[name := Stored(w)], if w.payload.serialisable then Written(name) else Unserialisable)
      else (store, FileExists)
  }

  function Run(start: Store, writes: seq<Write>): Store {
    if writes == [] then start else WriteStep(Run(start, writes[..|writes| - 1]), Last(writes)).0
  }

  // ---- the codec ----

  lemma TaggedNameParts(incident: string, tag: string, execution: string)
    requires ValidExecution(execution)
    ensures var name := TaggedName(incident, tag, execution);
      && EndsWith(name, SUFFIX) && |name| == |incident| + |tag| + 37
      && name[..|name| - 5] == incident + tag + execution
  {
  }

  /** Matching a tagged name gives back its two parts, however the incident id is spelled. */
  lemma MatchRoundTrip(incident: string, tag: string, execution: string)
    requires incident != [] && ValidExecution(execution)
    ensures Match(TaggedName(incident, tag, execution), tag) == Some((incident, execution))
  {
  }

  /** A match is exactly a tagged name. */
  lemma MatchInverts(name: string, tag: string)
    requires Match(name, tag).Some?
    ensures var m := Match(name, tag).value;
      m.0 != [] && ValidExecution(m.1) && name == TaggedName(m.0, tag, m.1)
  {
  }

  /** A name is not both a follow-up name and a partial name. */
  lemma TagsExclude(incident: string, execution: string)
    requires ValidExecution(execution)
    ensures Match(TaggedName(incident, EXECUTION_TAG, execution), PARTIAL_TAG) == None
  {
    var name := TaggedName(incident, EXECUTION_TAG, execution);
    TaggedNameParts(incident, EXECUTION_TAG, execution);
    var stem := incident + EXECUTION_TAG + execution;
    var head := stem[..|stem| - 32];
    assert head == incident + EXECUTION_TAG;
    assert head[|head| - 9..] == EXECUTION_TAG[2..] && EXECUTION_TAG[2..][0] != PARTIAL_TAG[0];
  }

  // ---- main results ----

  /** The identity under which a written file must be found again. */
  function OwnIdentity(w: Write, name: string): Identity {
    if w.SavePartial? then Identity(Partial, w.incident, Some(w.execution))
    else if name == CanonicalName(w.incident) then Identity(Canonical, w.incident, None)
    else Identity(Execution, w.incident, Some(w.execution))
  }

  predicate NameFor(w: Write, name: string) {
    && ValidIncident(w.incident) && ValidExecution(w.execution)
    && match w
       case Persist(i, e, _) => name == CanonicalName(i) || name == TaggedName(i, EXECUTION_TAG, e)
       case SavePartial(i, e, _) => name == TaggedName(i, PARTIAL_TAG, e)
  }

  lemma CanonicalResolves(incident: string, file: File)
    requires ValidIncident(incident) && file.Doc? && file.incident == Text(incident)
    ensures var c := CandidateForName(CanonicalName(incident));
      && c.Some? && Identity(Canonical, incident, None) in c.value.identities
      && Matching(c.value.identities, file) == [Identity(Canonical, incident, None)]
  {
    var name := CanonicalName(incident);
    assert name[..|name| - 5] == incident && EndsWith(name, SUFFIX);
    var own := Identity(Canonical, incident, None);
    MatchingOne(own, file);
    var partial, followup := Match(name, PARTIAL_TAG), Match(name, EXECUTION_TAG);
    if partial.Some? {
      ShorterIncident(name, PARTIAL_TAG, incident);
      var other := Identity(Partial, partial.value.0, Some(partial.value.1));
      MatchingOne(other, file);
      MatchingConcat([own], [other], file);
    } else if followup.Some? {
      ShorterIncident(name, EXECUTION_TAG, incident);
      var other := Identity(Execution, followup.value.0, Some(followup.value.1));
      MatchingOne(other, file);
      MatchingConcat([other], [own], file);
    }
  }

  lemma ShorterIncident(name: string, tag: string, incident: string)
    requires Match(name, tag).Some? && name == CanonicalName(incident)
    ensures Match(name, tag).value.0 != incident
  {
  }

  lemma FollowupResolves(incident: string, execution: string, file: File)
    requires ValidIncident(incident) && ValidExecution(execution)
    requires file.Doc? && file.incident == Text(incident) && file.execution == Text(execution)
    ensures var c := CandidateForName(TaggedName(incident, EXECUTION_TAG, execution));
      c.Some? && !c.value.isPartial
      && Matching(c.value.identities, file) == [Identity(Execution, incident, Some(execution))]
  {
    TaggedNameParts(incident, EXECUTION_TAG, execution);
    MatchRoundTrip(incident, EXECUTION_TAG, execution);
    TagsExclude(incident, execution);
    var own, other := Identity(Execution, incident, Some(execution)), Identity(Canonical, incident + EXECUTION_TAG + execution, None);
    MatchingOne(own, file);
    MatchingOne(other, file);
    MatchingConcat([own], [other], file);
    assert incident + EXECUTION_TAG + execution != incident by {
      assert |incident + EXECUTION_TAG + execution| > |incident|;
    }
  }

  lemma PartialResolves(incident: string, execution: string, file: File)
    requires ValidIncident(incident) && ValidExecution(execution)
    requires file.Doc? && file.incident == Text(incident) && file.execution == Text(execution)
    ensures var c := CandidateForName(TaggedName(incident, PARTIAL_TAG, execution));
      c.Some? ==> c.value.isPartial
                  && Matching(c.value.identities, file) == [Identity(Partial, incident, Some(execution))]
  {
    TaggedNameParts(incident, PARTIAL_TAG, execution);
    MatchRoundTrip(incident, PARTIAL_TAG, execution);
    var own, other := Identity(Partial, incident, Some(execution)), Identity(Canonical, incident + PARTIAL_TAG + execution, None);
    MatchingOne(own, file);
    MatchingOne(other, file);
    MatchingConcat([other], [own], file);
    assert incident + PARTIAL_TAG + execution != incident by {
      assert |incident + PARTIAL_TAG + execution| > |incident|;
    }
  }

  /** A written file that the readers accept is found again under exactly its own identity, and any
      other file is unavailable. Finished records are listed and partial ones are not; only a
      finished record that does not fit and whose name looks like a partial one is not listed either.
      (A partial name that is too long for an id is no candidate at all.) */
  lemma WrittenResolvesToItself(store: Store, w: Write, name: string)
    requires NameFor(w, name) && name in store && store[name] == Stored(w)
    ensures var c := CandidateForName(name);
      && (w.Persist? ==> c.Some?)
      && (c.Some? ==> Load(store, c.value) == if Fits(w.payload) then Found(OwnIdentity(w, name), Stored(w)) else Unavailable)
      && (Listed(store, name) <==> w.Persist? && (Fits(w.payload) || !c.value.isPartial))
  {
    var file := Doc(Text(w.incident), Text(w.execution), w.payload);
    if w.SavePartial? {
      PartialResolves(w.incident, w.execution, file);
    } else if name == CanonicalName(w.incident) {
      CanonicalResolves(w.incident, file);
    } else {
      FollowupResolves(w.incident, w.execution, file);
    }
    var c := CandidateForName(name);
    if c.Some? { LoadDecides(store, c.value, OwnIdentity(w, name), w.payload); }
  }

  lemma LoadDecides(store: Store, c: Candidate, own: Identity, p: Payload)
    requires ValidIncident(own.incident) && c.name in store
    requires store[c.name] == Unusable || store[c.name].Doc?
    requires store[c.name].Doc? ==>
      && Readable(store[c.name], false) && store[c.name].payload == p && Matching(c.identities, store[c.name]) == [own]
    ensures Load(store, c) == if store[c.name].Doc? then Found(own, store[c.name]) else Unavailable
  {
  }

  /** An unusable record on a page makes the whole page fail. */
  lemma {:induction false} UnusableBreaksPage(store: Store, names: seq<string>, name: string)
    requires name in names && CandidateForName(name).Some? && !Load(store, CandidateForName(name).value).Found?
    ensures Page(store, names).None?
  {
    if name != Last(names) {
      assert names == names[..|names| - 1] + [Last(names)];
      UnusableBreaksPage(store, names[..|names| - 1], name);
    }
  }

  predicate CanLoad(store: Store, name: string) {
    CandidateForName(name).Some? && Load(store, CandidateForName(name).value).Found?
  }

  /** A page is given exactly when each of its candidates loads, and then holds all of them in order. */
  lemma {:induction false} PageHoldsAll(store: Store, names: seq<string>)
    ensures Page(store, names).Some? <==> forall name :: name in names ==> CanLoad(store, name)
    ensures Page(store, names).Some? ==>
      && |Page(store, names).value| == |names|
      && forall i :: 0 <= i < |names| && CanLoad(store, names[i]) ==>
           Page(store, names).value[i] == Load(store, CandidateForName(names[i]).value)
  {
    if names != [] {
      var init, last := names[..|names| - 1], Last(names);
      PageHoldsAll(store, init);
      assert names == init + [last];
      assert forall name :: name in names <==> name in init || name == last;
      assert last in names;
      assert Page(store, names).Some? <==> Page(store, init).Some? && CanLoad(store, last);
    }
  }

  ghost predicate HasTag(name: string, tag: string, incident: string, execution: string) {
    incident != [] && ValidExecution(execution) && name == TaggedName(incident, tag, execution)
  }

  /** Which names can be records: those of a valid incident id, and follow-up names of one. A partial
      name counts only by its whole id. */
  lemma CandidateIff(name: string)
    ensures CandidateForName(name).Some? <==>
      || (exists id :: ValidIncident(id) && name == CanonicalName(id))
      || ((exists incident, execution :: ValidIncident(incident) && HasTag(name, EXECUTION_TAG, incident, execution))
          && !exists incident, execution :: HasTag(name, PARTIAL_TAG, incident, execution))
    ensures CandidateForName(name).Some? ==>
      (CandidateForName(name).value.isPartial <==> exists incident, execution :: HasTag(name, PARTIAL_TAG, incident, execution))
  {
    if EndsWith(name, SUFFIX) {
      assert name == CanonicalName(name[..|name| - 5]);
      MatchIff(name, EXECUTION_TAG);
      MatchIff(name, PARTIAL_TAG);
    }
    if id :| ValidIncident(id) && name == CanonicalName(id) { assert id == name[..|name| - 5]; }
  }

  lemma MatchIff(name: string, tag: string)
    ensures Match(name, tag).Some? <==> exists incident, execution :: HasTag(name, tag, incident, execution)
    ensures Match(name, tag).Some? ==> HasTag(name, tag, Match(name, tag).value.0, Match(name, tag).value.1)
    ensures forall incident, execution :: HasTag(name, tag, incident, execution) ==> Match(name, tag) == Some((incident, execution))
  {
    if Match(name, tag).Some? { MatchInverts(name, tag); }
    forall incident, execution | HasTag(name, tag, incident, execution) ensures Match(name, tag) == Some((incident, execution)) {
      MatchRoundTrip(incident, tag, execution);
    }
  }

  /** What a write's answer tells: one that was written is in a file of its own that was not there,
      one refused left nothing; a partial record that cannot be printed leaves an unusable file. */
  lemma AnswerTells(store: Store, w: Write)
    ensures var (store', answer) := WriteStep(store, w);
      match answer
      case Written(name) =>
        && w.payload.serialisable && name !in store && store' == store[name := Stored(w)]
        && name in (if w.Persist? then {CanonicalName(w.incident), TaggedName(w.incident, EXECUTION_TAG, w.execution)}
                    else {TaggedName(w.incident, PARTIAL_TAG, w.execution)})
      case Unserialisable =>
        !w.payload.serialisable
        && if w.Persist? then store' == store
           else var name := TaggedName(w.incident, PARTIAL_TAG, w.execution); name !in store && store' == store[name := Unusable]
      case _ => store' == store
  {
  }

  /** A read answers with a record exactly when the named file holds one with the requested ids,
      so it never returns a record with another identity. */
  lemma ReadsOnlyItsOwnIdentity(store: Store, incident: string, execution: Option<string>)
    ensures Read(store, incident, execution).Found? <==>
      && ValidIncident(incident) && (execution.Some? ==> ValidExecution(execution.value))
      && var name := if execution.None? then CanonicalName(incident)
                     else TaggedName(incident, EXECUTION_TAG, execution.value);
         && name in store && store[name].Doc? && store[name].incident == Text(incident)
         && (match execution
             case None => store[name].execution == Absent
                          || (store[name].execution.Text? && ValidExecution(store[name].execution.text))
             case Some(e) => store[name].execution == Text(e))
    ensures Read(store, incident, execution).Found? ==>
      var name := if execution.None? then CanonicalName(incident) else TaggedName(incident, EXECUTION_TAG, execution.value);
      Read(store, incident, execution).doc == store[name]
    ensures Read(store, incident, execution) == NotFound <==>
      || !ValidIncident(incident) || (execution.Some? && !ValidExecution(execution.value))
      || var name := if execution.None? then CanonicalName(incident) else TaggedName(incident, EXECUTION_TAG, execution.value);
         name !in store || store[name] == Unsafe
  {
    if ValidIncident(incident) && (execution.Some? ==> ValidExecution(execution.value)) {
      var name := if execution.None? then CanonicalName(incident)
                  else TaggedName(incident, EXECUTION_TAG, execution.value);
      var identity := if execution.None? then Identity(Canonical, incident, None)
                      else Identity(Execution, incident, execution);
      SingleLoad(store, Candidate(name, [identity], false), identity);
    }
  }

  lemma SingleLoad(store: Store, c: Candidate, identity: Identity)
    requires c.identities == [identity]
    ensures Load(store, c).Found? <==>
      c.name in store && Readable(store[c.name], identity.kind == Canonical) && Matches(identity, store[c.name])
    ensures Load(store, c).Found? ==> Load(store, c) == Found(identity, store[c.name])
  {
    assert (exists i :: 0 <= i < |c.identities| && c.identities[i].kind == Canonical) <==> identity.kind == Canonical by {
      assert c.identities[0] == identity;
    }
    if c.name in store && store[c.name].Doc? {
      assert Matching([], store[c.name]) == [];
      assert c.identities[1..] == [];
    }
  }

  /** No write ever changes a file that exists. */
  lemma {:induction false} WritesNeverOverwrite(start: Store, writes: seq<Write>)
    ensures forall name :: name in start ==> name in Run(start, writes) && Run(start, writes)[name] == start[name]
  {
    if writes != [] { WritesNeverOverwrite(start, writes[..|writes| - 1]); }
  }

  /** A record that was persisted is readable under its own identity after all later writes (as the
      canonical record of its incident, or else as its exact execution) exactly when it fits what the
      readers accept; otherwise it is unavailable for ever, and no later write repairs it. */
  lemma PersistedReadableIffFits(start: Store, w: Write, later: seq<Write>)
    requires w.Persist? && WriteStep(start, w).1.Written?
    ensures var name := WriteStep(start, w).1.name; var c := CandidateForName(name);
      var store := Run(WriteStep(start, w).0, later);
      var fits := w.payload.size <= 1_048_576 && w.payload.finite && w.payload.distinctKeys;
      var answer :=
        if fits then Found(OwnIdentity(w, name), Doc(Text(w.incident), Text(w.execution), w.payload)) else Unavailable;
      && c.Some? && Load(store, c.value) == answer
      && Read(store, w.incident, if name == CanonicalName(w.incident) then None else Some(w.execution)) == answer
      && (Listed(store, name) <==> fits || !c.value.isPartial)
  {
    var store := Run(WriteStep(start, w).0, later);
    var name := WriteStep(start, w).1.name;
    WritesNeverOverwrite(WriteStep(start, w).0, later);
    WrittenResolvesToItself(store, w, name);
    var identity := OwnIdentity(w, name);
    SingleLoad(store, Candidate(name, [identity], false), identity);
  }

  /** For example a record of two mebibytes: it is written, can never be read, and makes every
      listing page that it is on fail. */
  lemma OversizedRecordIsLost(incident: string, execution: string, text: string, later: seq<Write>, names: seq<string>)
    requires ValidIncident(incident) && ValidExecution(execution) && CanonicalName(incident) in names
    ensures var w := Persist(incident, execution, Payload(text, true, 2 * MAX_RECORD_BYTES, true, true));
      var store := Run(WriteStep(map[], w).0, later);
      && WriteStep(map[], w).1 == Written(CanonicalName(incident))
      && Read(store, incident, None) == Unavailable && Page(store, names).None?
  {
    var w := Persist(incident, execution, Payload(text, true, 2 * MAX_RECORD_BYTES, true, true));
    PersistedReadableIffFits(map[], w, later);
    UnusableBreaksPage(Run(WriteStep(map[], w).0, later), names, CanonicalName(incident));
  }

  // ---- when a record is refused ----

  /** The write reaches the point where it opens a file. */
  predicate Attempts(w: Write) {
    w.Persist? && ValidIncident(w.incident) && ValidExecution(w.execution) && w.payload.serialisable
  }

  /** Execution ids are checked before an episode starts, so partial writers have a valid one. */
  predicate FromEpisodes(writes: seq<Write>) {
    forall w :: w in writes && w.SavePartial? ==> ValidExecution(w.execution)
  }

  /** Write `j` makes sure that the canonical name of `incident` is taken: a record of the same
      incident, a partial whose stem spells the incident's id, or a repeated record whose follow-up
      stem does. */
  ghost predicate TakesCanonical(writes: seq<Write>, j: nat, incident: string)
    requires j < |writes|
    decreases j, 2
  {
    var w := writes[j];
    || (Attempts(w) && w.incident == incident)
    || (w.SavePartial? && w.incident + PARTIAL_TAG + w.execution == incident)
    || (Repeats(writes, j) && w.incident + EXECUTION_TAG + w.execution == incident)
  }

  /** Write `j` is a record for which the canonical name was taken before. */
  ghost predicate Repeats(writes: seq<Write>, j: nat)
    requires j < |writes|
    decreases j, 1
  {
    Attempts(writes[j]) && Taken(writes, j, writes[j].incident)
  }

  /** One of the first `n` writes takes the canonical name of `incident`. */
  ghost predicate Taken(writes: seq<Write>, n: nat, incident: string)
    requires n <= |writes|
    decreases n, 0
  {
    exists j :: 0 <= j < n && TakesCanonical(writes, j, incident)
  }

  /** Write `j` makes sure that the follow-up name is taken: a record of an incident whose id spells
      it, or a repeated record with the same ids. */
  ghost predicate TakesFollowup(writes: seq<Write>, j: nat, incident: string, execution: string)
    requires j < |writes|
  {
    var w := writes[j];
    || (Attempts(w) && w.incident == incident + EXECUTION_TAG + execution)
    || (Repeats(writes, j) && w.incident == incident && w.execution == execution)
  }

  lemma StemsDecide(a: string, b: string)
    ensures CanonicalName(a) == CanonicalName(b) <==> a == b
    ensures forall tag, execution :: TaggedName(a, tag, execution) == CanonicalName(a + tag + execution)
  {
    assert CanonicalName(a)[..|a|] == a;
    assert CanonicalName(b)[..|b|] == b;
  }

  lemma SameFollowup(i: string, e: string, i': string, e': string)
    requires ValidExecution(e) && ValidExecution(e')
    ensures i + EXECUTION_TAG + e == i' + EXECUTION_TAG + e' <==> i == i' && e == e'
    ensures i + EXECUTION_TAG + e != i' + PARTIAL_TAG + e'
  {
    var a, b, c := i + EXECUTION_TAG + e, i' + EXECUTION_TAG + e', i' + PARTIAL_TAG + e';
    assert a[|a| - 32..] == e && b[|b| - 32..] == e';
    assert a[..|i|] == i && b[..|i'|] == i';
    assert a[|a| - 34] == EXECUTION_TAG[9] && c[|c| - 34] == PARTIAL_TAG[7];
  }

  /** The names that exist after a write. */
  lemma StepNames(s: Store, w: Write, name: string)
    ensures name in WriteStep(s, w).0 <==>
      || name in s
      || (Attempts(w) && name == CanonicalName(w.incident))
      || (Attempts(w) && name == TaggedName(w.incident, EXECUTION_TAG, w.execution) && CanonicalName(w.incident) in s)
      || (w.SavePartial? && name == TaggedName(w.incident, PARTIAL_TAG, w.execution))
  {
  }

  lemma StepStems(s: Store, w: Write, stem: string)
    ensures CanonicalName(stem) in WriteStep(s, w).0 <==>
      || CanonicalName(stem) in s
      || (Attempts(w) && w.incident == stem)
      || (Attempts(w) && w.incident + EXECUTION_TAG + w.execution == stem && CanonicalName(w.incident) in s)
      || (w.SavePartial? && w.incident + PARTIAL_TAG + w.execution == stem)
  {
    StepNames(s, w, CanonicalName(stem));
    StemsDecide(w.incident, stem);
    StemsDecide(w.incident + EXECUTION_TAG + w.execution, stem);
    StemsDecide(w.incident + PARTIAL_TAG + w.execution, stem);
  }

  lemma TakenNext(writes: seq<Write>, n: nat, incident: string)
    requires n < |writes|
    ensures Taken(writes, n + 1, incident) <==> Taken(writes, n, incident) || TakesCanonical(writes, n, incident)
  {
  }

  lemma {:induction false} CanonicalTakenIff(writes: seq<Write>, n: nat, incident: string)
    requires n <= |writes|
    ensures CanonicalName(incident) in Run(map[], writes[..n]) <==> Taken(writes, n, incident)
  {
    if n > 0 {
      var w := writes[n - 1];
      assert writes[..n][..n - 1] == writes[..n - 1] && Last(writes[..n]) == w;
      CanonicalTakenIff(writes, n - 1, incident);
      CanonicalTakenIff(writes, n - 1, w.incident);
      StepStems(Run(map[], writes[..n - 1]), w, incident);
      TakenNext(writes, n - 1, incident);
    }
  }

  /** A stem that is a follow-up's is spelled by the two kinds of writes that take its name. */
  lemma FollowupSpelled(writes: seq<Write>, j: nat, incident: string, execution: string, stem: string)
    requires j < |writes| && FromEpisodes(writes) && ValidExecution(execution) && stem == incident + EXECUTION_TAG + execution
    ensures TakesCanonical(writes, j, stem) <==> TakesFollowup(writes, j, incident, execution)
  {
    assert writes[j] in writes;
    if ValidExecution(writes[j].execution) { SameFollowup(incident, execution, writes[j].incident, writes[j].execution); }
  }

  lemma FollowupTakenIff(writes: seq<Write>, incident: string, execution: string)
    requires FromEpisodes(writes) && ValidExecution(execution)
    ensures TaggedName(incident, EXECUTION_TAG, execution) in Run(map[], writes) <==>
      exists j :: 0 <= j < |writes| && TakesFollowup(writes, j, incident, execution)
  {
    var stem := incident + EXECUTION_TAG + execution;
    StemsDecide(incident, stem);
    StemTaken(writes, incident, execution, stem);
  }

  lemma StemTaken(writes: seq<Write>, incident: string, execution: string, stem: string)
    requires FromEpisodes(writes) && ValidExecution(execution) && stem == incident + EXECUTION_TAG + execution
    ensures CanonicalName(stem) in Run(map[], writes) <==>
      exists j :: 0 <= j < |writes| && TakesFollowup(writes, j, incident, execution)
  {
    assert writes[..|writes|] == writes;
    CanonicalTakenIff(writes, |writes|, stem);
    forall j | 0 <= j < |writes| ensures TakesCanonical(writes, j, stem) <==> TakesFollowup(writes, j, incident, execution) {
      FollowupSpelled(writes, j, incident, execution, stem);
    }
  }

  /** After any writes, a valid record is refused if and only if some earlier write took its
      canonical name (a record of the same incident, a partial whose stem spells it, or a repeated
      record whose follow-up stem does) and some earlier write took its follow-up name (a record of
      an incident whose id spells it, or a repeated record with the same ids). */
  lemma PersistRefusedIff(writes: seq<Write>, w: Write)
    requires FromEpisodes(writes) && Attempts(w)
    ensures WriteStep(Run(map[], writes), w).1 == FileExists <==>
      && Taken(writes, |writes|, w.incident)
      && (exists k :: 0 <= k < |writes| && TakesFollowup(writes, k, w.incident, w.execution))
  {
    assert writes[..|writes|] == writes;
    CanonicalTakenIff(writes, |writes|, w.incident);
    FollowupTakenIff(writes, w.incident, w.execution);
  }

  /** So a record can be refused although no record with its identity was ever written: an incident
      whose own id is the follow-up name holds that name. */
  lemma DistinctRecordsCanClash(incident: string, execution: string, first: string, second: string, payload: Payload)
    requires ValidIncident(incident) && ValidIncident(incident + EXECUTION_TAG + execution)
    requires ValidExecution(execution) && ValidExecution(first) && ValidExecution(second) && first != execution
    requires payload.serialisable
    ensures var taken := Run(map[], [Persist(incident, first, payload),
                                     Persist(incident + EXECUTION_TAG + execution, second, payload)]);
      && WriteStep(taken, Persist(incident, execution, payload)).1 == FileExists
      && forall name :: name in taken ==>
           !(taken[name].Doc? && taken[name].incident == Text(incident) && taken[name].execution == Text(execution))
  {
    var other := incident + EXECUTION_TAG + execution;
    var writes := [Persist(incident, first, payload), Persist(other, second, payload)];
    assert writes[..1] == [writes[0]] && writes[..1][..0] == [];
    var one := Run(map[], writes[..1]);
    assert Run(map[], writes[..1][..0]) == map[];
    assert one == WriteStep(map[], Last(writes[..1])).0;
    assert CanonicalName(other) == TaggedName(incident, EXECUTION_TAG, execution);
    assert |CanonicalName(other)| > |CanonicalName(incident)|;
    assert Run(map[], writes) == WriteStep(one, writes[1]).0;
    assert |other| > |incident|;
  }

  // ---- the directory as an object ----

  class TrajectoryStore {
    var files: Store

    constructor ()
      ensures files == map[]
    {
      files := map[];
    }

    /** Opening with mode "x": creates the file or fails. */
    method CreateExclusive(name: string, file: File) returns (ok: bool)
      modifies this
      ensures ok <==> name !in old(files)
      ensures files == if ok then old(files)[name := file] else old(files)
    {
      if name in files {
        return false;
      }
      files := files[name := file];
      ok := true;
    }

    method Persist(incident: string, execution: string, payload: Payload) returns (r: Outcome)
      modifies this
      ensures (files, r) == WriteStep(old(files), Write.Persist(incident, execution, payload))
    {
      if !ValidIncident(incident) || !ValidExecution(execution) {
        return ValueError;
      }
      if !payload.serialisable {
        return Unserialisable;
      }
      var doc := Stored(Write.Persist(incident, execution, payload));
      var name := CanonicalName(incident);
      var ok := CreateExclusive(name, doc);
      if !ok {
        name := TaggedName(incident, EXECUTION_TAG, execution);
        ok := CreateExclusive(name, doc);
      }
      r := if ok then Written(name) else FileExists;
    }

    method SavePartial(incident: string, execution: string, payload: Payload) returns (r: Outcome)
      modifies this
      ensures (files, r) == WriteStep(old(files), Write.SavePartial(incident, execution, payload))
    {
      var name := TaggedName(incident, PARTIAL_TAG, execution);
      var ok := CreateExclusive(name, Stored(Write.SavePartial(incident, execution, payload)));
      r := if !ok then FileExists else if payload.serialisable then Written(name) else Unserialisable;
    }
  }
}
