/** The append-only, hash-chained audit log of agents/audit.py. A file is its list of lines. */
module Audit {
  import opened Basics
  import opened Evidence

  /** What a caller of `record` supplies; the summary is taken after redaction and truncation. */
  datatype Input = Input(
    ts: string, incident: string, role: string, action: string, tool: string, args: Fields,
    summary: string, approvedBy: string, policy: string)

  datatype Log = Log(lines: seq<string>, last: string)

  const SIGNATURE := "signature"
  const ENTRY_HASH := "entry_hash"

  // ---- entries ----

  function Body(c: Codec, input: Input, prev: string): Fields {
    map[
      "ts" := Number(input.ts),
      "incident_id" := String(input.incident),
      "agent_role" := String(input.role),
      "action_type" := String(input.action),
      "tool_name" := String(input.tool),
      "tool_args_hash" := String(c.sha(c.canonical(input.args))),
      "result_summary" := String(input.summary),
      "approved_by" := String(input.approvedBy),
      "policy_check" := String(input.policy),
      "prev_hash" := String(prev)
    ]
  }

  function EntryHash(c: Codec, body: Fields): string {
    c.sha(c.canonical(body) + c.mac(c.canonical(body)))
  }

  function Entry(c: Codec, body: Fields): Fields {
    body[SIGNATURE := String(c.mac(c.canonical(body)))][ENTRY_HASH := String(EntryHash(c, body))]
  }

  function Unsealed(entry: Fields): Fields {
    entry - {SIGNATURE, ENTRY_HASH}
  }

  function SignatureText(c: Codec, entry: Fields): string {
    c.text(Get(entry, SIGNATURE, String("")))
  }

  function HashText(c: Codec, entry: Fields): string {
    c.text(Get(entry, ENTRY_HASH, String("")))
  }

  /** The record on a line (no fields when the line holds no object). */
  function RecordAt(c: Codec, line: string): Fields {
    match c.loads(line) case Record(f) => f case _ => map[]
  }

  function RecordStep(c: Codec, log: Log, input: Input): Log {
    var entry := Entry(c, Body(c, input, log.last));
    Log(log.lines + [c.line(entry)], HashText(c, entry))
  }

  /** `_load_last_hash`: fails on a last line that is JSON but not an object. */
  function LoadLastHash(c: Codec, lines: seq<string>): Result<string> {
    if lines == [] then Ok("")
    else match c.loads(Last(lines))
      case NotJson => Ok("")
      case NotObject => Err("attribute_error")
      case Record(f) => Ok(HashText(c, f))
  }

  // ---- acceptance ----

  datatype Fault = InvalidJson | InvalidRecord | ChainMismatch | SignatureMismatch | EntryHashMismatch

  /** What is wrong with a line that follows an entry whose hash is `prev`. */
  function FaultOf(c: Codec, line: string, prev: string): Option<Fault> {
    match c.loads(line)
    case NotJson => Some(InvalidJson)
    case NotObject => Some(InvalidRecord)
    case Record(f) =>
      var canonical := c.canonical(Unsealed(f));
      if Get(f, "prev_hash", String("")) != String(prev) then Some(ChainMismatch)
      else if c.mac(canonical) != SignatureText(c, f) then Some(SignatureMismatch)
      else if c.sha(canonical + SignatureText(c, f)) != HashText(c, f) then Some(EntryHashMismatch)
      else None
  }

  function HashBefore(c: Codec, lines: seq<string>, i: nat): string
    requires i <= |lines|
  {
    if i == 0 then "" else HashText(c, RecordAt(c, lines[i - 1]))
  }

  function FaultAt(c: Codec, lines: seq<string>, i: nat): Option<Fault>
    requires i < |lines|
  {
    FaultOf(c, lines[i], HashBefore(c, lines, i))
  }

  ghost predicate Accepted(c: Codec, lines: seq<string>) {
    forall i :: 0 <= i < |lines| ==> FaultAt(c, lines, i) == None
  }

  datatype Integrity = Intact(entries: nat, records: seq<Fields>) | Broken(fault: Fault, line: nat)

  function Records(c: Codec, lines: seq<string>): (r: seq<Fields>)
    ensures |r| == |lines| && forall i :: 0 <= i < |lines| ==> r[i] == RecordAt(c, lines[i])
  {
    seq(|lines|, i requires 0 <= i < |lines| => RecordAt(c, lines[i]))
  }

  lemma RecordsSnoc(c: Codec, lines: seq<string>, i: nat)
    requires i < |lines|
    ensures Records(c, lines[..i + 1]) == Records(c, lines[..i]) + [RecordAt(c, lines[i])]
  {
  }

  /** Broken at the first faulty line (counted from one), or intact with every record in order. */
  ghost predicate IntegrityOf(c: Codec, lines: seq<string>, r: Integrity) {
    match r
    case Intact(n, records) => Accepted(c, lines) && n == |lines| && records == Records(c, lines)
    case Broken(fault, line) =>
      && 0 < line <= |lines| && FaultAt(c, lines, line - 1) == Some(fault)
      && forall i :: 0 <= i < line - 1 ==> FaultAt(c, lines, i) == None
  }

  // ---- completeness: every log that is only appended to, across restarts, is accepted ----

  /** `Restart` reopens the file. */
  datatype Event = RecordCall(input: Input) | Restart

  function Step(c: Codec, log: Log, e: Event): Log {
    match e
    case RecordCall(input) => RecordStep(c, log, input)
    case Restart => (match LoadLastHash(c, log.lines) case Ok(h) => log.(last := h) case Err(_) => log)
  }

  function Run(c: Codec, start: Log, events: seq<Event>): Log {
    if events == [] then start else Step(c, Run(c, start, events[..|events| - 1]), Last(events))
  }

  function Inputs(events: seq<Event>): seq<Input> {
    if events == [] then []
    else Inputs(events[..|events| - 1]) + match Last(events) case RecordCall(x) => [x] case Restart => []
  }

  /** The log is accepted and the hash in memory is that of its last entry. */
  ghost predicate Current(c: Codec, log: Log) {
    Accepted(c, log.lines) && log.last == HashBefore(c, log.lines, |log.lines|)
  }

  lemma EntryIsSound(c: Codec, input: Input, prev: string)
    requires Sound(c)
    ensures FaultOf(c, c.line(Entry(c, Body(c, input, prev))), prev) == None
  {
    var body := Body(c, input, prev);
    var entry := Entry(c, body);
    assert c.loads(c.line(entry)) == Record(entry);
    assert Unsealed(entry) == body;
    assert SignatureText(c, entry) == c.mac(c.canonical(body));
  }

  lemma RecordIsAccepted(c: Codec, log: Log, input: Input)
    requires Sound(c) && Current(c, log)
    ensures Current(c, RecordStep(c, log, input))
  {
    var log' := RecordStep(c, log, input);
    EntryIsSound(c, input, log.last);
    assert c.loads(Last(log'.lines)) == Record(Entry(c, Body(c, input, log.last)));
    forall i | 0 <= i < |log'.lines| ensures FaultAt(c, log'.lines, i) == None {
      assert i < |log.lines| ==> FaultAt(c, log.lines, i) == None;
      assert HashBefore(c, log'.lines, i) == HashBefore(c, log.lines, i);
    }
  }

  lemma RestartIsCurrent(c: Codec, log: Log)
    requires Current(c, log)
    ensures Step(c, log, Restart) == log
  {
    if log.lines != [] { assert FaultAt(c, log.lines, |log.lines| - 1) == None; }
  }

  /** `lines` are those of `start` followed by one entry for each input, in order, each holding the
      input's fields and the hash of the entry before it. */
  ghost predicate Extends(c: Codec, start: seq<string>, inputs: seq<Input>, lines: seq<string>) {
    && |lines| == |start| + |inputs| && lines[..|start|] == start
    && forall k :: 0 <= k < |inputs| ==>
         Unsealed(RecordAt(c, lines[|start| + k])) == Body(c, inputs[k], HashBefore(c, lines, |start| + k))
  }

  lemma ExtendsSnoc(c: Codec, start: seq<string>, inputs: seq<Input>, lines: seq<string>, x: Input, line: string)
    requires Extends(c, start, inputs, lines)
    requires Unsealed(RecordAt(c, line)) == Body(c, x, HashBefore(c, lines, |lines|))
    ensures Extends(c, start, inputs + [x], lines + [line])
  {
  }

  /** Any sequence of `record` calls split by restarts leaves an accepted log that holds exactly
      the lines it started from and one entry for each call, in call order, with its contents. */
  lemma {:induction false} RecordedLogIsAccepted(c: Codec, start: Log, events: seq<Event>)
    requires Sound(c) && Current(c, start)
    ensures Current(c, Run(c, start, events))
    ensures Extends(c, start.lines, Inputs(events), Run(c, start, events).lines)
  {
    if events != [] {
      var init := events[..|events| - 1];
      RecordedLogIsAccepted(c, start, init);
      var log := Run(c, start, init);
      match Last(events) {
        case Restart => RestartIsCurrent(c, log);
        case RecordCall(input) =>
          RecordIsAccepted(c, log, input);
          RecordedContents(c, log, input);
          ExtendsSnoc(c, start.lines, Inputs(init), log.lines, input, Last(RecordStep(c, log, input).lines));
      }
    }
  }

  lemma RecordedContents(c: Codec, log: Log, input: Input)
    requires Sound(c)
    ensures Unsealed(RecordAt(c, Last(RecordStep(c, log, input).lines))) == Body(c, input, log.last)
  {
  }

  /** The entry tells the call, field by field. */
  ghost predicate Tells(c: Codec, entry: Fields, input: Input) {
    && Get(entry, "ts", Null) == Number(input.ts) && Get(entry, "incident_id", Null) == String(input.incident)
    && Get(entry, "agent_role", Null) == String(input.role) && Get(entry, "action_type", Null) == String(input.action)
    && Get(entry, "tool_name", Null) == String(input.tool)
    && Get(entry, "tool_args_hash", Null) == String(c.sha(c.canonical(input.args)))
    && Get(entry, "result_summary", Null) == String(input.summary)
    && Get(entry, "approved_by", Null) == String(input.approvedBy) && Get(entry, "policy_check", Null) == String(input.policy)
  }

  /** From an empty log, across restarts: the k-th line tells the k-th call, and no line is added. */
  lemma EveryCallIsTold(c: Codec, events: seq<Event>)
    requires Sound(c)
    ensures var log := Run(c, Log([], ""), events);
      |log.lines| == |Inputs(events)|
      && forall k :: 0 <= k < |log.lines| ==> Tells(c, RecordAt(c, log.lines[k]), Inputs(events)[k])
  {
    RecordedLogIsAccepted(c, Log([], ""), events);
    var log := Run(c, Log([], ""), events);
    forall k | 0 <= k < |log.lines| ensures Tells(c, RecordAt(c, log.lines[k]), Inputs(events)[k]) {
      LineTells(c, Inputs(events), log.lines, k);
    }
  }

  lemma LineTells(c: Codec, inputs: seq<Input>, lines: seq<string>, k: nat)
    requires Extends(c, [], inputs, lines) && k < |lines|
    ensures Tells(c, RecordAt(c, lines[k]), inputs[k])
  {
    assert Unsealed(RecordAt(c, lines[0 + k])) == Body(c, inputs[k], HashBefore(c, lines, 0 + k));
    BodyTells(c, inputs[k], HashBefore(c, lines, k));
    UnsealedTells(c, RecordAt(c, lines[k]), inputs[k]);
  }

  lemma BodyTells(c: Codec, input: Input, prev: string)
    ensures Tells(c, Body(c, input, prev), input)
  {
  }

  lemma UnsealedKeeps(entry: Fields, name: string)
    requires name != SIGNATURE && name != ENTRY_HASH
    ensures Get(entry, name, Null) == Get(Unsealed(entry), name, Null)
  {
  }

  lemma UnsealedTells(c: Codec, entry: Fields, input: Input)
    requires Tells(c, Unsealed(entry), input)
    ensures Tells(c, entry, input)
  {
    UnsealedKeeps(entry, "ts");
    UnsealedKeeps(entry, "incident_id");
    UnsealedKeeps(entry, "agent_role");
    UnsealedKeeps(entry, "action_type");
    UnsealedKeeps(entry, "tool_name");
    UnsealedKeeps(entry, "tool_args_hash");
    UnsealedKeeps(entry, "result_summary");
    UnsealedKeeps(entry, "approved_by");
    UnsealedKeeps(entry, "policy_check");
  }

  /** A line that is not JSON (a torn write) is never repaired by later calls or restarts. */
  lemma {:induction false} TornLineIsFatal(c: Codec, start: Log, events: seq<Event>, i: nat)
    requires i < |start.lines| && c.loads(start.lines[i]) == NotJson
    ensures !Accepted(c, Run(c, start, events).lines)
    ensures |start.lines| <= |Run(c, start, events).lines| && Run(c, start, events).lines[i] == start.lines[i]
  {
    if events != [] { TornLineIsFatal(c, start, events[..|events| - 1], i); }
    assert FaultAt(c, Run(c, start, events).lines, i) == Some(InvalidJson);
  }

  // ---- binding: the last hash fixes the whole accepted log ----

  /** What the chain fixes of a record: everything, except how its two seals are typed in JSON. */
  datatype Seal = Seal(body: Fields, signature: string, hash: string)

  function SealOf(c: Codec, line: string): Seal {
    var f := RecordAt(c, line);
    Seal(Unsealed(f), SignatureText(c, f), HashText(c, f))
  }

  function HashInput(c: Codec, line: string): string {
    c.canonical(SealOf(c, line).body) + SealOf(c, line).signature
  }

  ghost function HashInputs(c: Codec, lines: seq<string>): iset<string> {
    iset i | 0 <= i < |lines| :: HashInput(c, lines[i])
  }

  function Seals(c: Codec, lines: seq<string>): (r: seq<Seal>)
    ensures |r| == |lines| && forall i :: 0 <= i < |lines| ==> r[i] == SealOf(c, lines[i])
  {
    seq(|lines|, i requires 0 <= i < |lines| => SealOf(c, lines[i]))
  }

  lemma SameHashSameSeal(c: Codec, a: string, b: string, p: string, q: string)
    requires Sound(c) && FaultOf(c, a, p) == None && FaultOf(c, b, q) == None
    requires SealOf(c, a).hash == SealOf(c, b).hash
    requires CollisionFree(c, iset{HashInput(c, a), HashInput(c, b)})
    ensures SealOf(c, a) == SealOf(c, b) && p == q
  {
    var x := RecordAt(c, a); var y := RecordAt(c, b);
    assert HashInput(c, a) == HashInput(c, b);
    SignedTextDecodes(c.canonical(Unsealed(x)), SignatureText(c, x), c.canonical(Unsealed(y)), SignatureText(c, y));
    CanonicalIsInjective(c, Unsealed(x), Unsealed(y));
    assert Get(x, "prev_hash", String("")) == Get(Unsealed(x), "prev_hash", String(""));
    assert Get(y, "prev_hash", String("")) == Get(Unsealed(y), "prev_hash", String(""));
  }

  lemma AcceptedHashIsDigest(c: Codec, lines: seq<string>)
    requires Sound(c) && Accepted(c, lines) && lines != []
    ensures Digest(HashBefore(c, lines, |lines|))
  {
    assert FaultAt(c, lines, |lines| - 1) == None;
  }

  lemma AcceptedPrefix(c: Codec, lines: seq<string>)
    requires Accepted(c, lines) && lines != []
    ensures Accepted(c, lines[..|lines| - 1])
    ensures HashBefore(c, lines[..|lines| - 1], |lines| - 1) == HashBefore(c, lines, |lines| - 1)
  {
    var init := lines[..|lines| - 1];
    forall i | 0 <= i < |init| ensures FaultAt(c, init, i) == None {
      assert FaultAt(c, lines, i) == None && HashBefore(c, init, i) == HashBefore(c, lines, i);
    }
  }

  /** Two accepted logs (written by anyone) that end in the same entry hash hold the same records
      in the same number, unless two of their own hash inputs collide. */
  lemma {:induction false} LastHashBindsLog(c: Codec, a: seq<string>, b: seq<string>)
    requires Sound(c) && Accepted(c, a) && Accepted(c, b)
    requires HashBefore(c, a, |a|) == HashBefore(c, b, |b|)
    requires CollisionFree(c, HashInputs(c, a) + HashInputs(c, b))
    ensures Seals(c, a) == Seals(c, b)
  {
    if a == [] || b == [] {
      if a != [] { AcceptedHashIsDigest(c, a); }
      if b != [] { AcceptedHashIsDigest(c, b); }
    } else {
      LastEntriesAgree(c, a, b);
      ShorterLogs(c, a, b);
      LastHashBindsLog(c, a[..|a| - 1], b[..|b| - 1]);
      SealsSnoc(c, a);
      SealsSnoc(c, b);
    }
  }

  lemma LastEntriesAgree(c: Codec, a: seq<string>, b: seq<string>)
    requires Sound(c) && Accepted(c, a) && Accepted(c, b) && a != [] && b != []
    requires HashBefore(c, a, |a|) == HashBefore(c, b, |b|)
    requires CollisionFree(c, HashInputs(c, a) + HashInputs(c, b))
    ensures SealOf(c, Last(a)) == SealOf(c, Last(b))
    ensures HashBefore(c, a, |a| - 1) == HashBefore(c, b, |b| - 1)
  {
    var m, n := |a| - 1, |b| - 1;
    assert FaultAt(c, a, m) == None && FaultAt(c, b, n) == None;
    assert HashInput(c, a[m]) in HashInputs(c, a) && HashInput(c, b[n]) in HashInputs(c, b);
    SameHashSameSeal(c, a[m], b[n], HashBefore(c, a, m), HashBefore(c, b, n));
  }

  lemma ShorterLogs(c: Codec, a: seq<string>, b: seq<string>)
    requires Sound(c) && Accepted(c, a) && Accepted(c, b) && a != [] && b != []
    requires HashBefore(c, a, |a|) == HashBefore(c, b, |b|)
    requires CollisionFree(c, HashInputs(c, a) + HashInputs(c, b))
    ensures var a', b' := a[..|a| - 1], b[..|b| - 1];
      && Accepted(c, a') && Accepted(c, b') && HashBefore(c, a', |a'|) == HashBefore(c, b', |b'|)
      && CollisionFree(c, HashInputs(c, a') + HashInputs(c, b'))
  {
    LastEntriesAgree(c, a, b);
    AcceptedPrefix(c, a);
    AcceptedPrefix(c, b);
    FewerCollisions(c, a, b);
  }

  lemma FewerCollisions(c: Codec, a: seq<string>, b: seq<string>)
    requires a != [] && b != [] && CollisionFree(c, HashInputs(c, a) + HashInputs(c, b))
    ensures CollisionFree(c, HashInputs(c, a[..|a| - 1]) + HashInputs(c, b[..|b| - 1]))
  {
  }

  lemma SealsSnoc(c: Codec, lines: seq<string>)
    requires lines != []
    ensures Seals(c, lines) == Seals(c, lines[..|lines| - 1]) + [SealOf(c, Last(lines))]
  {
  }

  // ---- paging ----

  function Page<T>(entries: seq<T>, limit: int, offset: int): seq<T> {
    if limit <= 0 then []
    else
      var end := |entries| - (if offset < 0 then 0 else offset);
      if end <= 0 then [] else entries[(if end - limit < 0 then 0 else end - limit)..end]
  }

  /** `tail`: fails when any line is not JSON, even outside the page. */
  function Tail(c: Codec, lines: seq<string>, limit: int, offset: int): Result<seq<string>> {
    if limit <= 0 then Ok([])
    else if exists i :: 0 <= i < |lines| && c.loads(lines[i]) == NotJson then Err("invalid json")
    else Ok(Page(lines, limit, offset))
  }

  /** The offset of page `n`: `n * size`. */
  function Offset(size: nat, n: nat): nat {
    if n == 0 then 0 else Offset(size, n - 1) + size
  }

  lemma {:induction false} OffsetIsProduct(size: nat, n: nat)
    ensures Offset(size, n) == n * size
  {
    if n > 0 { OffsetIsProduct(size, n - 1); }
  }

  /** The first `n` pages of size `size`, oldest first. */
  function Pages<T>(entries: seq<T>, size: nat, n: nat): seq<T> {
    if n == 0 then [] else Page(entries, size, Offset(size, n - 1)) + Pages(entries, size, n - 1)
  }

  function From<T>(entries: seq<T>, offset: nat): seq<T> {
    entries[if |entries| - offset < 0 then 0 else |entries| - offset..]
  }

  lemma PageBefore<T>(entries: seq<T>, size: nat, offset: nat)
    requires size > 0
    ensures Page(entries, size, offset) + From(entries, offset) == From(entries, offset + size)
  {
  }

  lemma {:induction false} PagesAreSuffix<T>(entries: seq<T>, size: nat, n: nat)
    requires size > 0
    ensures Pages(entries, size, n) == From(entries, Offset(size, n))
  {
    if n > 0 {
      PagesAreSuffix(entries, size, n - 1);
      PageBefore(entries, size, Offset(size, n - 1));
    }
  }

  /** Pages at successive offsets tile the log: together they are the log, each entry once. */
  lemma PagesTileLog<T>(entries: seq<T>, size: nat, n: nat)
    requires size > 0 && n * size >= |entries|
    ensures Pages(entries, size, n) == entries
    ensures forall k :: 0 <= k < n ==> (Page(entries, size, Offset(size, k)) != [] <==> Offset(size, k) < |entries|)
  {
    OffsetIsProduct(size, n);
    PagesAreSuffix(entries, size, n);
  }

  predicate Stretch<T(==)>(entries: seq<T>, page: seq<T>, low: nat, high: nat) {
    low <= high <= |entries| && page == entries[low..high]
  }

  predicate OnPage(n: nat, limit: int, offset: int, k: nat) {
    var away := n - 1 - k;
    offset <= away < limit + if offset < 0 then 0 else offset
  }

  /** A page is one stretch of the log: the entries that are at least `offset` and less than
      `offset + limit` away from its end, a negative offset acting as none. */
  lemma PageHolds<T>(entries: seq<T>, limit: int, offset: int)
    ensures exists low: nat, high: nat :: Stretch(entries, Page(entries, limit, offset), low, high)
              && forall k: nat :: k < |entries| ==> (OnPage(|entries|, limit, offset, k) <==> low <= k < high)
  {
    var skip := if offset < 0 then 0 else offset;
    var high := |entries| - skip;
    if limit <= 0 || high <= 0 {
      assert Stretch(entries, Page(entries, limit, offset), 0, 0);
    } else {
      var low := if high - limit < 0 then 0 else high - limit;
      assert Stretch(entries, Page(entries, limit, offset), low, high);
    }
  }

  /** On a log that verifies, `tail` returns the page, for every limit and offset. */
  lemma TailIsPage(c: Codec, lines: seq<string>, limit: int, offset: int)
    requires Accepted(c, lines)
    ensures Tail(c, lines, limit, offset) == Ok(Page(lines, limit, offset))
  {
    forall i | 0 <= i < |lines| ensures c.loads(lines[i]) != NotJson { assert FaultAt(c, lines, i) == None; }
  }

  /** So `tail` at successive offsets returns pages that together are the whole log. */
  lemma TailTilesLog(c: Codec, lines: seq<string>, size: nat, n: nat)
    requires Accepted(c, lines) && size > 0 && n * size >= |lines|
    ensures forall k :: 0 <= k < n ==>
      Tail(c, lines, size, Offset(size, k)) == Ok(Page(lines, size, Offset(size, k)))
    ensures Pages(lines, size, n) == lines
    ensures forall k :: 0 <= k < n ==> (Page(lines, size, Offset(size, k)) != [] <==> Offset(size, k) < |lines|)
  {
    forall k | 0 <= k < n ensures Tail(c, lines, size, Offset(size, k)) == Ok(Page(lines, size, Offset(size, k))) {
      TailIsPage(c, lines, size, Offset(size, k));
    }
    PagesTileLog(lines, size, n);
  }

  /** A single line that is not JSON makes every `tail` with a positive limit fail, on whatever page. */
  lemma TornLineBreaksTail(c: Codec, lines: seq<string>, i: nat, limit: int, offset: int)
    requires i < |lines| && c.loads(lines[i]) == NotJson
    ensures Tail(c, lines, limit, offset).Err? <==> limit > 0
  {
    assert c.loads(lines[i]) == NotJson;
  }

  // ---- the log as an object over a shared file ----

  class LogFile {
    var lines: seq<string>
    constructor ()
      ensures lines == []
    {
      lines := [];
    }
  }

  class AuditLog {
    const codec: Codec
    const file: LogFile
    var lastHash: string

    ghost function View(): Log
      reads this, file
    {
      Log(file.lines, lastHash)
    }

    constructor (codec: Codec, file: LogFile, lastHash: string)
      ensures this.codec == codec && this.file == file && View() == Log(file.lines, lastHash)
    {
      this.codec, this.file, this.lastHash := codec, file, lastHash;
    }

    method Record(input: Input) returns (entry: Fields)
      modifies this, file
      ensures View() == RecordStep(codec, old(View()), input)
      ensures entry == Entry(codec, Body(codec, input, old(lastHash)))
    {
      entry := Body(codec, input, lastHash);
      var canonical := codec.canonical(entry);
      var signature := codec.mac(canonical);
      var hash := codec.sha(canonical + signature);
      entry := entry[SIGNATURE := String(signature)];
      entry := entry[ENTRY_HASH := String(hash)];
      file.lines := file.lines + [codec.line(entry)];
      lastHash := codec.text(String(hash));
    }

    /** The checks of one line against the hash before it. */
    method CheckLine(line: string, prev: string) returns (fault: Option<Fault>, entry: Fields)
      ensures fault == FaultOf(codec, line, prev)
      ensures fault.None? ==> entry == RecordAt(codec, line)
    {
      entry := map[];
      var parsed := codec.loads(line);
      if parsed.NotJson? {
        return Some(InvalidJson), entry;
      }
      if parsed.NotObject? {
        return Some(InvalidRecord), entry;
      }
      entry := parsed.fields;
      if Get(entry, "prev_hash", String("")) != String(prev) {
        return Some(ChainMismatch), entry;
      }
      var check := entry;
      var signature := codec.text(Get(check, SIGNATURE, String("")));
      check := check - {SIGNATURE};
      var hash := codec.text(Get(check, ENTRY_HASH, String("")));
      check := check - {ENTRY_HASH};
      assert check == Unsealed(entry);
      var canonical := codec.canonical(check);
      if codec.mac(canonical) != signature {
        return Some(SignatureMismatch), entry;
      }
      if codec.sha(canonical + signature) != hash {
        return Some(EntryHashMismatch), entry;
      }
      fault := None;
    }

    method VerifyIntegrity() returns (r: Integrity)
      ensures IntegrityOf(codec, file.lines, r)
    {
      var lines := file.lines;
      var prev := "";
      var records := [];
      var i := 0;
      while i < |lines|
        invariant 0 <= i <= |lines|
        invariant prev == HashBefore(codec, lines, i)
        invariant forall j :: 0 <= j < i ==> FaultAt(codec, lines, j) == None
        invariant records == Records(codec, lines[..i])
      {
        var fault, entry := CheckLine(lines[i], prev);
        if fault.Some? {
          return Broken(fault.value, i + 1);
        }
        prev := HashText(codec, entry);
        RecordsSnoc(codec, lines, i);
        records := records + [entry];
        i := i + 1;
      }
      assert lines[..|lines|] == lines;
      r := Intact(|lines|, records);
    }
  }

  /** Opening a log reads back the hash of its last entry. */
  method Open(codec: Codec, secretBlank: bool, file: LogFile) returns (r: Result<AuditLog>)
    ensures r.Err? <==> secretBlank || LoadLastHash(codec, file.lines).Err?
    ensures r.Ok? ==> fresh(r.value) && r.value.codec == codec && r.value.file == file
                      && r.value.View() == Log(file.lines, LoadLastHash(codec, file.lines).value)
  {
    if secretBlank {
      return Err("audit_configuration_error");
    }
    var last := LoadLastHash(codec, file.lines);
    if last.Err? {
      return Err(last.error);
    }
    var log := new AuditLog(codec, file, last.value);
    r := Ok(log);
  }
}
