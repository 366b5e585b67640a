/** The durable admission table of agents/incident_admission.py.
    A row is inserted as queued, becomes attempted, and an attempted row is final. */
module Admission {
  import opened Basics

  /** A uuid drawn for one admission. Draws are modelled as increasing numbers, so a token
      is fresh and also records the admission order; 0 stands for the empty token. */
  type Token = nat

  const EMPTY_TOKEN: Token := 0

  datatype Row = Row(incident: string, attempted: bool, token: Token)

  type Table = map<string, Row>

  datatype AdmissionResult =
    AdmissionResult(token: Option<Token>, admitted: seq<string>, duplicates: seq<(string, string)>)

  // ---- the three transactions as functions on the table ----

  /** The distinct keys that have no row yet. */
  function FreshKeys(t: Table, keys: seq<string>): (r: seq<string>)
    ensures forall k :: k in r <==> k in keys && k !in t
  {
    if keys == [] then []
    else
      var init := FreshKeys(t, keys[..|keys| - 1]);
      assert keys == keys[..|keys| - 1] + [Last(keys)];
      if Last(keys) in t then init else init + [Last(keys)]
  }

  function DuplicatesOf(t: Table, keys: seq<string>): (r: seq<(string, string)>)
    ensures forall d :: d in r <==> d.0 in keys && d.0 in t && d.1 == t[d.0].incident
  {
    if keys == [] then []
    else
      var init := DuplicatesOf(t, keys[..|keys| - 1]);
      assert keys == keys[..|keys| - 1] + [Last(keys)];
      if Last(keys) in t then init + [(Last(keys), t[Last(keys)].incident)] else init
  }

  function Admit(t: Table, incident: string, keys: seq<string>, token: Token): Table {
    map k | k in t.Keys + (set x | x in keys) ::
      if k in t then t[k] else Row(incident, false, token)
  }

  /** Marking one key more. */
  lemma MarkSnoc(t: Table, token: Token, keys: seq<string>, key: string)
    requires key !in keys
    ensures var m := Mark(t, token, keys);
      && (key in m <==> key in t) && (key in t ==> m[key] == t[key])
      && Mark(t, token, keys + [key])
         == if key in t && t[key].token == token && !t[key].attempted then m[key := t[key].(attempted := true)] else m
  {
  }

  predicate CanMark(t: Table, token: Token, keys: seq<string>) {
    forall k | k in keys :: k in t && t[k].token == token && !t[k].attempted
  }

  predicate QueuedUnder(t: Table, key: string, token: Token) {
    key in t && t[key] == Row(t[key].incident, false, token)
  }

  /** One key of another token, attempted before, or never admitted, makes the marking of all fail. */
  lemma MarkNeedsOwnRows(t: Table, token: Token, keys: seq<string>)
    ensures CanMark(t, token, keys) <==> forall i :: 0 <= i < |keys| ==> QueuedUnder(t, keys[i], token)
  {
    if CanMark(t, token, keys) {
      forall i | 0 <= i < |keys| ensures QueuedUnder(t, keys[i], token) { assert keys[i] in keys; }
    }
  }

  function Mark(t: Table, token: Token, keys: seq<string>): Table {
    map k | k in t ::
      if k in keys && t[k].token == token && !t[k].attempted then t[k].(attempted := true) else t[k]
  }

  function Rollback(t: Table, token: Token): Table {
    if token == EMPTY_TOKEN then t
    else map k | k in t && !(t[k].token == token && !t[k].attempted) :: t[k]
  }

  /** One more key processed by the insert loop of `admit`. */
  lemma AdmitSnoc(t: Table, incident: string, keys: seq<string>, k: string, token: Token)
    requires k !in keys
    ensures Admit(t, incident, keys + [k], token) ==
            if k in t then Admit(t, incident, keys, token)
            else Admit(t, incident, keys, token)[k := Row(incident, false, token)]
    ensures FreshKeys(t, keys + [k]) == FreshKeys(t, keys) + if k in t then [] else [k]
    ensures DuplicatesOf(t, keys + [k]) ==
            DuplicatesOf(t, keys) + if k in t then [(k, t[k].incident)] else []
    ensures k in t <==> k in Admit(t, incident, keys, token)
    ensures k in t ==> Admit(t, incident, keys, token)[k] == t[k]
  {
  }

  /** An attempted row is never changed or removed. */
  ghost predicate KeepsAttempted(t: Table, t': Table) {
    forall k :: k in t && t[k].attempted ==> k in t' && t'[k] == t[k]
  }

  /** Only rows carrying `token` may differ, apart from rows that did not exist. */
  ghost predicate TouchesOnly(t: Table, t': Table, token: Token) {
    && (forall k :: k in t && t[k].token != token ==> k in t' && t'[k] == t[k])
    && (forall k :: k in t' && t'[k].token != token ==> k in t && t'[k] == t[k])
  }

  lemma TransactionsKeepAttempted(t: Table, incident: string, keys: seq<string>, token: Token)
    ensures KeepsAttempted(t, Admit(t, incident, keys, token))
    ensures KeepsAttempted(t, Mark(t, token, keys))
    ensures KeepsAttempted(t, Rollback(t, token))
    ensures TouchesOnly(t, Admit(t, incident, keys, token), token)
    ensures TouchesOnly(t, Mark(t, token, keys), token)
    ensures TouchesOnly(t, Rollback(t, token), token)
  {
  }

  /** Rolling an admission back restores the table it started from, whenever the token was fresh. */
  lemma RollbackUndoesAdmit(t: Table, incident: string, keys: seq<string>, token: Token)
    requires token != EMPTY_TOKEN
    requires forall k :: k in t ==> t[k].token != token
    ensures Rollback(Admit(t, incident, keys, token), token) == t
  {
  }

  /** Admitted rows can be marked, and then can be neither marked again nor rolled back. */
  lemma AdmitThenMark(t: Table, incident: string, keys: seq<string>, token: Token)
    ensures var a := Admit(t, incident, keys, token); var newKeys := FreshKeys(t, keys);
      && CanMark(a, token, newKeys)
      && (var m := Mark(a, token, newKeys);
          && (newKeys != [] ==> !CanMark(m, token, newKeys))
          && (forall k :: k in newKeys ==> k in Rollback(m, token) && Rollback(m, token)[k].attempted))
  {
  }

  // ---- the store ----

  class IncidentAdmissionStore {
    var table: Table

    constructor ()
      ensures table == map[]
    {
      table := map[];
    }

    /** `admit`: insert every distinct key that has no row, and report the rest as duplicates. */
    method AdmitKeys(incident: string, occurrenceKeys: seq<string>, token: Token)
      returns (r: AdmissionResult)
      modifies this
      ensures table == Admit(old(table), incident, Dedup(occurrenceKeys), token)
      ensures r.admitted == FreshKeys(old(table), Dedup(occurrenceKeys))
      ensures r.duplicates == DuplicatesOf(old(table), Dedup(occurrenceKeys))
      ensures r.token == if r.admitted == [] then None else Some(token)
    {
      var keys := Dedup(occurrenceKeys);
      if keys == [] {
        return AdmissionResult(None, [], []);
      }
      var admitted, duplicates := InsertEach(incident, keys, token);
      r := AdmissionResult(if admitted != [] then Some(token) else None, admitted, duplicates);
    }

    lemma NextKey(keys: seq<string>, i: nat)
      requires i < |keys| && forall j, k :: 0 <= j < k < |keys| ==> keys[j] != keys[k]
      ensures keys[..i + 1] == keys[..i] + [keys[i]] && keys[i] !in keys[..i]
    {
    }

    method InsertEach(incident: string, keys: seq<string>, token: Token)
      returns (admitted: seq<string>, duplicates: seq<(string, string)>)
      requires forall i, j :: 0 <= i < j < |keys| ==> keys[i] != keys[j]
      modifies this
      ensures table == Admit(old(table), incident, keys, token)
      ensures admitted == FreshKeys(old(table), keys)
      ensures duplicates == DuplicatesOf(old(table), keys)
    {
      admitted, duplicates := [], [];
      ghost var before := table;
      var i := 0;
      while i < |keys|
        invariant 0 <= i <= |keys|
        invariant table == Admit(before, incident, keys[..i], token)
        invariant admitted == FreshKeys(before, keys[..i])
        invariant duplicates == DuplicatesOf(before, keys[..i])
      {
        NextKey(keys, i);
        AdmitSnoc(before, incident, keys[..i], keys[i], token);
        if keys[i] !in table {
          table := table[keys[i] := Row(incident, false, token)];
          admitted := admitted + [keys[i]];
        } else {
          duplicates := duplicates + [(keys[i], table[keys[i]].incident)];
        }
        i := i + 1;
      }
      assert keys[..i] == keys;
    }

    /** All keys move from queued to attempted under `token`, or nothing changes. */
    method MarkAttempted(token: Token, occurrenceKeys: seq<string>) returns (ok: bool)
      modifies this
      ensures ok == CanMark(old(table), token, occurrenceKeys)
      ensures table == if ok then Mark(old(table), token, occurrenceKeys) else old(table)
    {
      var keys := Dedup(occurrenceKeys);
      var snapshot := table;
      var updated := 0;
      var i := 0;
      while i < |keys|
        invariant 0 <= i <= |keys|
        invariant table == Mark(snapshot, token, keys[..i])
        invariant 0 <= updated <= i
        invariant updated == i <==> CanMark(snapshot, token, keys[..i])
      {
        assert keys[..i + 1] == keys[..i] + [keys[i]];
        assert keys[i] !in keys[..i];
        MarkSnoc(snapshot, token, keys[..i], keys[i]);
        if keys[i] in table && table[keys[i]].token == token && !table[keys[i]].attempted {
          table := table[keys[i] := table[keys[i]].(attempted := true)];
          updated := updated + 1;
        }
        i := i + 1;
      }
      assert keys[..i] == keys;
      ok := updated == |keys|;
      if !ok {
        table := snapshot;
      }
    }

    method RollbackQueued(token: Token)
      modifies this
      ensures table == Rollback(old(table), token)
    {
      if token == EMPTY_TOKEN {
        return;
      }
      table := map k | k in table && !(table[k].token == token && !table[k].attempted) :: table[k];
    }
  }
}
