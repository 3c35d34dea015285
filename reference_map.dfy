/** The store of model references (cursors, selections) of a model, kept by
    session id first and reference key second. */
module ReferenceMap {
  import opened Ops

  /** A model reference; `values` stands for whatever the reference points at
      (an index, indices or ranges). */
  datatype ModelReference = ModelReference(sessionId: string, key: string, values: seq<int>)

  /** The optional session and key a listing is restricted to. */
  datatype ReferenceFilter = ReferenceFilter(sessionId: Option<string>, key: Option<string>)

  datatype ReferenceError =
    | ReferenceAlreadyExists
      /** A session filter that names no known session: the listing reads
          the missing session's table and fails. */
    | UnknownSessionFilter

  datatype Outcome = Pass | Fail(error: ReferenceError)

  datatype Result<T> = Success(value: T) | Failure(error: ReferenceError)

  /** No element occurs twice. */
  predicate Distinct<T(==)>(s: seq<T>) {
    forall i, j :: 0 <= i < j < |s| ==> s[i] != s[j]
  }

  lemma DistinctConcat<T>(a: seq<T>, b: seq<T>)
    requires Distinct(a) && Distinct(b)
    requires forall x :: x in a ==> x !in b
    ensures Distinct(a + b)
  {
    forall i, j | 0 <= i < j < |a + b|
      ensures (a + b)[i] != (a + b)[j]
    {
      if j < |a| {
      } else if i >= |a| {
        assert (a + b)[i] == b[i - |a|] && (a + b)[j] == b[j - |a|];
      } else {
        assert (a + b)[i] in a && (a + b)[j] in b;
      }
    }
  }

  /** The references of one session's table stored under the given keys,
      each once. */
  method CollectKeys(table: map<string, ModelReference>, keys: set<string>) returns (refs: seq<ModelReference>)
    requires forall k :: k in table ==> table[k].key == k
    ensures forall r :: r in refs <==> r.key in keys && r.key in table && table[r.key] == r
    ensures Distinct(refs)
  {
    refs := [];
    var done: set<string> := {};
    while done != keys
      invariant done <= keys
      invariant forall r :: r in refs <==> r.key in done && r.key in table && table[r.key] == r
      invariant Distinct(refs)
      decreases |keys - done|
    {
      var k :| k in keys - done;
      if k in table {
        refs := refs + [table[k]];
      }
      done := done + {k};
    }
  }

  /** Every reference sits under its own session id and key. */
  ghost predicate WellKeyed(refs: map<string, map<string, ModelReference>>) {
    forall sid, k :: sid in refs && k in refs[sid] ==> refs[sid][k].sessionId == sid && refs[sid][k].key == k
  }

  /** `r` is one of the references in `refs`. */
  ghost predicate StoredIn(refs: map<string, map<string, ModelReference>>, r: ModelReference) {
    r.sessionId in refs && r.key in refs[r.sessionId] && refs[r.sessionId][r.key] == r
  }

  /** The references of the given sessions under `key` (every key when none
      is given), each once. */
  method CollectSessions(refs: map<string, map<string, ModelReference>>, sessionIds: set<string>, key: Option<string>)
    returns (out: seq<ModelReference>)
    requires WellKeyed(refs) && sessionIds <= refs.Keys
    ensures forall r :: r in out <==> StoredIn(refs, r) && r.sessionId in sessionIds && (key.None? || key.value == r.key)
    ensures Distinct(out)
  {
    out := [];
    var done: set<string> := {};
    while done != sessionIds
      invariant done <= sessionIds
      invariant forall r :: r in out <==> StoredIn(refs, r) && r.sessionId in done && (key.None? || key.value == r.key)
      invariant Distinct(out)
      decreases |sessionIds - done|
    {
      var sid :| sid in sessionIds - done;
      var table := refs[sid];
      var keys := if key.Some? then {key.value} else table.Keys;
      var sessionRefs := CollectKeys(table, keys);
      forall r | r in sessionRefs
        ensures StoredIn(refs, r) && r.sessionId == sid && r !in out
      {
      }
      DistinctConcat(out, sessionRefs);
      out := out + sessionRefs;
      done := done + {sid};
    }
  }

  predicate Selects(f: ReferenceFilter, r: ModelReference) {
    (f.sessionId.None? || f.sessionId.value == r.sessionId) &&
    (f.key.None? || f.key.value == r.key)
  }

  class ReferenceMap {
    /** Stored by session id first, then by key. */
    var references: map<string, map<string, ModelReference>>

    /** Every reference sits under its own session id and key. */
    ghost predicate Valid()
      reads this
    {
      WellKeyed(references)
    }

    /** `r` is one of the stored references. */
    ghost predicate Stored(r: ModelReference)
      reads this
    {
      StoredIn(references, r)
    }

    constructor ()
      ensures Valid() && references == map[]
    {
      references := map[];
    }

    /** Store `r` under its session id and key; an occupied slot is an error
        and leaves the map as it was. */
    method Put(r: ModelReference) returns (result: Outcome)
      requires Valid()
      modifies this
      ensures Valid()
      ensures old(r.sessionId in references && r.key in references[r.sessionId]) <==> result.Fail?
      ensures result.Fail? ==> result.error == ReferenceAlreadyExists && references == old(references)
      ensures result.Pass? ==>
        references == old(references)[r.sessionId :=
          (if r.sessionId in old(references) then old(references)[r.sessionId] else map[])[r.key := r]]
    ensures result.Pass? ==> Get(r.sessionId, r.key) == Some(r)
    ensures forall sid, k :: sid != r.sessionId || k != r.key ==> Get(sid, k) == old(Get(sid, k))
    {
      var sessionModels: map<string, ModelReference>;
      if r.sessionId in references {
        sessionModels := references[r.sessionId];
      } else {
        sessionModels := map[];
        references := references[r.sessionId := sessionModels];
      }
      if r.key in sessionModels {
        return Fail(ReferenceAlreadyExists);
      }
      references := references[r.sessionId := sessionModels[r.key := r]];
      result := Pass;
    }

    /** The reference stored under (sessionId, key), if any. */
    function Get(sessionId: string, key: string): (r: Option<ModelReference>)
      reads this
      requires Valid()
      ensures r.Some? <==> sessionId in references && key in references[sessionId]
      ensures r.Some? ==> Stored(r.value) && r.value.sessionId == sessionId && r.value.key == key
    {
      if sessionId in references && key in references[sessionId] then Some(references[sessionId][key]) else None
    }

    /** Every stored reference the filter selects, each exactly once; a
        session filter naming no known session fails. */
    method GetAll(f: ReferenceFilter) returns (result: Result<seq<ModelReference>>)
      requires Valid()
      ensures result.Failure? <==> f.sessionId.Some? && f.sessionId.value !in references
      ensures result.Success? ==>
        (forall r :: r in result.value <==> Stored(r) && Selects(f, r)) && Distinct(result.value)
      ensures references == map[] && f.sessionId.None? ==> result == Success([])
    {
      var sessionIds: set<string>;
      if f.sessionId.Some? {
        if f.sessionId.value !in references {
          return Failure(UnknownSessionFilter);
        }
        sessionIds := {f.sessionId.value};
      } else {
        sessionIds := references.Keys;
      }
      var refs := CollectSessions(references, sessionIds, f.key);
      assert refs == [] || refs[0] in refs;
      result := Success(refs);
    }

    /** Forget every reference. */
    method RemoveAll()
      modifies this
      ensures Valid() && references == map[]
    {
      references := map[];
    }

    /** Remove and return the reference under (sessionId, key); the session's
        table stays, possibly empty. */
    method Remove(sessionId: string, key: string) returns (r: Option<ModelReference>)
      requires Valid()
      modifies this
      ensures Valid()
      ensures r == old(Get(sessionId, key))
      ensures sessionId in old(references) ==>
        references == old(references)[sessionId := old(references)[sessionId] - {key}]
      ensures sessionId !in old(references) ==> references == old(references)
      ensures Get(sessionId, key) == None
      ensures forall sid, k :: sid != sessionId || k != key ==> Get(sid, k) == old(Get(sid, k))
    {
      r := Get(sessionId, key);
      if sessionId in references {
        references := references[sessionId := references[sessionId] - {key}];
      }
    }

    /** Drop the whole table of one session. */
    method RemoveBySession(sessionId: string)
      requires Valid()
      modifies this
      ensures Valid()
      ensures references == old(references) - {sessionId}
      ensures forall k :: Get(sessionId, k) == None
      ensures forall sid, k :: sid != sessionId ==> Get(sid, k) == old(Get(sid, k))
    {
      references := references - {sessionId};
    }

    /** Remove `key` from the table of every session. */
    method RemoveByKey(key: string)
      requires Valid()
      modifies this
      ensures Valid()
      ensures references.Keys == old(references).Keys
      ensures forall sid :: sid in references ==> references[sid] == old(references)[sid] - {key}
      ensures forall sid :: Get(sid, key) == None
      ensures forall sid, k :: k != key ==> Get(sid, k) == old(Get(sid, k))
    {
      var sessionIds := references.Keys;
      var done: set<string> := {};
      while done != sessionIds
        invariant done <= sessionIds && references.Keys == sessionIds
        invariant Valid()
        invariant forall sid :: sid in references ==>
          references[sid] == if sid in done then old(references)[sid] - {key} else old(references)[sid]
        decreases |sessionIds - done|
      {
        var sid :| sid in sessionIds - done;
        references := references[sid := references[sid] - {key}];
        done := done + {sid};
      }
    }
  }

  // ---------------------------------------------------------------------
  // What the operations promise together

  /** A stored reference is found again under its own session and key. */
  lemma GetFindsStored(m: ReferenceMap, r: ModelReference)
    requires m.Valid() && m.Stored(r)
    ensures m.Get(r.sessionId, r.key) == Some(r)
  {
  }
}
