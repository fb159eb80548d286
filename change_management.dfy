/**
  Change-impact analysis: which identities a transform touched, and
  whether a subscribed query is affected by them.
 */
module ChangeManagement {
  import opened Wrappers
  import opened Types

  /** The identities a batch of operations touched, split by role. */
  datatype ChangeSet = ChangeSet(records: seq<RecordIdentity>, relatedRecords: seq<RecordIdentity>)

  /** What one operation adds to `relatedRecords`: its `relatedRecord`, then all of its `relatedRecords`. */
  function OwnRelated(op: Operation): seq<RecordIdentity> {
    (if op.relatedRecord.Some? then [op.relatedRecord.value] else []) +
    (if op.relatedRecords.Some? then op.relatedRecords.value else [])
  }

  /** The primary subjects of the operations, in operation order. */
  function PrimaryRecords(ops: seq<Operation>): seq<RecordIdentity> {
    if ops == [] then [] else PrimaryRecords(ops[..|ops| - 1]) + [ops[|ops| - 1].record]
  }

  /** The relationship-side identities of the operations, in operation order. */
  function RelatedRecords(ops: seq<Operation>): seq<RecordIdentity> {
    if ops == [] then [] else RelatedRecords(ops[..|ops| - 1]) + OwnRelated(ops[|ops| - 1])
  }

  /** The change set `getUpdatedRecords` builds for a batch. */
  function UpdatedRecords(ops: seq<Operation>): ChangeSet {
    ChangeSet(PrimaryRecords(ops), RelatedRecords(ops))
  }

  /** `records` holds one entry per operation: entry i is operation i's record. */
  lemma {:induction false} PrimaryRecordsOnePerOperation(ops: seq<Operation>)
    ensures |PrimaryRecords(ops)| == |ops|
    ensures forall i :: 0 <= i < |ops| ==> PrimaryRecords(ops)[i] == ops[i].record
  {
    if ops != [] {
      PrimaryRecordsOnePerOperation(ops[..|ops| - 1]);
    }
  }

  lemma {:induction false} PrimaryRecordsAppend(a: seq<Operation>, b: seq<Operation>)
    ensures PrimaryRecords(a + b) == PrimaryRecords(a) + PrimaryRecords(b)
  {
    if b == [] {
      assert a + b == a;
    } else {
      var n := |b| - 1;
      assert (a + b)[..|a + b| - 1] == a + b[..n];
      assert (a + b)[|a + b| - 1] == b[n];
      PrimaryRecordsAppend(a, b[..n]);
      assert PrimaryRecords(b) == PrimaryRecords(b[..n]) + [b[n].record];
    }
  }

  lemma {:induction false} RelatedRecordsAppend(a: seq<Operation>, b: seq<Operation>)
    ensures RelatedRecords(a + b) == RelatedRecords(a) + RelatedRecords(b)
  {
    if b == [] {
      assert a + b == a;
    } else {
      var n := |b| - 1;
      assert (a + b)[..|a + b| - 1] == a + b[..n];
      assert (a + b)[|a + b| - 1] == b[n];
      RelatedRecordsAppend(a, b[..n]);
      assert RelatedRecords(b) == RelatedRecords(b[..n]) + OwnRelated(b[n]);
    }
  }

  /** Both lists of a concatenated batch are the concatenations of the parts' lists. */
  lemma {:induction false} UpdatedRecordsAppend(a: seq<Operation>, b: seq<Operation>)
    ensures PrimaryRecords(a + b) == PrimaryRecords(a) + PrimaryRecords(b)
    ensures RelatedRecords(a + b) == RelatedRecords(a) + RelatedRecords(b)
  {
    PrimaryRecordsAppend(a, b);
    RelatedRecordsAppend(a, b);
  }

  /**
    `getUpdatedRecords`: one pass over the operations, pushing each
    operation's record, then its related record, then each of its related
    records.
   */
  method GetUpdatedRecords(ops: seq<Operation>) returns (cs: ChangeSet)
    ensures cs == UpdatedRecords(ops)
  {
    var records: seq<RecordIdentity> := [];
    var relatedRecords: seq<RecordIdentity> := [];
    var i := 0;
    while i < |ops|
      invariant 0 <= i <= |ops|
      invariant records == PrimaryRecords(ops[..i])
      invariant relatedRecords == RelatedRecords(ops[..i])
    {
      var op := ops[i];
      assert ops[..i + 1][..i] == ops[..i];
      records := records + [op.record];
      var before := relatedRecords;
      if op.relatedRecord.Some? {
        relatedRecords := relatedRecords + [op.relatedRecord.value];
      }
      if op.relatedRecords.Some? {
        var list := op.relatedRecords.value;
        var j := 0;
        while j < |list|
          invariant 0 <= j <= |list|
          invariant relatedRecords == before +
                      (if op.relatedRecord.Some? then [op.relatedRecord.value] else []) + list[..j]
        {
          assert list[..j + 1] == list[..j] + [list[j]];
          relatedRecords := relatedRecords + [list[j]];
          j := j + 1;
        }
        assert list[..|list|] == list;
      }
      i := i + 1;
    }
    assert ops[..|ops|] == ops;
    cs := ChangeSet(records, relatedRecords);
  }

  /** `identityIsEqual`: same type and same id. */
  predicate IdentityIsEqual(a: RecordIdentity, b: RecordIdentity) {
    a.recordType == b.recordType && a.id == b.id
  }

  /** Some identity in the list has the given type. */
  predicate HasType(rs: seq<RecordIdentity>, recordType: string) {
    exists i :: 0 <= i < |rs| && rs[i].recordType == recordType
  }

  /** Some identity in the list equals the given one. */
  predicate HasIdentity(rs: seq<RecordIdentity>, r: RecordIdentity) {
    exists i :: 0 <= i < |rs| && IdentityIsEqual(r, rs[i])
  }

  /**
    `hasChanged`: a `findRecords` expression fires on its type anywhere in
    the change set; every other expression fires on its exact identity in
    `records`, or on its type alone in `relatedRecords`.
   */
  predicate HasChanged(e: Expression, records: seq<RecordIdentity>, relatedRecords: seq<RecordIdentity>) {
    if e.FindRecords? then
      HasType(records, e.recordType) || HasType(relatedRecords, e.recordType)
    else
      HasIdentity(records, e.record) || HasType(relatedRecords, e.record.recordType)
  }

  /**
    `shouldUpdate` on a decoded identifier: a term list fires when some
    term fires, a bare expression when it fires, and a wrapper with options
    exactly when its inner terms-or-expression fires.
   */
  predicate ShouldUpdate(x: Identifier, records: seq<RecordIdentity>, relatedRecords: seq<RecordIdentity>)
    decreases x.WithOptions?
  {
    match x
    case Plain(Terms(ts)) =>
      exists i :: 0 <= i < |ts| && HasChanged(ts[i].expression, records, relatedRecords)
    case Plain(Single(e)) => HasChanged(e, records, relatedRecords)
    case WithOptions(t, _) => ShouldUpdate(Plain(t), records, relatedRecords)
  }

  /** `shouldUpdate` applied to the change set of a batch. */
  predicate Affects(x: Identifier, ops: seq<Operation>) {
    var cs := UpdatedRecords(ops);
    ShouldUpdate(x, cs.records, cs.relatedRecords)
  }

  /** Identity equality is exactly componentwise equality, hence reflexive and symmetric. */
  lemma IdentityIsEqualIsEquality(a: RecordIdentity, b: RecordIdentity)
    ensures IdentityIsEqual(a, b) <==> a == b
    ensures IdentityIsEqual(a, a)
    ensures IdentityIsEqual(a, b) == IdentityIsEqual(b, a)
  {
  }

  /** A `findRecords` expression fires iff its type occurs in `records` or in `relatedRecords`. */
  lemma FindRecordsFires(t: string, records: seq<RecordIdentity>, relatedRecords: seq<RecordIdentity>)
    ensures HasChanged(FindRecords(t), records, relatedRecords) <==>
      exists r :: (r in records || r in relatedRecords) && r.recordType == t
  {
    if HasChanged(FindRecords(t), records, relatedRecords) {
      if HasType(records, t) {
        var i :| 0 <= i < |records| && records[i].recordType == t;
        assert records[i] in records;
      } else {
        var i :| 0 <= i < |relatedRecords| && relatedRecords[i].recordType == t;
        assert relatedRecords[i] in relatedRecords;
      }
    }
  }

  /**
    A single-record expression fires iff its identity is in `records`, or
    some identity of its type is in `relatedRecords`.
   */
  lemma SingleRecordFires(e: Expression, records: seq<RecordIdentity>, relatedRecords: seq<RecordIdentity>)
    requires !e.FindRecords?
    ensures HasChanged(e, records, relatedRecords) <==>
      e.record in records || exists r :: r in relatedRecords && r.recordType == e.record.recordType
  {
    if e.record in records {
      var i :| 0 <= i < |records| && records[i] == e.record;
      assert IdentityIsEqual(e.record, records[i]);
    }
    if HasType(relatedRecords, e.record.recordType) {
      var i :| 0 <= i < |relatedRecords| && relatedRecords[i].recordType == e.record.recordType;
      assert relatedRecords[i] in relatedRecords;
    }
    if exists r :: r in relatedRecords && r.recordType == e.record.recordType {
      var r :| r in relatedRecords && r.recordType == e.record.recordType;
      var i :| 0 <= i < |relatedRecords| && relatedRecords[i] == r;
    }
  }

  /**
    The deliberate false positive: a related record of the same type but a
    different id still fires a `findRecord` subscription.
   */
  lemma RelatedTypeMatchIsCoarse(a: RecordIdentity, b: RecordIdentity, subject: RecordIdentity)
    requires b.recordType == a.recordType && b.id != a.id
    ensures HasChanged(FindRecord(a), [subject], [b])
  {
    assert [b][0].recordType == a.recordType;
  }

  /** A term list fires iff some term fires; the empty list never fires. */
  lemma TermsFire(ts: seq<Term>, records: seq<RecordIdentity>, relatedRecords: seq<RecordIdentity>)
    ensures ShouldUpdate(Plain(Terms(ts)), records, relatedRecords) <==>
      exists t :: t in ts && HasChanged(t.expression, records, relatedRecords)
    ensures !ShouldUpdate(Plain(Terms([])), records, relatedRecords)
  {
    if exists t :: t in ts && HasChanged(t.expression, records, relatedRecords) {
      var t :| t in ts && HasChanged(t.expression, records, relatedRecords);
      var i :| 0 <= i < |ts| && ts[i] == t;
    }
  }

  /** Options never change invalidation: a wrapper fires exactly when its inner value does. */
  lemma OptionsNeverAffectInvalidation(t: TermsOrExpression, o: Options,
                                        records: seq<RecordIdentity>, relatedRecords: seq<RecordIdentity>)
    ensures ShouldUpdate(WithOptions(t, o), records, relatedRecords) ==
            ShouldUpdate(Plain(t), records, relatedRecords)
  {
  }

  /** An expression that fires on a change set still fires when both lists grow. */
  lemma HasChangedMonotone(e: Expression, r1: seq<RecordIdentity>, rr1: seq<RecordIdentity>,
                           r2: seq<RecordIdentity>, rr2: seq<RecordIdentity>)
    requires HasChanged(e, r1, rr1)
    ensures HasChanged(e, r1 + r2, rr1 + rr2)
  {
    if e.FindRecords? {
      if HasType(r1, e.recordType) {
        var i :| 0 <= i < |r1| && r1[i].recordType == e.recordType;
        assert (r1 + r2)[i] == r1[i];
      } else {
        var i :| 0 <= i < |rr1| && rr1[i].recordType == e.recordType;
        assert (rr1 + rr2)[i] == rr1[i];
      }
    } else {
      if HasIdentity(r1, e.record) {
        var i :| 0 <= i < |r1| && IdentityIsEqual(e.record, r1[i]);
        assert (r1 + r2)[i] == r1[i];
      } else {
        var i :| 0 <= i < |rr1| && rr1[i].recordType == e.record.recordType;
        assert (rr1 + rr2)[i] == rr1[i];
      }
    }
  }

  /** Adding operations to a batch can turn `shouldUpdate` from false to true, never back. */
  lemma {:induction false} AffectsMonotone(x: Identifier, ops: seq<Operation>, more: seq<Operation>)
    requires Affects(x, ops)
    ensures Affects(x, ops + more)
  {
    UpdatedRecordsAppend(ops, more);
    var cs, cs2 := UpdatedRecords(ops), UpdatedRecords(more);
    var t := x.termsOrExpression;
    assert ShouldUpdate(x, cs.records, cs.relatedRecords) == ShouldUpdate(Plain(t), cs.records, cs.relatedRecords);
    assert Affects(x, ops + more) == ShouldUpdate(Plain(t), cs.records + cs2.records, cs.relatedRecords + cs2.relatedRecords);
    match t
    case Terms(ts) =>
      var i :| 0 <= i < |ts| && HasChanged(ts[i].expression, cs.records, cs.relatedRecords);
      HasChangedMonotone(ts[i].expression, cs.records, cs.relatedRecords, cs2.records, cs2.relatedRecords);
    case Single(e) =>
      HasChangedMonotone(e, cs.records, cs.relatedRecords, cs2.records, cs2.relatedRecords);
  }
}
