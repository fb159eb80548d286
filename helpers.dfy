/**
  The older helper functions: a null-aware identity comparison and a
  `shouldUpdate` that takes a plain term list and is written as a chain of
  `some` calls.
 */
module Helpers {
  import opened Wrappers
  import opened Types
  import CM = ChangeManagement

  /** Null-aware `identityIsEqual`: both absent, or both present with equal type and id. */
  predicate IdentityIsEqual(a: Option<RecordIdentity>, b: Option<RecordIdentity>) {
    (a.None? && b.None?) ||
    (a.Some? && b.Some? && a.value.recordType == b.value.recordType && a.value.id == b.value.id)
  }

  /** `records.some(({ type }) => type === t)`, element by element. */
  predicate SomeOfType(rs: seq<RecordIdentity>, t: string) {
    rs != [] && (rs[0].recordType == t || SomeOfType(rs[1..], t))
  }

  /** `records.some(record => identityIsEqual(r, record))`, element by element. */
  predicate SomeIdentical(rs: seq<RecordIdentity>, r: RecordIdentity) {
    rs != [] && (IdentityIsEqual(Some(r), Some(rs[0])) || SomeIdentical(rs[1..], r))
  }

  /** The per-term test inside `shouldUpdate`. */
  predicate TermFires(e: Expression, records: seq<RecordIdentity>, relatedRecords: seq<RecordIdentity>) {
    if e.FindRecords? then
      SomeOfType(records, e.recordType) || SomeOfType(relatedRecords, e.recordType)
    else
      SomeIdentical(records, e.record) || SomeOfType(relatedRecords, e.record.recordType)
  }

  /** `terms.some(...)`: the first term fires or some later one does; false for no terms. */
  predicate ShouldUpdate(terms: seq<Term>, records: seq<RecordIdentity>, relatedRecords: seq<RecordIdentity>) {
    terms != [] &&
    (TermFires(terms[0].expression, records, relatedRecords) || ShouldUpdate(terms[1..], records, relatedRecords))
  }

  /** Two absent identities are equal; one absent and one present are not. */
  lemma NullIdentities(r: RecordIdentity)
    ensures IdentityIsEqual(None, None)
    ensures !IdentityIsEqual(None, Some(r)) && !IdentityIsEqual(Some(r), None)
  {
  }

  /** For present identities the null-aware comparison is the plain one, i.e. equality. */
  lemma PresentIdentities(a: RecordIdentity, b: RecordIdentity)
    ensures IdentityIsEqual(Some(a), Some(b)) <==> CM.IdentityIsEqual(a, b)
    ensures IdentityIsEqual(Some(a), Some(b)) <==> a == b
  {
  }

  /** The recursive `some` over types agrees with the change-management test. */
  lemma {:induction false} SomeOfTypeAgrees(rs: seq<RecordIdentity>, t: string)
    ensures SomeOfType(rs, t) <==> CM.HasType(rs, t)
  {
    if rs != [] {
      SomeOfTypeAgrees(rs[1..], t);
      if CM.HasType(rs[1..], t) {
        var i :| 0 <= i < |rs[1..]| && rs[1..][i].recordType == t;
        assert rs[i + 1].recordType == t;
      }
      if CM.HasType(rs, t) && rs[0].recordType != t {
        var i :| 0 <= i < |rs| && rs[i].recordType == t;
        assert rs[1..][i - 1].recordType == t;
      }
    }
  }

  /** The recursive `some` over identities agrees with the change-management test. */
  lemma {:induction false} SomeIdenticalAgrees(rs: seq<RecordIdentity>, r: RecordIdentity)
    ensures SomeIdentical(rs, r) <==> CM.HasIdentity(rs, r)
  {
    if rs != [] {
      SomeIdenticalAgrees(rs[1..], r);
      if CM.HasIdentity(rs[1..], r) {
        var i :| 0 <= i < |rs[1..]| && CM.IdentityIsEqual(r, rs[1..][i]);
        assert CM.IdentityIsEqual(r, rs[i + 1]);
      }
      if CM.HasIdentity(rs, r) && !CM.IdentityIsEqual(r, rs[0]) {
        var i :| 0 <= i < |rs| && CM.IdentityIsEqual(r, rs[i]);
        assert CM.IdentityIsEqual(r, rs[1..][i - 1]);
      }
    }
  }

  /** The per-term test is `hasChanged`. */
  lemma TermFiresAgrees(e: Expression, records: seq<RecordIdentity>, relatedRecords: seq<RecordIdentity>)
    ensures TermFires(e, records, relatedRecords) <==> CM.HasChanged(e, records, relatedRecords)
  {
    if e.FindRecords? {
      SomeOfTypeAgrees(records, e.recordType);
      SomeOfTypeAgrees(relatedRecords, e.recordType);
    } else {
      SomeIdenticalAgrees(records, e.record);
      SomeOfTypeAgrees(relatedRecords, e.record.recordType);
    }
  }

  /** On every term list this `shouldUpdate` agrees with the one in change management. */
  lemma {:induction false} ShouldUpdateAgrees(terms: seq<Term>, records: seq<RecordIdentity>,
                                               relatedRecords: seq<RecordIdentity>)
    ensures ShouldUpdate(terms, records, relatedRecords) <==>
            CM.ShouldUpdate(Plain(Terms(terms)), records, relatedRecords)
  {
    if terms != [] {
      ShouldUpdateAgrees(terms[1..], records, relatedRecords);
      TermFiresAgrees(terms[0].expression, records, relatedRecords);
      var rest := terms[1..];
      if CM.ShouldUpdate(Plain(Terms(rest)), records, relatedRecords) {
        var i :| 0 <= i < |rest| && CM.HasChanged(rest[i].expression, records, relatedRecords);
        assert terms[i + 1] == rest[i];
      }
      if CM.ShouldUpdate(Plain(Terms(terms)), records, relatedRecords) &&
         !CM.HasChanged(terms[0].expression, records, relatedRecords) {
        var i :| 0 <= i < |terms| && CM.HasChanged(terms[i].expression, records, relatedRecords);
        assert rest[i - 1] == terms[i];
      }
    }
  }
}
