/**
  Query normalisation: builder maps become key-sorted term lists, and a
  query (with its options, if any) becomes the identifier used as the
  dedup and subscription key.
 */
module ParseQuery {
  import opened Wrappers
  import opened Types
  import Merge

  /** No key occurs twice, which holds of the keys of any object. */
  predicate UniqueKeys(q: seq<(string, Expression)>) {
    forall i, j :: 0 <= i < j < |q| ==> q[i].0 != q[j].0
  }

  /**
    A `{ [key]: (q) => q.find...() }` object with each builder already
    applied: its entries in insertion order.
   */
  type Queries = q: seq<(string, Expression)> | UniqueKeys(q) witness []

  /** What a caller passes: one builder, or an object of named builders. */
  datatype QueryInput = Builder(expression: Expression) | Builders(entries: Queries)

  /** The keys of the object, in insertion order (`Object.keys`). */
  function KeyList(q: Queries): seq<string> {
    seq(|q|, i requires 0 <= i < |q| => q[i].0)
  }

  /** The object as a key -> expression map, forgetting insertion order. */
  function AsMap(q: Queries): map<string, Expression> {
    map i | 0 <= i < |q| :: q[i].0 := q[i].1
  }

  // ---------------------------------------------------------------------
  // The default `Array.prototype.sort` order on strings: character by character.

  /** `a` sorts strictly before `b`: at the first difference `a` has the smaller character, or `a` is a proper prefix. */
  predicate Below(a: string, b: string) {
    if a == [] then b != []
    else b != [] && (a[0] < b[0] || (a[0] == b[0] && Below(a[1..], b[1..])))
  }

  lemma {:induction false} BelowIrreflexive(a: string)
    ensures !Below(a, a)
  {
    if a != [] { BelowIrreflexive(a[1..]); }
  }

  lemma {:induction false} BelowTransitive(a: string, b: string, c: string)
    requires Below(a, b) && Below(b, c)
    ensures Below(a, c)
  {
    if a != [] && b != [] && c != [] && a[0] == b[0] == c[0] {
      BelowTransitive(a[1..], b[1..], c[1..]);
    }
  }

  lemma {:induction false} BelowTotal(a: string, b: string)
    requires a != b
    ensures Below(a, b) || Below(b, a)
  {
    if a != [] && b != [] && a[0] == b[0] {
      assert a == [a[0]] + a[1..] && b == [b[0]] + b[1..];
      BelowTotal(a[1..], b[1..]);
    }
  }

  /** Every pair of positions is in strictly ascending order. */
  predicate StrictlyAscending(s: seq<string>) {
    forall i, j :: 0 <= i < j < |s| ==> Below(s[i], s[j])
  }

  /** Inserts `k` in front of the first element it sorts below. */
  function Insert(k: string, s: seq<string>): (r: seq<string>)
    ensures multiset(r) == multiset(s) + multiset{k}
  {
    if s == [] then [k]
    else if Below(k, s[0]) then [k] + s
    else
      assert s == [s[0]] + s[1..];
      [s[0]] + Insert(k, s[1..])
  }

  /** The keys in sorted order (insertion sort stands for the engine's sort). */
  function SortKeys(ks: seq<string>): (r: seq<string>)
    ensures multiset(r) == multiset(ks)
  {
    if ks == [] then []
    else
      assert ks == [ks[0]] + ks[1..];
      Insert(ks[0], SortKeys(ks[1..]))
  }

  lemma {:induction false} InsertAscending(k: string, s: seq<string>)
    requires StrictlyAscending(s) && k !in s
    ensures StrictlyAscending(Insert(k, s))
  {
    if s != [] && !Below(k, s[0]) {
      assert k != s[0];
      BelowTotal(k, s[0]);
      InsertAscending(k, s[1..]);
      var rest := Insert(k, s[1..]);
      forall x | x in rest ensures Below(s[0], x) {
        assert x in multiset(rest);
        if x != k {
          assert x in s[1..];
          var j :| 0 <= j < |s[1..]| && s[1..][j] == x;
          assert s[j + 1] == x;
        }
      }
      var r := [s[0]] + rest;
      forall i, j | 0 <= i < j < |r| ensures Below(r[i], r[j]) {
        if i == 0 { assert r[j] == rest[j - 1] && rest[j - 1] in rest; }
        else { assert r[i] == rest[i - 1] && r[j] == rest[j - 1]; }
      }
    } else if s != [] {
      var r := [k] + s;
      forall i, j | 0 <= i < j < |r| ensures Below(r[i], r[j]) {
        if i == 0 && j > 1 { BelowTransitive(k, s[0], s[j - 1]); }
      }
    }
  }

  /** Distinct keys sort into a strictly ascending list. */
  lemma {:induction false} SortKeysAscending(ks: seq<string>)
    requires forall i, j :: 0 <= i < j < |ks| ==> ks[i] != ks[j]
    ensures StrictlyAscending(SortKeys(ks))
  {
    if ks != [] {
      SortKeysAscending(ks[1..]);
      assert forall j :: 0 <= j < |ks[1..]| ==> ks[1..][j] == ks[j + 1];
      assert ks[0] !in multiset(ks[1..]);
      InsertAscending(ks[0], SortKeys(ks[1..]));
    }
  }

  /** Two strictly ascending lists with the same elements are the same list. */
  lemma {:induction false} AscendingUnique(a: seq<string>, b: seq<string>)
    requires StrictlyAscending(a) && StrictlyAscending(b)
    requires forall x :: x in a <==> x in b
    ensures a == b
  {
    assert b != [] ==> b[0] in a;
    if a != [] {
      assert a[0] in b;
      var j :| 0 <= j < |b| && b[j] == a[0];
      assert b[0] in b;
      assert b[0] in a;
      var i :| 0 <= i < |a| && a[i] == b[0];
      if j > 0 {
        assert Below(b[0], b[j]);
        if i > 0 {
          assert Below(a[0], a[i]);
          BelowTransitive(a[0], a[i], a[0]);
        }
        BelowIrreflexive(a[0]);
      }
      assert a[0] == b[0];
      forall x ensures x in a[1..] <==> x in b[1..] {
        if x in a[1..] {
          var p :| 0 <= p < |a[1..]| && a[1..][p] == x;
          assert Below(a[0], a[p + 1]);
          BelowIrreflexive(x);
          assert x in b && x != b[0];
          var q :| 0 <= q < |b| && b[q] == x;
          assert b[1..][q - 1] == x;
        }
        if x in b[1..] {
          var p :| 0 <= p < |b[1..]| && b[1..][p] == x;
          assert Below(b[0], b[p + 1]);
          BelowIrreflexive(x);
          assert x in a && x != a[0];
          var q :| 0 <= q < |a| && a[q] == x;
          assert a[1..][q - 1] == x;
        }
      }
      AscendingUnique(a[1..], b[1..]);
      assert a == [a[0]] + a[1..] && b == [b[0]] + b[1..];
    }
  }

  /** The sorted keys are exactly the object's keys. */
  lemma SortedKeysAreKeys(q: Queries)
    ensures |SortKeys(KeyList(q))| == |q|
    ensures forall k :: k in SortKeys(KeyList(q)) <==> k in AsMap(q)
    ensures StrictlyAscending(SortKeys(KeyList(q)))
  {
    var ks := KeyList(q);
    assert |multiset(SortKeys(ks))| == |multiset(ks)|;
    forall k ensures k in SortKeys(ks) <==> k in AsMap(q) {
      assert k in SortKeys(ks) <==> k in multiset(ks);
      if k in AsMap(q) {
        var i :| 0 <= i < |q| && q[i].0 == k;
        assert ks[i] == k;
      }
    }
    SortKeysAscending(ks);
  }

  /** `getTerms`: the sorted keys, each paired with the expression its builder produced. */
  function GetTerms(q: Queries): (r: seq<Term>)
    ensures |r| == |q|
    ensures forall i :: 0 <= i < |r| ==> r[i].key in AsMap(q) && r[i].expression == AsMap(q)[r[i].key]
  {
    var ks := SortKeys(KeyList(q));
    SortedKeysAreKeys(q);
    assert forall i :: 0 <= i < |ks| ==> ks[i] in ks;
    seq(|ks|, i requires 0 <= i < |ks| => Term(ks[i], AsMap(q)[ks[i]]))
  }

  /** One term per key of the object, and the keys strictly ascending. */
  lemma GetTermsSorted(q: Queries)
    ensures forall i, j :: 0 <= i < j < |GetTerms(q)| ==> Below(GetTerms(q)[i].key, GetTerms(q)[j].key)
    ensures Merge.KeysOf(GetTerms(q)) == AsMap(q).Keys
  {
    var ks := SortKeys(KeyList(q));
    var r := GetTerms(q);
    SortedKeysAreKeys(q);
    assert forall i :: 0 <= i < |r| ==> r[i].key == ks[i];
    forall k | k in AsMap(q) ensures k in Merge.KeysOf(r) {
      var i :| 0 <= i < |ks| && ks[i] == k;
      assert r[i].key == k;
    }
  }

  /** The term list depends only on the object's contents, not on its insertion order. */
  lemma GetTermsOrderIndependent(q1: Queries, q2: Queries)
    requires AsMap(q1) == AsMap(q2)
    ensures GetTerms(q1) == GetTerms(q2)
  {
    SortedKeysAreKeys(q1);
    SortedKeysAreKeys(q2);
    AscendingUnique(SortKeys(KeyList(q1)), SortKeys(KeyList(q2)));
  }

  /** `getTermsOrExpression`: one builder gives its expression, an object its sorted terms. */
  function GetTermsOrExpression(input: QueryInput): TermsOrExpression {
    match input
    case Builder(e) => Single(e)
    case Builders(q) => Terms(GetTerms(q))
  }

  /** `hashQueryIdentifier`: the bare value without options, the wrapper with them. */
  function HashQueryIdentifier(t: TermsOrExpression, options: Option<Options>): (id: Identifier)
    ensures id.termsOrExpression == t
    ensures id.WithOptions? <==> options.Some?
    ensures id.WithOptions? ==> id.options == options.value
  {
    if options.Some? then WithOptions(t, options.value) else Plain(t)
  }

  /** Reading an identifier back (`JSON.parse`): its terms-or-expression and its options. */
  function DecodeIdentifier(id: Identifier): (r: (TermsOrExpression, Option<Options>))
    ensures HashQueryIdentifier(r.0, r.1) == id
  {
    match id
    case Plain(t) => (t, None)
    case WithOptions(t, o) => (t, Some(o))
  }

  /** Decoding gives back exactly what was encoded. */
  lemma DecodeInvertsHash(t: TermsOrExpression, options: Option<Options>)
    ensures DecodeIdentifier(HashQueryIdentifier(t, options)) == (t, options)
  {
  }

  /** The same query with and without options has two different identifiers. */
  lemma OptionsMakeDistinctIdentifiers(t: TermsOrExpression, o: Options)
    ensures HashQueryIdentifier(t, None) != HashQueryIdentifier(t, Some(o))
  {
  }

  /** Two builder objects with the same contents share one identifier. */
  lemma SameContentsSameIdentifier(q1: Queries, q2: Queries, options: Option<Options>)
    requires AsMap(q1) == AsMap(q2)
    ensures HashQueryIdentifier(GetTermsOrExpression(Builders(q1)), options) ==
            HashQueryIdentifier(GetTermsOrExpression(Builders(q2)), options)
  {
    GetTermsOrderIndependent(q1, q2);
  }

  const MultipleOptionsMessage: string :=
    "Options are invalid. When making multiple queries" +
    "the options must be an array of objects with a \"queryKey\" property that refers to the query to which the options apply"

  const InvalidOptionsMessage: string := "Options are invalid."

  /**
    `validateOptions`: `None` when it returns, `Some(message)` when it
    throws. Absent options always pass; a term list needs array options and
    a bare expression needs object options.
   */
  function ValidateOptions(t: TermsOrExpression, options: Option<Options>): (r: Option<string>)
    ensures options.None? ==> r.None?
    ensures r == Some(MultipleOptionsMessage) <==> t.Terms? && options.Some? && options.value.ObjectOptions?
    ensures r == Some(InvalidOptionsMessage) <==> t.Single? && options.Some? && options.value.ArrayOptions?
    ensures r.None? <==> options.None? || (t.Terms? <==> options.value.ArrayOptions?)
  {
    if options.None? then None
    else if t.Terms? && !options.value.ArrayOptions? then Some(MultipleOptionsMessage)
    else if !t.Terms? && options.value.ArrayOptions? then Some(InvalidOptionsMessage)
    else None
  }
}
