/** What the store does with a `find`, `find_one` or `delete_one` filter and with a
    cursor's `sort("created_at", -1)`, `skip` and `limit`. */
module Query {
  import opened Bson

  /** The condition a filter places on one field. */
  datatype Condition =
    | Eq(v: Value)                // {"f": v}
    | Regex(pattern: string)      // {"f": {"$regex": p, "$options": "i"}}
    | In(vs: set<Value>)          // {"f": {"$in": [...]}}

  /** A filter document: every field condition must hold. */
  type Filter = map<string, Condition>

  predicate OccursAt(p: string, s: string, i: nat)
  {
    i + |p| <= |s| && s[i..i + |p|] == p
  }

  /** A case-insensitive regular-expression search, read as a search for the
      pattern's literal text ignoring ASCII case. */
  predicate RegexMatches(s: string, p: string)
  {
    exists i: nat | i <= |s| :: OccursAt(Lower(p), Lower(s), i)
  }

  /** Whether field value `x` satisfies `c`.  Equality and `$in` also match an
      array field when one of its elements does, as the store does. */
  predicate Holds(c: Condition, x: Value)
  {
    match c
    case Eq(v) => x == v || (x.Array? && v in x.items)
    case Regex(p) =>
      (x.Str? && RegexMatches(x.s, p)) ||
      (x.Array? && exists e :: e in x.items && e.Str? && RegexMatches(e.s, p))
    case In(vs) => x in vs || (x.Array? && exists e :: e in x.items && e in vs)
  }

  /** On a field that is not an array, equality is plain equality and `$in` is
      membership; an empty `$in` matches nothing at all. */
  lemma HoldsOnScalars(c: Condition, x: Value)
    ensures c.Eq? && x == c.v ==> Holds(c, x)
    ensures c.Eq? && !x.Array? ==> (Holds(c, x) <==> x == c.v)
    ensures c.In? && !x.Array? ==> (Holds(c, x) <==> x in c.vs)
    ensures c.In? && c.vs == {} ==> !Holds(c, x)
  {
  }

  /** Whether `d` satisfies every condition of `f`.  The empty filter matches
      every document; a field the document lacks is matched as null. */
  predicate Matches(d: Doc, f: Filter)
    ensures f == map[] ==> Matches(d, f)
  {
    forall k :: k in f ==> Holds(f[k], Get(d, k))
  }

  /** `find(f)` before sorting: the matching documents in the store's order. */
  function Find(docs: seq<Doc>, f: Filter): (r: seq<Doc>)
    ensures |r| <= |docs|
    ensures forall i :: 0 <= i < |r| ==> Matches(r[i], f)
    ensures forall d :: d in r <==> d in docs && Matches(d, f)
  {
    if docs == [] then []
    else
      var rest := Find(docs[1..], f);
      assert forall d :: d in docs <==> d == docs[0] || d in docs[1..];
      if Matches(docs[0], f) then [docs[0]] + rest else rest
  }

  /** Searching a concatenation searches each part in turn. */
  lemma {:induction false} FindAppend(a: seq<Doc>, b: seq<Doc>, f: Filter)
    ensures Find(a + b, f) == Find(a, f) + Find(b, f)
  {
    if a == [] {
      assert a + b == b;
    } else {
      assert (a + b)[1..] == a[1..] + b;
      FindAppend(a[1..], b, f);
    }
  }

  /** The position `find_one(f)` and `delete_one(f)` act on: the first match. */
  function FirstMatch(docs: seq<Doc>, f: Filter): (r: Option<nat>)
    ensures r.Some? ==> r.value < |docs| && Matches(docs[r.value], f)
    ensures r.Some? ==> forall j :: 0 <= j < r.value ==> !Matches(docs[j], f)
    ensures r.None? ==> forall j :: 0 <= j < |docs| ==> !Matches(docs[j], f)
  {
    if docs == [] then None
    else if Matches(docs[0], f) then Some(0)
    else match FirstMatch(docs[1..], f)
         case None => None
         case Some(i) => Some(i + 1)
  }

  /** `find_one(f)` finds the same document a full `find(f)` lists first. */
  lemma {:induction false} FirstMatchIsFirstFound(docs: seq<Doc>, f: Filter)
    ensures FirstMatch(docs, f).None? <==> Find(docs, f) == []
    ensures FirstMatch(docs, f).Some? ==> Find(docs, f)[0] == docs[FirstMatch(docs, f).value]
  {
    if docs != [] && !Matches(docs[0], f) {
      FirstMatchIsFirstFound(docs[1..], f);
    }
  }

  /** `delete_one(f)`: the store without its first match, and how many were deleted. */
  function DeleteOne(docs: seq<Doc>, f: Filter): (r: (seq<Doc>, nat))
    ensures r.1 <= 1 && |r.0| + r.1 == |docs|
    ensures FirstMatch(docs, f).None? ==> r == (docs, 0)
    ensures FirstMatch(docs, f).Some? ==>
      var i := FirstMatch(docs, f).value; r == (docs[..i] + docs[i + 1..], 1)
  {
    match FirstMatch(docs, f)
    case None => (docs, 0)
    case Some(i) => (docs[..i] + docs[i + 1..], 1)
  }

  /** The `created_at` sort key; a field that is not a date sorts as missing. */
  function Stamp(d: Doc): Option<int>
  {
    if Get(d, "created_at").Date? then Some(Get(d, "created_at").t) else None
  }

  /** `a` may come before `b` in a descending sort: missing keys sort last. */
  predicate NewerOrSame(a: Doc, b: Doc)
  {
    match Stamp(b)
    case None => true
    case Some(y) => Stamp(a).Some? && Stamp(a).value >= y
  }

  predicate ByRecency(s: seq<Doc>)
  {
    forall i, j :: 0 <= i < j < |s| ==> NewerOrSame(s[i], s[j])
  }

  /** Places `d` before the first document that is not strictly newer. */
  function Insert(d: Doc, s: seq<Doc>): (r: seq<Doc>)
    ensures multiset(r) == multiset(s) + multiset{d}
  {
    if s == [] then [d]
    else if NewerOrSame(d, s[0]) then [d] + s
    else
      assert s == [s[0]] + s[1..];
      [s[0]] + Insert(d, s[1..])
  }

  lemma NewerOrSameTotal(a: Doc, b: Doc)
    ensures NewerOrSame(a, b) || NewerOrSame(b, a)
  {
  }

  lemma NewerOrSameTransitive(a: Doc, b: Doc, c: Doc)
    requires NewerOrSame(a, b) && NewerOrSame(b, c)
    ensures NewerOrSame(a, c)
  {
  }

  /** Prepending a document at least as recent as every element keeps the order. */
  lemma PrependByRecency(d: Doc, s: seq<Doc>)
    requires ByRecency(s)
    requires forall k :: 0 <= k < |s| ==> NewerOrSame(d, s[k])
    ensures ByRecency([d] + s)
  {
    var r := [d] + s;
    forall i, j | 0 <= i < j < |r| ensures NewerOrSame(r[i], r[j]) {
      assert r[j] == s[j - 1];
      if i > 0 {
        assert r[i] == s[i - 1];
      }
    }
  }

  lemma {:induction false} InsertByRecency(d: Doc, s: seq<Doc>)
    requires ByRecency(s)
    ensures ByRecency(Insert(d, s))
  {
    if s == [] {
    } else if NewerOrSame(d, s[0]) {
      forall j | 0 <= j < |s| ensures NewerOrSame(d, s[j]) {
        if j > 0 {
          NewerOrSameTransitive(d, s[0], s[j]);
        }
      }
      PrependByRecency(d, s);
    } else {
      var t := Insert(d, s[1..]);
      InsertByRecency(d, s[1..]);
      forall k | 0 <= k < |t| ensures NewerOrSame(s[0], t[k]) {
        assert t[k] in multiset(t);
        if t[k] == d {
          NewerOrSameTotal(d, s[0]);
        } else {
          assert t[k] in multiset(s[1..]);
          var m :| 0 <= m < |s[1..]| && s[1..][m] == t[k];
          assert s[m + 1] == t[k];
        }
      }
      PrependByRecency(s[0], t);
    }
  }

  /** `sort("created_at", -1)`: most recent first; documents with equal keys keep
      the store's order. */
  function SortByRecency(s: seq<Doc>): (r: seq<Doc>)
    ensures ByRecency(r)
    ensures multiset(r) == multiset(s)
  {
    if s == [] then []
    else
      var t := SortByRecency(s[1..]);
      InsertByRecency(s[0], t);
      assert s == [s[0]] + s[1..];
      Insert(s[0], t)
  }

  function Abs(n: int): nat
  {
    if n < 0 then -n else n
  }

  /** The driver cannot send a `skip`, or a `limit` by its magnitude, of 2^63 or
      more, and raises instead. */
  predicate Encodable(n: int)
  {
    Abs(n) < Int64Limit
  }

  /** `skip(skip).limit(limit)` on a sorted cursor.  A limit of 0 is no limit; a
      negative limit bounds the result by its magnitude. */
  function Page<T>(s: seq<T>, skip: nat, limit: int): (r: seq<T>)
    ensures limit != 0 ==> |r| <= Abs(limit)
    ensures forall i :: 0 <= i < |r| ==> skip + i < |s| && r[i] == s[skip + i]
    ensures skip + |r| < |s| ==> limit != 0 && |r| == Abs(limit)
  {
    var rest := if skip <= |s| then s[skip..] else [];
    if limit == 0 || |rest| <= Abs(limit) then rest else rest[..Abs(limit)]
  }
}
