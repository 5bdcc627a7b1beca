/**
 * What a document-store `find` does with a filter, a one-key sort, a skip and
 * a limit, over a collection held as a sequence in natural (insertion) order.
 * Sorting is stable, so records with equal keys keep their natural order. A
 * limit of 0 means no limit and a negative limit returns that many records;
 * a negative skip is refused by the store.
 */
module DocumentQuery {
  import opened Wrappers

  /** The records of `s` that satisfy `keep`, in their original order. */
  function Select<T>(s: seq<T>, keep: T -> bool): (r: seq<T>)
    ensures |r| <= |s|
    ensures forall i :: 0 <= i < |r| ==> keep(r[i])
  {
    if s == [] then []
    else
      var rest := Select(s[1..], keep);
      assert s == [s[0]] + s[1..];
      if keep(s[0]) then [s[0]] + rest else rest
  }

  /** Selecting everything a predicate lets through gives back every record it matches. */
  lemma {:induction false} SelectCount<T>(s: seq<T>, keep: T -> bool, x: T)
    ensures multiset(Select(s, keep))[x] == if keep(x) then multiset(s)[x] else 0
  {
    if s != [] {
      SelectCount(s[1..], keep, x);
      assert s == [s[0]] + s[1..];
    }
  }

  /** Selecting from a sequence with one record in front selects that record first, if at all. */
  lemma SelectCons<T>(x: T, s: seq<T>, keep: T -> bool)
    ensures Select([x] + s, keep) == (if keep(x) then [x] else []) + Select(s, keep)
  {
    assert ([x] + s)[1..] == s;
  }

  /** Selection invents no records. */
  lemma {:induction false} SelectSubset<T>(s: seq<T>, keep: T -> bool)
    ensures multiset(Select(s, keep)) <= multiset(s)
  {
    if s != [] {
      SelectSubset(s[1..], keep);
      assert s == [s[0]] + s[1..];
      SelectCons(s[0], s[1..], keep);
    }
  }

  /** Selection keeps every matching record. */
  lemma {:induction false} SelectMembers<T>(s: seq<T>, keep: T -> bool)
    ensures forall i :: 0 <= i < |s| && keep(s[i]) ==> s[i] in Select(s, keep)
  {
    if s != [] {
      SelectMembers(s[1..], keep);
      assert s == [s[0]] + s[1..];
      SelectCons(s[0], s[1..], keep);
      forall i | 0 <= i < |s| && keep(s[i]) ensures s[i] in Select(s, keep) {
        if i > 0 { assert s[i] == s[1..][i - 1]; }
      }
    }
  }

  /** Selecting from a sequence extended by one record selects that record last, if at all. */
  lemma {:induction false} SelectAppend<T>(s: seq<T>, x: T, keep: T -> bool)
    ensures Select(s + [x], keep) == Select(s, keep) + (if keep(x) then [x] else [])
  {
    if s == [] {
      assert s + [x] == [x] + [];
      SelectCons(x, [], keep);
    } else {
      assert s + [x] == [s[0]] + (s[1..] + [x]);
      assert s == [s[0]] + s[1..];
      SelectCons(s[0], s[1..] + [x], keep);
      SelectCons(s[0], s[1..], keep);
      SelectAppend(s[1..], x, keep);
    }
  }

  ghost predicate SortedAsc<T>(s: seq<T>, key: T -> int)
  {
    forall i, j :: 0 <= i < j < |s| ==> key(s[i]) <= key(s[j])
  }

  /** Puts `x` in front of the first record whose key is not smaller. */
  function Insert<T>(x: T, s: seq<T>, key: T -> int): (r: seq<T>)
    requires SortedAsc(s, key)
    ensures SortedAsc(r, key)
    ensures multiset(r) == multiset(s) + multiset{x}
    ensures |r| == |s| + 1
  {
    if s == [] then [x]
    else if key(x) <= key(s[0]) then [x] + s
    else
      var rest := Insert(x, s[1..], key);
      assert s == [s[0]] + s[1..];
      LowerBoundKept(rest, s[1..], x, key, key(s[0]));
      [s[0]] + rest
  }

  /** A lower bound on the keys of `t` and of `x` bounds every key of a sequence holding exactly those records. */
  lemma LowerBoundKept<T>(r: seq<T>, t: seq<T>, x: T, key: T -> int, b: int)
    requires multiset(r) == multiset(t) + multiset{x}
    requires b <= key(x) && forall k :: 0 <= k < |t| ==> b <= key(t[k])
    ensures forall k :: 0 <= k < |r| ==> b <= key(r[k])
  {
    forall k | 0 <= k < |r| ensures b <= key(r[k]) {
      assert r[k] in multiset(r);
      assert r[k] == x || r[k] in multiset(t);
    }
  }

  /** A stable sort of `s` by ascending `key`. */
  function SortAsc<T>(s: seq<T>, key: T -> int): (r: seq<T>)
    ensures SortedAsc(r, key)
    ensures multiset(r) == multiset(s)
    ensures |r| == |s|
  {
    if s == [] then []
    else
      assert s == [s[0]] + s[1..];
      Insert(s[0], SortAsc(s[1..], key), key)
  }

  function Negated<T>(key: T -> int): T -> int
  {
    x => -key(x)
  }

  ghost predicate SortedDesc<T>(s: seq<T>, key: T -> int)
  {
    forall i, j :: 0 <= i < j < |s| ==> key(s[i]) >= key(s[j])
  }

  /** A stable sort of `s` by descending `key`. */
  function SortDesc<T>(s: seq<T>, key: T -> int): (r: seq<T>)
    ensures SortedDesc(r, key)
    ensures multiset(r) == multiset(s)
    ensures |r| == |s|
  {
    var r := SortAsc(s, Negated(key));
    assert forall i, j :: 0 <= i < j < |r| ==> key(r[i]) >= key(r[j]) by {
      forall i, j | 0 <= i < j < |r| ensures key(r[i]) >= key(r[j]) {
        assert Negated(key)(r[i]) <= Negated(key)(r[j]);
      }
    }
    r
  }

  /** The records whose key is `k`. */
  function KeyIs<T>(key: T -> int, k: int): T -> bool
  {
    x => key(x) == k
  }

  /** Two predicates that agree everywhere select the same records. */
  lemma {:induction false} SelectSame<T>(s: seq<T>, p: T -> bool, q: T -> bool)
    requires forall x :: p(x) == q(x)
    ensures Select(s, p) == Select(s, q)
  {
    if s != [] {
      SelectSame(s[1..], p, q);
    }
  }

  /** Inserting `x` puts it before every record of `t` with the same key. */
  lemma {:induction false} InsertStable<T>(x: T, t: seq<T>, key: T -> int, k: int)
    requires SortedAsc(t, key)
    ensures Select(Insert(x, t, key), KeyIs(key, k)) == Select([x] + t, KeyIs(key, k))
  {
    if t != [] && key(x) > key(t[0]) {
      var p := KeyIs(key, k);
      assert t == [t[0]] + t[1..];
      InsertStable(x, t[1..], key, k);
      SelectCons(t[0], Insert(x, t[1..], key), p);
      SelectCons(x, t[1..], p);
      SelectCons(x, t, p);
      SelectCons(t[0], t[1..], p);
      assert !(p(x) && p(t[0]));
    }
  }

  /**
   * The ascending sort is stable: the records of any one key come out in
   * the order they went in.
   */
  lemma {:induction false} SortAscStable<T>(s: seq<T>, key: T -> int, k: int)
    ensures Select(SortAsc(s, key), KeyIs(key, k)) == Select(s, KeyIs(key, k))
  {
    if s != [] {
      assert s == [s[0]] + s[1..];
      SortAscStable(s[1..], key, k);
      InsertStable(s[0], SortAsc(s[1..], key), key, k);
      SelectCons(s[0], SortAsc(s[1..], key), KeyIs(key, k));
      SelectCons(s[0], s[1..], KeyIs(key, k));
    }
  }

  /** The descending sort is stable too. */
  lemma SortDescStable<T>(s: seq<T>, key: T -> int, k: int)
    ensures Select(SortDesc(s, key), KeyIs(key, k)) == Select(s, KeyIs(key, k))
  {
    var p, q := KeyIs(Negated(key), -k), KeyIs(key, k);
    var r := SortAsc(s, Negated(key));
    assert SortDesc(s, key) == r;
    forall x ensures p(x) == q(x) {
      assert p(x) == (-key(x) == -k);
    }
    SortAscStable(s, Negated(key), -k);
    SelectSame(r, p, q);
    SelectSame(s, p, q);
  }

  /** Any contiguous part of a descending sequence is descending. */
  lemma SortedDescSlice<T>(s: seq<T>, key: T -> int, from: nat, to: nat)
    requires SortedDesc(s, key) && from <= to <= |s|
    ensures SortedDesc(s[from..to], key)
  {
    forall i, j | 0 <= i < j < to - from ensures key(s[from..to][i]) >= key(s[from..to][j]) {
      assert s[from..to][i] == s[from + i] && s[from..to][j] == s[from + j];
    }
  }

  function Min(a: int, b: int): int { if a <= b then a else b }

  function Abs(a: int): nat { if a < 0 then -a else a }

  /** The store's limit: 0 keeps everything, otherwise at most |limit| records from the front. */
  function ApplyLimit<T>(s: seq<T>, limit: int): (r: seq<T>)
    ensures limit == 0 ==> r == s
    ensures limit != 0 ==> r == s[..Min(|s|, Abs(limit))]
    ensures limit > 0 ==> |r| <= limit
    ensures multiset(r) <= multiset(s)
  {
    if limit == 0 then s
    else
      var n := Min(|s|, Abs(limit));
      assert s == s[..n] + s[n..];
      s[..n]
  }

  /** The store's skip: drops the first `skip` records, or all of them when there are fewer. */
  function ApplySkip<T>(s: seq<T>, skip: nat): (r: seq<T>)
    ensures r == s[Min(|s|, skip)..]
    ensures multiset(r) <= multiset(s)
  {
    var n := Min(|s|, skip);
    assert s == s[..n] + s[n..];
    s[n..]
  }

  /** Skipping and then limiting leaves one contiguous window of the sequence. */
  function Window<T>(s: seq<T>, skip: nat, limit: int): (r: seq<T>)
    ensures var from := Min(|s|, skip);
            r == s[from..if limit == 0 then |s| else Min(|s|, from + Abs(limit))]
  {
    var from := Min(|s|, skip);
    var rest := ApplySkip(s, skip);
    assert rest == s[from..];
    ApplyLimit(rest, limit)
  }

  /** The text the store answers a negative skip with. */
  const NegativeSkip := "skip value must be non-negative"

  /** The text the store answers an insert of an existing `_id` with. */
  const DuplicateKey := "E11000 duplicate key error"

  predicate HasKey<T>(docs: seq<T>, idOf: T -> string, id: string)
  {
    exists i :: 0 <= i < |docs| && idOf(docs[i]) == id
  }

  /**
   * The store's `insertOne`: the document goes at the end of the collection,
   * unless the call fails or the collection already holds its `_id`.
   */
  function InsertOne<T>(docs: seq<T>, doc: T, idOf: T -> string, fault: Option<string>)
    : (r: Result<seq<T>, string>)
    ensures r.Success? <==> fault.None? && !HasKey(docs, idOf, idOf(doc))
    ensures r.Success? ==> r.value == docs + [doc]
    ensures fault.Some? ==> r == Failure(fault.value)
    ensures fault.None? && HasKey(docs, idOf, idOf(doc)) ==> r == Failure(DuplicateKey)
  {
    if fault.Some? then Failure(fault.value)
    else if HasKey(docs, idOf, idOf(doc)) then Failure(DuplicateKey)
    else Success(docs + [doc])
  }
}
