/** The order in which a route visits its students: Python's stable `sorted` on the key
    (school_lat, school_lng), compared lexicographically. */
module SchoolOrder {
  import opened Models

  function Key(s: Student): (int, int) {
    (s.school_lat, s.school_lng)
  }

  /** Lexicographic comparison of two keys, as Python compares tuples. */
  predicate KeyLe(a: (int, int), b: (int, int)) {
    a.0 < b.0 || (a.0 == b.0 && a.1 <= b.1)
  }

  predicate SortedByKey(s: seq<Student>) {
    forall i, j :: 0 <= i < j < |s| ==> KeyLe(Key(s[i]), Key(s[j]))
  }

  /** The students of `s` whose key is `k`, in the order in which they occur in `s`. */
  function WithKey(s: seq<Student>, k: (int, int)): seq<Student> {
    if s == [] then []
    else (if Key(s[0]) == k then [s[0]] else []) + WithKey(s[1..], k)
  }

  /** Puts `x` in front of the first element whose key is not smaller than its own. */
  function Insert(x: Student, s: seq<Student>): (r: seq<Student>)
    requires SortedByKey(s)
    ensures SortedByKey(r)
    ensures multiset(r) == multiset(s) + multiset{x}
  {
    if s == [] || KeyLe(Key(x), Key(s[0])) then [x] + s
    else
      var rest := Insert(x, s[1..]);
      assert s == [s[0]] + s[1..];
      InsertHeadFirst(x, s, rest);
      [s[0]] + rest
  }

  /** Why Insert's recursive case stays sorted: the head of `s` is not larger than `x`
      nor than anything else in `s`. */
  lemma InsertHeadFirst(x: Student, s: seq<Student>, rest: seq<Student>)
    requires SortedByKey(s) && s != [] && !KeyLe(Key(x), Key(s[0]))
    requires SortedByKey(rest) && multiset(rest) == multiset(s[1..]) + multiset{x}
    ensures SortedByKey([s[0]] + rest)
  {
    forall j | 0 <= j < |rest|
      ensures KeyLe(Key(s[0]), Key(rest[j]))
    {
      assert rest[j] in multiset(rest);
      if rest[j] != x {
        assert rest[j] in multiset(s[1..]);
        assert rest[j] in s[1..];
      }
    }
  }

  /** The students ordered by school coordinates; a stable sort. */
  function SortBySchool(s: seq<Student>): (r: seq<Student>)
    ensures SortedByKey(r)
    ensures multiset(r) == multiset(s)
    ensures |r| == |s|
  {
    if s == [] then []
    else
      assert s == [s[0]] + s[1..];
      Insert(s[0], SortBySchool(s[1..]))
  }

  lemma {:induction false} InsertWithKey(x: Student, s: seq<Student>, k: (int, int))
    requires SortedByKey(s)
    ensures WithKey(Insert(x, s), k) == if Key(x) == k then [x] + WithKey(s, k) else WithKey(s, k)
  {
    if s == [] || KeyLe(Key(x), Key(s[0])) {
      assert ([x] + s)[1..] == s;
    } else {
      var r := Insert(x, s);
      assert r[0] == s[0] && r[1..] == Insert(x, s[1..]);
      InsertWithKey(x, s[1..], k);
    }
  }

  /** Stability: for every key, the students with that key keep their input order. */
  lemma {:induction false} SortIsStable(s: seq<Student>, k: (int, int))
    ensures WithKey(SortBySchool(s), k) == WithKey(s, k)
  {
    if s != [] {
      SortIsStable(s[1..], k);
      InsertWithKey(s[0], SortBySchool(s[1..]), k);
    }
  }

  /** A list already in key order is left as it is; in particular sorting is idempotent. */
  lemma {:induction false} SortedIsUnchanged(s: seq<Student>)
    requires SortedByKey(s)
    ensures SortBySchool(s) == s
  {
    if s != [] {
      SortedIsUnchanged(s[1..]);
      assert s == [s[0]] + s[1..];
    }
  }

  lemma SortIsIdempotent(s: seq<Student>)
    ensures SortBySchool(SortBySchool(s)) == SortBySchool(s)
  {
    SortedIsUnchanged(SortBySchool(s));
  }

  /** Students who all kept the default school position (0.0, 0.0) are visited in input order. */
  lemma DefaultSchoolsKeepOrder(s: seq<Student>)
    requires forall i :: 0 <= i < |s| ==> s[i].school_lat == 0 && s[i].school_lng == 0
    ensures SortBySchool(s) == s
  {
    SortedIsUnchanged(s);
  }
}
