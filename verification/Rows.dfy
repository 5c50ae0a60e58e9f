/** The rows of the two MLS tables and the order in which readers see them.
    A table is the sequence of its rows in id order; group ids and welcome ids are
    two separate id spaces, so a row is always read through its topic. */
module Rows {

  newtype byte = x: int | 0 <= x < 256

  datatype Kind = Group | Welcome

  datatype Topic = Topic(kind: Kind, ident: seq<byte>)

  /** One stored message. `size` is the length of its data column, `wire` the length of the
      envelope the poller marshals it into; `known` says whether its message_type is one the
      readers can parse (always so for group messages). */
  datatype Row = Row(id: nat, topic: Topic, size: nat, wire: nat, known: bool)

  const MAX_INT64 := 0x7FFF_FFFF_FFFF_FFFF

  ghost predicate Ascending(s: seq<Row>) {
    forall i, j :: 0 <= i < j < |s| ==> s[i].id < s[j].id
  }

  ghost predicate NonDescending(s: seq<Row>) {
    forall i, j :: 0 <= i < j < |s| ==> s[i].id <= s[j].id
  }

  /** What a read of one table may return: ids are BIGINTs, at least 1, and unique. */
  ghost predicate TableOk(tab: seq<Row>, k: Kind) {
    && Ascending(tab)
    && (forall r :: r in tab ==> 1 <= r.id <= MAX_INT64 && r.topic.kind == k)
    && (k == Group ==> forall r :: r in tab ==> r.known)
  }

  function MaxId(tab: seq<Row>): nat {
    if tab == [] then 0 else tab[|tab| - 1].id
  }

  /** The id of the last row of `s`, or `lo` when there is none. */
  function LastId(s: seq<Row>, lo: nat): nat {
    if s == [] then lo else s[|s| - 1].id
  }

  lemma MaxIdBounds(tab: seq<Row>, r: Row)
    requires Ascending(tab) && r in tab
    ensures r.id <= MaxId(tab)
  {
    var i :| 0 <= i < |tab| && tab[i] == r;
  }

  // ----- one topic's rows -----

  function Proj(s: seq<Row>, t: Topic): seq<Row> {
    if s == [] then []
    else if s[0].topic == t then [s[0]] + Proj(s[1..], t)
    else Proj(s[1..], t)
  }

  lemma {:induction false} ProjConcat(a: seq<Row>, b: seq<Row>, t: Topic)
    ensures Proj(a + b, t) == Proj(a, t) + Proj(b, t)
  {
    if a == [] {
      assert a + b == b;
    } else {
      assert (a + b)[1..] == a[1..] + b;
      ProjConcat(a[1..], b, t);
    }
  }

  lemma {:induction false} ProjMember(s: seq<Row>, t: Topic, r: Row)
    ensures r in Proj(s, t) <==> r in s && r.topic == t
  {
    if s != [] {
      ProjMember(s[1..], t, r);
      assert s == [s[0]] + s[1..];
    }
  }

  lemma {:induction false} ProjOfTopic(s: seq<Row>, t: Topic)
    requires forall r :: r in s ==> r.topic == t
    ensures Proj(s, t) == s
  {
    if s != [] {
      assert s == [s[0]] + s[1..];
      ProjOfTopic(s[1..], t);
    }
  }

  lemma {:induction false} ProjOfOthers(s: seq<Row>, t: Topic)
    requires forall r :: r in s ==> r.topic != t
    ensures Proj(s, t) == []
  {
    if s != [] {
      assert s == [s[0]] + s[1..];
      ProjOfOthers(s[1..], t);
    }
  }

  /** The parseable rows of `s`, in order. */
  function Known(s: seq<Row>): seq<Row> {
    if s == [] then []
    else if s[0].known then [s[0]] + Known(s[1..])
    else Known(s[1..])
  }

  lemma {:induction false} KnownConcat(a: seq<Row>, b: seq<Row>)
    ensures Known(a + b) == Known(a) + Known(b)
  {
    if a == [] {
      assert a + b == b;
    } else {
      assert (a + b)[1..] == a[1..] + b;
      KnownConcat(a[1..], b);
    }
  }

  lemma {:induction false} KnownMember(s: seq<Row>, r: Row)
    ensures r in Known(s) <==> r in s && r.known
  {
    if s != [] {
      KnownMember(s[1..], r);
      assert s == [s[0]] + s[1..];
    }
  }

  lemma {:induction false} KnownAscending(s: seq<Row>)
    requires Ascending(s)
    ensures Ascending(Known(s))
  {
    if s != [] {
      KnownAscending(s[1..]);
      var p := Known(s[1..]);
      forall j | 0 <= j < |p| ensures s[0].id < p[j].id {
        assert p[j] in p;
        KnownMember(s[1..], p[j]);
      }
    }
  }

  lemma {:induction false} KnownAll(s: seq<Row>)
    requires forall r :: r in s ==> r.known
    ensures Known(s) == s
  {
    if s != [] {
      assert s == [s[0]] + s[1..];
      KnownAll(s[1..]);
    }
  }

  lemma {:induction false} ProjKnown(s: seq<Row>, t: Topic)
    ensures Proj(Known(s), t) == Known(Proj(s, t))
  {
    if s != [] {
      ProjKnown(s[1..], t);
      var hd := if s[0].known then [s[0]] else [];
      ProjConcat(hd, Known(s[1..]), t);
      var pd := if s[0].topic == t then [s[0]] else [];
      KnownConcat(pd, Proj(s[1..], t));
    }
  }

  // ----- exactly the rows of a topic in an id interval -----

  /** `s` is exactly the parseable rows of topic `t` with lo < id <= hi, each once, ascending. */
  ghost predicate Exactly(tab: seq<Row>, t: Topic, lo: nat, hi: nat, s: seq<Row>) {
    && Ascending(s)
    && forall r :: r in s <==> r in tab && r.topic == t && r.known && lo < r.id <= hi
  }

  lemma TailMembers(a: seq<Row>)
    requires a != [] && Ascending(a)
    ensures forall r :: r in a[1..] <==> r in a && r != a[0]
  {
    assert a == [a[0]] + a[1..];
    assert forall i :: 1 <= i < |a| ==> a[i] != a[0];
  }

  lemma SomeMember(b: seq<Row>)
    ensures b != [] ==> exists r :: r in b
  {
    if b != [] { assert b[0] in b; }
  }

  lemma AscendingUnique(a: seq<Row>, b: seq<Row>)
    requires Ascending(a) && Ascending(b)
    requires forall r :: r in a <==> r in b
    ensures a == b
    decreases |a|
  {
    if a == [] {
      SomeMember(b);
    } else {
      assert a[0] in a && a[0] in b;
      assert b[0] in b && b[0] in a;
      assert a[0] == b[0];
      TailMembers(a);
      TailMembers(b);
      AscendingUnique(a[1..], b[1..]);
      assert a == [a[0]] + a[1..] && b == [b[0]] + b[1..];
    }
  }

  lemma ExactlyUnique(tab: seq<Row>, t: Topic, lo: nat, hi: nat, a: seq<Row>, b: seq<Row>)
    requires Exactly(tab, t, lo, hi, a) && Exactly(tab, t, lo, hi, b)
    ensures a == b
  {
    AscendingUnique(a, b);
  }

  lemma ExactlyAppend(tab: seq<Row>, t: Topic, lo: nat, mid: nat, hi: nat, a: seq<Row>, b: seq<Row>)
    requires lo <= mid <= hi
    requires Exactly(tab, t, lo, mid, a) && Exactly(tab, t, mid, hi, b)
    ensures Exactly(tab, t, lo, hi, a + b)
  {
    forall i, j | 0 <= i < j < |a + b| ensures (a + b)[i].id < (a + b)[j].id {
      if i < |a| { assert a[i] in a; }
      if j >= |a| { assert b[j - |a|] in b; }
    }
  }

  lemma ExactlyNone(tab: seq<Row>, t: Topic, lo: nat, hi: nat)
    requires forall r :: r in tab && r.topic == t && r.known && lo < r.id ==> hi < r.id
    ensures Exactly(tab, t, lo, hi, [])
  {
  }

  /** A row inserted above every visible id leaves the answers about older ids alone. */
  lemma ExactlyGrow(tab: seq<Row>, row: Row, t: Topic, lo: nat, hi: nat, s: seq<Row>)
    requires MaxId(tab) < row.id
    requires hi <= MaxId(tab) || hi <= lo
    requires Exactly(tab, t, lo, hi, s)
    ensures Exactly(tab + [row], t, lo, hi, s)
  {
    forall r ensures r in tab + [row] <==> r in tab || r == row {
    }
  }

  /** All rows of a topic, parseable or not, with lo < id <= hi, as the table lists them. */
  function Raw(tab: seq<Row>, t: Topic, lo: nat, hi: nat): seq<Row> {
    if tab == [] then []
    else if tab[0].topic == t && lo < tab[0].id <= hi then [tab[0]] + Raw(tab[1..], t, lo, hi)
    else Raw(tab[1..], t, lo, hi)
  }

  lemma {:induction false} RawMember(tab: seq<Row>, t: Topic, lo: nat, hi: nat, r: Row)
    ensures r in Raw(tab, t, lo, hi) <==> r in tab && r.topic == t && lo < r.id <= hi
  {
    if tab != [] {
      RawMember(tab[1..], t, lo, hi, r);
      assert tab == [tab[0]] + tab[1..];
    }
  }

  lemma {:induction false} RawAscending(tab: seq<Row>, t: Topic, lo: nat, hi: nat)
    requires Ascending(tab)
    ensures Ascending(Raw(tab, t, lo, hi))
  {
    if tab != [] {
      RawAscending(tab[1..], t, lo, hi);
      var p := Raw(tab[1..], t, lo, hi);
      forall j | 0 <= j < |p| ensures tab[0].id < p[j].id {
        assert p[j] in p;
        RawMember(tab[1..], t, lo, hi, p[j]);
      }
    }
  }

  /** The reference answer: the parseable rows of topic `t` with lo < id <= hi. */
  function Between(tab: seq<Row>, t: Topic, lo: nat, hi: nat): seq<Row> {
    Known(Raw(tab, t, lo, hi))
  }

  lemma BetweenIsExact(tab: seq<Row>, t: Topic, lo: nat, hi: nat)
    requires Ascending(tab)
    ensures Exactly(tab, t, lo, hi, Between(tab, t, lo, hi))
  {
    RawAscending(tab, t, lo, hi);
    KnownAscending(Raw(tab, t, lo, hi));
    forall r ensures r in Between(tab, t, lo, hi) <==> r in tab && r.topic == t && r.known && lo < r.id <= hi {
      KnownMember(Raw(tab, t, lo, hi), r);
      RawMember(tab, t, lo, hi, r);
    }
  }

  lemma ExactlyIsBetween(tab: seq<Row>, t: Topic, lo: nat, hi: nat, s: seq<Row>)
    requires Ascending(tab) && Exactly(tab, t, lo, hi, s)
    ensures s == Between(tab, t, lo, hi)
  {
    BetweenIsExact(tab, t, lo, hi);
    ExactlyUnique(tab, t, lo, hi, s, Between(tab, t, lo, hi));
  }

  // ----- sorting by id -----

  function Insert(r: Row, s: seq<Row>): seq<Row> {
    if s == [] || r.id <= s[0].id then [r] + s else [s[0]] + Insert(r, s[1..])
  }

  /** The result of a query's ORDER BY id, and of the writer's sort of a wave's fold. */
  function SortById(s: seq<Row>): seq<Row> {
    if s == [] then [] else Insert(s[0], SortById(s[1..]))
  }

  lemma {:induction false} InsertContents(r: Row, s: seq<Row>)
    ensures multiset(Insert(r, s)) == multiset(s) + multiset{r}
    ensures |Insert(r, s)| == |s| + 1
    ensures forall x :: x in Insert(r, s) <==> x == r || x in s
  {
    if s != [] && r.id > s[0].id {
      InsertContents(r, s[1..]);
      assert s == [s[0]] + s[1..];
    }
  }

  lemma {:induction false} InsertSorted(r: Row, s: seq<Row>)
    requires NonDescending(s)
    ensures NonDescending(Insert(r, s))
  {
    if s != [] && r.id > s[0].id {
      InsertSorted(r, s[1..]);
      InsertContents(r, s[1..]);
      var p := Insert(r, s[1..]);
      forall j | 0 <= j < |p| ensures s[0].id <= p[j].id {
        assert p[j] in p;
      }
    }
  }

  lemma {:induction false} SortFacts(s: seq<Row>)
    ensures NonDescending(SortById(s))
    ensures multiset(SortById(s)) == multiset(s)
    ensures |SortById(s)| == |s|
  {
    if s != [] {
      SortFacts(s[1..]);
      InsertContents(s[0], SortById(s[1..]));
      InsertSorted(s[0], SortById(s[1..]));
      assert s == [s[0]] + s[1..];
    }
  }

  lemma SortMember(s: seq<Row>, r: Row)
    ensures r in SortById(s) <==> r in s
  {
    SortFacts(s);
    assert r in multiset(SortById(s)) <==> r in multiset(s);
  }

  lemma ProjCons(r: Row, s: seq<Row>, t: Topic)
    ensures Proj([r] + s, t) == if r.topic == t then [r] + Proj(s, t) else Proj(s, t)
  {
    assert ([r] + s)[1..] == s;
  }

  lemma InsertCons(r: Row, x: Row, s: seq<Row>)
    ensures Insert(r, [x] + s) == if r.id <= x.id then [r] + ([x] + s) else [x] + Insert(r, s)
  {
    assert ([x] + s)[1..] == s;
  }

  lemma {:induction false} ProjInsert(r: Row, s: seq<Row>, t: Topic)
    requires NonDescending(s)
    ensures Proj(Insert(r, s), t) == if r.topic == t then Insert(r, Proj(s, t)) else Proj(s, t)
  {
    if s == [] {
    } else if r.id <= s[0].id {
      ProjCons(r, s, t);
      var p := Proj(s, t);
      if p != [] {
        assert p[0] in p;
        ProjMember(s, t, p[0]);
        assert s[0].id <= p[0].id;
      }
    } else {
      ProjInsert(r, s[1..], t);
      ProjCons(s[0], Insert(r, s[1..]), t);
      InsertCons(r, s[0], Proj(s[1..], t));
    }
  }

  lemma {:induction false} SortCons(r: Row, s: seq<Row>)
    ensures SortById([r] + s) == Insert(r, SortById(s))
  {
    assert ([r] + s)[1..] == s;
  }

  lemma {:induction false} ProjSort(s: seq<Row>, t: Topic)
    ensures Proj(SortById(s), t) == SortById(Proj(s, t))
  {
    if s != [] {
      ProjSort(s[1..], t);
      SortFacts(s[1..]);
      ProjInsert(s[0], SortById(s[1..]), t);
      SortCons(s[0], Proj(s[1..], t));
    }
  }

  lemma {:induction false} SortOfAscending(s: seq<Row>)
    requires Ascending(s)
    ensures SortById(s) == s
  {
    if s != [] {
      SortOfAscending(s[1..]);
      assert s == [s[0]] + s[1..];
    }
  }

  /** Merging many topics' rows keeps every topic's own order. */
  lemma ProjSortAscending(s: seq<Row>, t: Topic)
    requires Ascending(Proj(s, t))
    ensures Proj(SortById(s), t) == Proj(s, t)
  {
    ProjSort(s, t);
    SortOfAscending(Proj(s, t));
  }

  /** Ids being unique, any sort by id (stable or not) gives the same sequence. */
  lemma SortUnique(s: seq<Row>, a: seq<Row>)
    requires NonDescending(a) && multiset(a) == multiset(s)
    requires forall i, j :: 0 <= i < j < |s| ==> s[i].id != s[j].id
    ensures a == SortById(s)
  {
    SortFacts(s);
    DistinctSorted(s, a);
    DistinctSorted(s, SortById(s));
    forall r ensures r in a <==> r in SortById(s) {
      assert r in multiset(a) <==> r in multiset(SortById(s));
    }
    AscendingUnique(a, SortById(s));
  }

  lemma DistinctSorted(s: seq<Row>, a: seq<Row>)
    requires NonDescending(a) && multiset(a) == multiset(s)
    requires forall i, j :: 0 <= i < j < |s| ==> s[i].id != s[j].id
    ensures Ascending(a)
  {
    forall i, j | 0 <= i < j < |a| ensures a[i].id < a[j].id {
      if a[i].id == a[j].id {
        assert a[i] in multiset(s) && a[j] in multiset(s);
        assert a[i] in s && a[j] in s;
        if a[i] != a[j] {
          assert false;
        } else {
          MultisetTwice(a, i, j);
          SeqOnce(s, a[i]);
          assert false;
        }
      }
    }
  }

  lemma MultisetTwice(a: seq<Row>, i: nat, j: nat)
    requires i < j < |a| && a[i] == a[j]
    ensures multiset(a)[a[i]] >= 2
  {
    assert a == a[..j] + [a[j]] + a[j + 1..];
    assert a[i] in a[..j];
    assert multiset(a) == multiset(a[..j]) + multiset([a[j]]) + multiset(a[j + 1..]);
  }

  lemma SeqOnce(s: seq<Row>, r: Row)
    requires r in s
    requires forall i, j :: 0 <= i < j < |s| ==> s[i].id != s[j].id
    ensures multiset(s)[r] == 1
  {
    var i :| 0 <= i < |s| && s[i] == r;
    assert s == s[..i] + [s[i]] + s[i + 1..];
    assert r !in s[..i] && r !in s[i + 1..];
    assert multiset(s) == multiset(s[..i]) + multiset([s[i]]) + multiset(s[i + 1..]);
    assert multiset(s[..i])[r] == 0 && multiset(s[i + 1..])[r] == 0;
  }
}
