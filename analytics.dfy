/**
 * The analytics record (AnalyticsData and TopicFrequency) and the ordering
 * both consumers apply to its topics: OrderByDescending(t => t.Mentions),
 * which LINQ documents as a stable sort.
 */
module Analytics {
  import opened Outcomes

  /**
   * A System.Double, kept as its IEEE-754 bit pattern. Nothing in the core
   * computes with these values; they are stored, passed on and formatted.
   */
  datatype Double = Double(bits: bv64)

  /** 0.7 and 0.2 as IEEE-754 binary64 values. */
  const PointSeven: Double := Double(0x3FE6_6666_6666_6666)
  const PointTwo: Double := Double(0x3FC9_9999_9999_999A)

  datatype TopicFrequency = TopicFrequency(topic: string, mentions: int)

  /**
   * What the analytics step produces: word count, speaking speed and topics.
   * The topic list is None when the JSON sets it to null.
   */
  datatype AnalyticsData = AnalyticsData(
    wordCount: int,
    speakingSpeedWpm: Double,
    frequentlyMentionedTopics: Option<seq<TopicFrequency>>)

  /** Mentions never increase from left to right. */
  ghost predicate SortedByMentionsDesc(s: seq<TopicFrequency>) {
    forall i, j | 0 <= i < j < |s| :: s[i].mentions >= s[j].mentions
  }

  /** The topics of s that have exactly m mentions, in their order in s. */
  function WithMentions(s: seq<TopicFrequency>, m: int): seq<TopicFrequency> {
    if s == [] then []
    else (if s[0].mentions == m then [s[0]] else []) + WithMentions(s[1..], m)
  }

  /** Every element of s has at most m mentions. */
  ghost predicate AllAtMost(s: seq<TopicFrequency>, m: int) {
    forall i | 0 <= i < |s| :: s[i].mentions <= m
  }

  lemma PrependSorted(x: TopicFrequency, s: seq<TopicFrequency>)
    requires SortedByMentionsDesc(s) && AllAtMost(s, x.mentions)
    ensures SortedByMentionsDesc([x] + s)
  {
  }

  lemma AllAtMostOfMultiset(s: seq<TopicFrequency>, r: seq<TopicFrequency>, t: TopicFrequency, m: int)
    requires multiset(r) == multiset(s) + multiset{t}
    requires AllAtMost(s, m) && t.mentions <= m
    ensures AllAtMost(r, m)
  {
    forall i | 0 <= i < |r| ensures r[i].mentions <= m {
      assert r[i] in multiset(r);
      if r[i] != t {
        assert r[i] in multiset(s);
        assert r[i] in s;
      }
    }
  }

  /** Places t before the first element of s whose mentions do not exceed t's. */
  function InsertByMentions(t: TopicFrequency, s: seq<TopicFrequency>): seq<TopicFrequency> {
    if s == [] || s[0].mentions <= t.mentions then [t] + s
    else [s[0]] + InsertByMentions(t, s[1..])
  }

  /** OrderByDescending(t => t.Mentions): a stable insertion sort. */
  function OrderByMentionsDesc(s: seq<TopicFrequency>): seq<TopicFrequency> {
    if s == [] then [] else InsertByMentions(s[0], OrderByMentionsDesc(s[1..]))
  }

  lemma {:induction false} InsertIsPermutation(t: TopicFrequency, s: seq<TopicFrequency>)
    ensures multiset(InsertByMentions(t, s)) == multiset(s) + multiset{t}
  {
    if s != [] && s[0].mentions > t.mentions {
      InsertIsPermutation(t, s[1..]);
      assert s == [s[0]] + s[1..];
    }
  }

  lemma {:induction false} InsertKeepsSorted(t: TopicFrequency, s: seq<TopicFrequency>)
    requires SortedByMentionsDesc(s)
    ensures SortedByMentionsDesc(InsertByMentions(t, s))
  {
    if s == [] || s[0].mentions <= t.mentions {
      PrependSorted(t, s);
    } else {
      var tail := InsertByMentions(t, s[1..]);
      InsertKeepsSorted(t, s[1..]);
      InsertIsPermutation(t, s[1..]);
      AllAtMostOfMultiset(s[1..], tail, t, s[0].mentions);
      PrependSorted(s[0], tail);
    }
  }

  /** The topics come out with mentions never increasing. */
  lemma {:induction false} OrderByMentionsDescIsSorted(s: seq<TopicFrequency>)
    ensures SortedByMentionsDesc(OrderByMentionsDesc(s))
  {
    if s != [] {
      OrderByMentionsDescIsSorted(s[1..]);
      InsertKeepsSorted(s[0], OrderByMentionsDesc(s[1..]));
    }
  }

  /** The topics come out rearranged: the same topics, each as often as in the input. */
  lemma {:induction false} OrderByMentionsDescIsPermutation(s: seq<TopicFrequency>)
    ensures multiset(OrderByMentionsDesc(s)) == multiset(s)
    ensures |OrderByMentionsDesc(s)| == |s|
  {
    if s != [] {
      OrderByMentionsDescIsPermutation(s[1..]);
      InsertIsPermutation(s[0], OrderByMentionsDesc(s[1..]));
      assert s == [s[0]] + s[1..];
    }
    assert |multiset(OrderByMentionsDesc(s))| == |multiset(s)|;
  }

  lemma {:induction false} InsertKeepsTies(t: TopicFrequency, s: seq<TopicFrequency>, m: int)
    ensures WithMentions(InsertByMentions(t, s), m)
         == (if t.mentions == m then [t] else []) + WithMentions(s, m)
  {
    var r := InsertByMentions(t, s);
    if s == [] || s[0].mentions <= t.mentions {
      assert r[1..] == s;
    } else {
      assert r[1..] == InsertByMentions(t, s[1..]);
      InsertKeepsTies(t, s[1..], m);
    }
  }

  /** Stability: topics with equal mentions keep their relative input order. */
  lemma {:induction false} OrderByMentionsDescIsStable(s: seq<TopicFrequency>, m: int)
    ensures WithMentions(OrderByMentionsDesc(s), m) == WithMentions(s, m)
  {
    if s != [] {
      OrderByMentionsDescIsStable(s[1..], m);
      InsertKeepsTies(s[0], OrderByMentionsDesc(s[1..]), m);
    }
  }

  lemma {:induction false} WithMentionsOfMember(s: seq<TopicFrequency>, x: TopicFrequency)
    requires x in s
    ensures x in WithMentions(s, x.mentions)
  {
    if s[0] != x {
      WithMentionsOfMember(s[1..], x);
    }
  }

  lemma {:induction false} WithMentionsMembers(s: seq<TopicFrequency>, m: int)
    ensures forall x | x in WithMentions(s, m) :: x in s && x.mentions == m
  {
    if s != [] {
      WithMentionsMembers(s[1..], m);
    }
  }

  lemma WithMentionsOfSortedHead(s: seq<TopicFrequency>)
    requires s != []
    ensures WithMentions(s, s[0].mentions)[0] == s[0]
  {
  }

  lemma WithMentionsOfOtherHead(s: seq<TopicFrequency>, m: int)
    requires s != [] && s[0].mentions != m
    ensures WithMentions(s, m) == WithMentions(s[1..], m)
  {
  }

  /**
   * Sortedness and stability pin the order down completely: a sequence that
   * is sorted by descending mentions and agrees with the input on the order
   * of every group of ties is exactly OrderByMentionsDesc of the input.
   */
  lemma {:induction false} SortedStableIsUnique(a: seq<TopicFrequency>, b: seq<TopicFrequency>)
    requires SortedByMentionsDesc(a) && SortedByMentionsDesc(b)
    requires forall m :: WithMentions(a, m) == WithMentions(b, m)
    ensures a == b
  {
    if a == [] || b == [] {
      if a != [] {
        WithMentionsOfMember(a, a[0]);
        assert false;
      } else if b != [] {
        WithMentionsOfMember(b, b[0]);
        assert false;
      }
    } else {
      var ka, kb := a[0].mentions, b[0].mentions;
      WithMentionsOfMember(a, a[0]);
      WithMentionsMembers(b, ka);
      assert WithMentions(b, ka)[0] in b;
      WithMentionsOfMember(b, b[0]);
      WithMentionsMembers(a, kb);
      assert WithMentions(a, kb)[0] in a;
      assert ka == kb;
      WithMentionsOfSortedHead(a);
      WithMentionsOfSortedHead(b);
      assert a[0] == b[0];
      forall m ensures WithMentions(a[1..], m) == WithMentions(b[1..], m) {
        if m == ka {
          assert WithMentions(a, m) == [a[0]] + WithMentions(a[1..], m);
          assert WithMentions(b, m) == [b[0]] + WithMentions(b[1..], m);
          assert WithMentions(a[1..], m) == WithMentions(a, m)[1..];
          assert WithMentions(b[1..], m) == WithMentions(b, m)[1..];
        } else {
          WithMentionsOfOtherHead(a, m);
          WithMentionsOfOtherHead(b, m);
        }
      }
      SortedStableIsUnique(a[1..], b[1..]);
    }
  }

  /** OrderByMentionsDesc is the only sorted, stable rearrangement of its input. */
  lemma OrderByMentionsDescIsCharacterised(s: seq<TopicFrequency>, r: seq<TopicFrequency>)
    requires SortedByMentionsDesc(r)
    requires forall m :: WithMentions(r, m) == WithMentions(s, m)
    ensures r == OrderByMentionsDesc(s)
  {
    forall m ensures WithMentions(r, m) == WithMentions(OrderByMentionsDesc(s), m) {
      OrderByMentionsDescIsStable(s, m);
    }
    OrderByMentionsDescIsSorted(s);
    SortedStableIsUnique(r, OrderByMentionsDesc(s));
  }

  /** f applied to each topic, in order (a LINQ Select). */
  function MapTopics<U>(f: TopicFrequency -> U, s: seq<TopicFrequency>): seq<U> {
    if s == [] then [] else [f(s[0])] + MapTopics(f, s[1..])
  }

  /** The i-th element of the mapped sequence is f of the i-th topic. */
  lemma {:induction false} MapTopicsAt<U>(f: TopicFrequency -> U, s: seq<TopicFrequency>)
    ensures |MapTopics(f, s)| == |s|
    ensures forall i | 0 <= i < |s| :: MapTopics(f, s)[i] == f(s[i])
  {
    if s != [] {
      MapTopicsAt(f, s[1..]);
      assert forall i | 1 <= i < |s| :: s[1..][i - 1] == s[i];
    }
  }

  /** MapTopicsAt at one index. */
  lemma MapTopicsIndex<U>(f: TopicFrequency -> U, s: seq<TopicFrequency>, i: nat)
    requires i < |s|
    ensures |MapTopics(f, s)| == |s| && MapTopics(f, s)[i] == f(s[i])
  {
    MapTopicsAt(f, s);
  }

  lemma {:induction false} MapTopicsOfInsert<U>(f: TopicFrequency -> U, t: TopicFrequency, s: seq<TopicFrequency>)
    ensures multiset(MapTopics(f, InsertByMentions(t, s))) == multiset(MapTopics(f, s)) + multiset{f(t)}
  {
    if s == [] || s[0].mentions <= t.mentions {
      assert MapTopics(f, InsertByMentions(t, s)) == [f(t)] + MapTopics(f, s);
    } else {
      MapTopicsOfInsert(f, t, s[1..]);
      assert MapTopics(f, InsertByMentions(t, s)) == [f(s[0])] + MapTopics(f, InsertByMentions(t, s[1..]));
      assert MapTopics(f, s) == [f(s[0])] + MapTopics(f, s[1..]);
    }
  }

  /**
   * Whatever is rendered per topic, the sorted rendering holds exactly the
   * same items as the unsorted one: one per input topic, none added or lost.
   */
  lemma {:induction false} MapTopicsOfOrderIsPermutation<U>(f: TopicFrequency -> U, s: seq<TopicFrequency>)
    ensures multiset(MapTopics(f, OrderByMentionsDesc(s))) == multiset(MapTopics(f, s))
  {
    if s != [] {
      MapTopicsOfOrderIsPermutation(f, s[1..]);
      MapTopicsOfInsert(f, s[0], OrderByMentionsDesc(s[1..]));
      assert MapTopics(f, s) == [f(s[0])] + MapTopics(f, s[1..]);
    }
  }
}
