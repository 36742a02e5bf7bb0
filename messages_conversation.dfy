/**
 * `_renderConversation`: join the received and sent messages of a conversation
 * and sort them by `timecreated`, oldest first. The comparator's sort is
 * modelled as an insertion sort.
 */
module Conversation {
  import opened MessageData

  predicate SortedByTime(ms: seq<Message>) {
    forall i, j :: 0 <= i < j < |ms| ==> ms[i].timecreated <= ms[j].timecreated
  }

  /** Insert `m` into a list sorted by time, in front of the first message not older than it. */
  function Insert(m: Message, sorted: seq<Message>): (r: seq<Message>)
    requires SortedByTime(sorted)
    ensures |r| == |sorted| + 1
    ensures SortedByTime(r)
    ensures multiset(r) == multiset(sorted) + multiset{m}
    decreases |sorted|
  {
    if sorted == [] || m.timecreated <= sorted[0].timecreated then
      ConsSorted(m, sorted);
      [m] + sorted
    else
      var rest := Insert(m, sorted[1..]);
      LowerBound(sorted, m, rest);
      ConsSorted(sorted[0], rest);
      assert sorted == [sorted[0]] + sorted[1..];
      [sorted[0]] + rest
  }

  /** A message no newer than every element of a sorted list can go in front of it. */
  lemma ConsSorted(x: Message, rest: seq<Message>)
    requires SortedByTime(rest)
    requires forall k :: 0 <= k < |rest| ==> x.timecreated <= rest[k].timecreated
    ensures SortedByTime([x] + rest)
  {
    var r := [x] + rest;
    forall i, j | 0 <= i < j < |r| ensures r[i].timecreated <= r[j].timecreated {
      assert r[j] == rest[j - 1];
      if i > 0 {
        assert r[i] == rest[i - 1];
      }
    }
  }

  /** Every element of the tail, with an older `m` inserted, is no older than the head. */
  lemma LowerBound(sorted: seq<Message>, m: Message, rest: seq<Message>)
    requires SortedByTime(sorted) && |sorted| > 0 && sorted[0].timecreated <= m.timecreated
    requires multiset(rest) == multiset(sorted[1..]) + multiset{m}
    ensures forall k :: 0 <= k < |rest| ==> sorted[0].timecreated <= rest[k].timecreated
  {
    forall k | 0 <= k < |rest| ensures sorted[0].timecreated <= rest[k].timecreated {
      assert rest[k] in multiset(rest);
      if rest[k] != m {
        assert rest[k] in multiset(sorted[1..]);
        var j :| 0 <= j < |sorted[1..]| && sorted[1..][j] == rest[k];
        assert sorted[j + 1] == rest[k];
      }
    }
  }

  function SortByTime(ms: seq<Message>): (r: seq<Message>)
    ensures SortedByTime(r)
    ensures multiset(r) == multiset(ms)
    decreases |ms|
  {
    if ms == [] then []
    else
      assert ms == [ms[0]] + ms[1..];
      Insert(ms[0], SortByTime(ms[1..]))
  }

  /** The conversation: a permutation of received followed by sent, ordered by time. */
  function RenderConversation(received: seq<Message>, sent: seq<Message>): (r: seq<Message>)
    ensures multiset(r) == multiset(received + sent)
    ensures SortedByTime(r)
  {
    SortByTime(received + sent)
  }

  /** Removing one position from a sorted list keeps it sorted and removes that element once. */
  lemma RemoveAt(b: seq<Message>, j: int)
    requires SortedByTime(b) && 0 <= j < |b|
    ensures var b' := b[..j] + b[j + 1..];
      SortedByTime(b') && multiset(b') == multiset(b) - multiset{b[j]}
  {
    var b' := b[..j] + b[j + 1..];
    assert b == b[..j] + [b[j]] + b[j + 1..];
    forall p, q | 0 <= p < q < |b'| ensures b'[p].timecreated <= b'[q].timecreated {
      var p' := if p < j then p else p + 1;
      var q' := if q < j then q else q + 1;
      assert b'[p] == b[p'] && b'[q] == b[q'];
    }
  }

  /** Two sorted permutations start with the same time; `j` finds the head of `a` in `b`. */
  lemma HeadsAgree(a: seq<Message>, b: seq<Message>) returns (j: int)
    requires SortedByTime(a) && SortedByTime(b) && multiset(a) == multiset(b) && |a| > 0
    ensures 0 <= j < |b| && b[j] == a[0] && a[0].timecreated == b[0].timecreated
  {
    assert a[0] in multiset(a);
    assert b[0] in multiset(b);
    assert |b| > 0;
    var ja :| 0 <= ja < |a| && a[ja] == b[0];
    j :| 0 <= j < |b| && b[j] == a[0];
    assert a[0].timecreated <= a[ja].timecreated;
    assert b[0].timecreated <= b[j].timecreated;
  }

  /** Dropping the head of `a` and its occurrence in `b` leaves two sorted permutations. */
  lemma DropBoth(a: seq<Message>, b: seq<Message>, j: int) returns (b': seq<Message>)
    requires SortedByTime(a) && SortedByTime(b) && multiset(a) == multiset(b)
    requires 0 <= j < |b| && |a| > 0 && b[j] == a[0]
    ensures b' == b[..j] + b[j + 1..]
    ensures SortedByTime(a[1..]) && SortedByTime(b') && multiset(a[1..]) == multiset(b')
  {
    b' := b[..j] + b[j + 1..];
    RemoveAt(b, j);
    assert multiset(a[1..]) == multiset(a) - multiset{a[0]} by {
      assert a == [a[0]] + a[1..];
    }
  }

  /** When b[j] has the time of b[0], deleting position j shifts no time. */
  lemma ShiftedTimes(b: seq<Message>, j: int)
    requires SortedByTime(b) && 0 <= j < |b| && b[j].timecreated == b[0].timecreated
    ensures forall i :: 0 < i < |b| ==> b[i].timecreated == (b[..j] + b[j + 1..])[i - 1].timecreated
  {
    var b' := b[..j] + b[j + 1..];
    forall i | 0 < i < |b| ensures b[i].timecreated == b'[i - 1].timecreated {
      if i <= j {
        assert b'[i - 1] == b[i - 1];
        assert b[0].timecreated <= b[i - 1].timecreated <= b[i].timecreated <= b[j].timecreated;
      } else {
        assert b'[i - 1] == b[i];
      }
    }
  }

  /**
   * The result is unique up to the order of messages with equal times: any two
   * sorted permutations of the same messages agree on the time at every position.
   */
  lemma {:induction false} SortedPermutationsAgreeOnTimes(a: seq<Message>, b: seq<Message>)
    requires SortedByTime(a) && SortedByTime(b) && multiset(a) == multiset(b)
    ensures |a| == |b|
    ensures forall i :: 0 <= i < |a| ==> a[i].timecreated == b[i].timecreated
    decreases |a|
  {
    assert |a| == |multiset(a)| == |multiset(b)| == |b|;
    if |a| > 0 {
      var jb := HeadsAgree(a, b);
      var b' := DropBoth(a, b, jb);
      SortedPermutationsAgreeOnTimes(a[1..], b');
      ShiftedTimes(b, jb);
      forall i | 0 < i < |a| ensures a[i].timecreated == b[i].timecreated {
        assert a[i] == a[1..][i - 1];
      }
    }
  }
}
