/**
 LSP data messages, and the message slices that `common.go` and the two event loops edit.
 */
module Messages {
  import opened Checksum
  import opened Sorting

  type Payload = seq<byte>

  datatype Option<+T> = None | Some(value: T)

  // Params (params.go); EpochMillis only scales real time and has no counterpart here.
  datatype Params = Params(epochLimit: int, windowSize: int, maxBackOffInterval: int, maxUnackedMessages: int)

  /** A data message. Its Size and Checksum are functions of these fields in every message the two ends build;
      `DataFilter.NewData` adds them when the message goes on the wire. */
  datatype Message = Message(connId: int, seqNum: int, payload: Payload)

  function Payloads(s: seq<Message>): (r: seq<Payload>)
    ensures |r| == |s|
    ensures forall i | 0 <= i < |s| :: r[i] == s[i].payload
  {
    seq(|s|, i requires 0 <= i < |s| => s[i].payload)
  }

  function SeqNums(s: seq<Message>): set<int> {
    set m | m in s :: m.seqNum
  }

  function Elements(s: seq<Message>): set<Message> {
    set m | m in s
  }

  ghost predicate Ascending(s: seq<Message>) {
    forall i, j | 0 <= i < j < |s| :: s[i].seqNum < s[j].seqNum
  }

  ghost predicate NonDescending(s: seq<Message>) {
    forall i, j | 0 <= i < j < |s| :: s[i].seqNum <= s[j].seqNum
  }

  ghost predicate DistinctSeqNums(s: seq<Message>) {
    forall i, j | 0 <= i < j < |s| :: s[i].seqNum != s[j].seqNum
  }

  predicate BySeqNum(a: Message, b: Message) {
    a.seqNum <= b.seqNum
  }

  function SortBySeqNum(s: seq<Message>): seq<Message> {
    Sort(BySeqNum, s)
  }

  // The slice without its first message numbered n, or the slice itself.
  function Without(s: seq<Message>, n: int): seq<Message> {
    if n in SeqNums(s) then s[..IndexOf(s, n)] + s[IndexOf(s, n) + 1..] else s
  }

  // What follows the first message numbered n, or the whole slice when there is none.
  function After(s: seq<Message>, n: int): seq<Message> {
    if n in SeqNums(s) then s[IndexOf(s, n) + 1..] else s
  }

  function IndexOf(s: seq<Message>, n: int): (i: nat)
    requires n in SeqNums(s)
    ensures i < |s| && s[i].seqNum == n
    ensures forall j | 0 <= j < i :: s[j].seqNum != n
  {
    if s[0].seqNum == n then
      0
    else
      assert s == [s[0]] + s[1..];
      IndexOf(s[1..], n) + 1
  }

  // ---------- The loops of common.go ----------

  // SlidingWindow.getIndex
  method GetIndex(s: seq<Message>, n: int) returns (index: int)
    ensures if n in SeqNums(s) then index == IndexOf(s, n) else index == -1
  {
    for i := 0 to |s|
      invariant forall j | 0 <= j < i :: s[j].seqNum != n
    {
      if s[i].seqNum == n {
        FirstIndex(s, n, i);
        return i;
      }
    }
    return -1;
  }

  // removeFromSlice, and the same edit in SlidingWindow.RemoveSeqNum
  method RemoveFromSlice(s: seq<Message>, n: int) returns (r: seq<Message>)
    ensures r == Without(s, n)
  {
    var i := GetIndex(s, n);
    if i == -1 {
      return s;
    }
    return s[..i] + s[i + 1..];
  }

  // removeFromSliceCAck, and the same edit in SlidingWindow.RemoveBeforeSeqNum
  method RemoveFromSliceCAck(s: seq<Message>, n: int) returns (r: seq<Message>)
    ensures r == After(s, n)
  {
    var i := GetIndex(s, n);
    if i == -1 {
      return s;
    }
    return s[i + 1..];
  }

  // ---------- Facts about the edits ----------

  lemma {:induction false} FirstIndex(s: seq<Message>, n: int, i: nat)
    requires i < |s| && s[i].seqNum == n && forall j | 0 <= j < i :: s[j].seqNum != n
    ensures n in SeqNums(s) && IndexOf(s, n) == i
  {
  }

  lemma SeqNumsConcat(s: seq<Message>, t: seq<Message>)
    ensures SeqNums(s + t) == SeqNums(s) + SeqNums(t)
  {
  }

  // Removing a number from a slice of distinct numbers removes exactly that number and keeps the rest,
  // in its order.
  lemma WithoutRemoves(s: seq<Message>, n: int)
    requires DistinctSeqNums(s)
    ensures SeqNums(Without(s, n)) == SeqNums(s) - {n}
    ensures forall m :: m in Without(s, n) <==> m in s && m.seqNum != n
    ensures DistinctSeqNums(Without(s, n))
    ensures Ascending(s) ==> Ascending(Without(s, n))
    ensures |Without(s, n)| == if n in SeqNums(s) then |s| - 1 else |s|
  {
    WithoutKeepsOrder(s, n);
    forall m
      ensures m in Without(s, n) <==> m in s && m.seqNum != n
    {
      if n in SeqNums(s) {
        WithoutMember(s, n, m);
      }
    }
    SameSeqNums(s, Without(s, n), n);
  }

  lemma WithoutKeepsOrder(s: seq<Message>, n: int)
    requires DistinctSeqNums(s)
    ensures DistinctSeqNums(Without(s, n))
    ensures Ascending(s) ==> Ascending(Without(s, n))
    ensures |Without(s, n)| == if n in SeqNums(s) then |s| - 1 else |s|
  {
  }

  lemma WithoutMember(s: seq<Message>, n: int, m: Message)
    requires DistinctSeqNums(s) && n in SeqNums(s)
    ensures m in Without(s, n) <==> m in s && m.seqNum != n
  {
  }

  lemma SameSeqNums(s: seq<Message>, r: seq<Message>, n: int)
    requires forall m :: m in r <==> m in s && m.seqNum != n
    ensures SeqNums(r) == SeqNums(s) - {n}
  {
  }

  lemma AfterRemoves(s: seq<Message>, n: int)
    requires Ascending(s)
    ensures Ascending(After(s, n))
    ensures forall m | m in After(s, n) :: m in s
    ensures n in SeqNums(s) ==> SeqNums(After(s, n)) == set k | k in SeqNums(s) && k > n
  {
    if n in SeqNums(s) {
      var i := IndexOf(s, n);
      forall k
        ensures k in SeqNums(s[i + 1..]) <==> k in SeqNums(s) && k > n
      {
        TailNumbers(s, i, k);
      }
    }
  }

  lemma TailNumbers(s: seq<Message>, i: nat, k: int)
    requires Ascending(s) && i < |s|
    ensures k in SeqNums(s[i + 1..]) <==> k in SeqNums(s) && k > s[i].seqNum
  {
    if k in SeqNums(s) {
      var j :| 0 <= j < |s| && s[j].seqNum == k;
      if j > i {
        assert s[i + 1..][j - i - 1] == s[j];
      }
    }
  }

  // On any slice: nothing is added, and only messages of that number may go.
  lemma WithoutHolds(s: seq<Message>, n: int)
    ensures forall m | m in Without(s, n) :: m in s
    ensures forall m | m in s :: m in Without(s, n) || m.seqNum == n
  {
    if n in SeqNums(s) {
      var i := IndexOf(s, n);
      assert s == s[..i] + [s[i]] + s[i + 1..];
    }
  }

  lemma WithoutNonDescending(s: seq<Message>, n: int)
    requires NonDescending(s)
    ensures NonDescending(Without(s, n))
  {
  }

  // On a sorted slice, only messages up to that number may go.
  lemma AfterHolds(s: seq<Message>, n: int)
    requires NonDescending(s)
    ensures forall m | m in After(s, n) :: m in s
    ensures forall m | m in s :: m in After(s, n) || m.seqNum <= n
    ensures NonDescending(After(s, n))
  {
    if n in SeqNums(s) {
      var i := IndexOf(s, n);
      forall m | m in s
        ensures m in s[i + 1..] || m.seqNum <= n
      {
        var j :| 0 <= j < |s| && s[j] == m;
        assert j > i ==> s[i + 1..][j - i - 1] == m;
      }
    }
  }

  lemma SortNonDescending(s: seq<Message>)
    ensures NonDescending(SortBySeqNum(s))
  {
    assert TotalPreorder(BySeqNum);
    SortOrders(BySeqNum, s);
    assert forall i, j | 0 <= i < j < |SortBySeqNum(s)| :: BySeqNum(SortBySeqNum(s)[i], SortBySeqNum(s)[j]);
  }

  // Whatever correct algorithm sorts messages of distinct numbers, the result is this one.
  lemma SortIsTheOnlyOne(s: seq<Message>, t: seq<Message>)
    requires DistinctSeqNums(s) && multiset(t) == multiset(s) && SortedBy(BySeqNum, t)
    ensures t == SortBySeqNum(s)
  {
    SortPermutes(BySeqNum, s);
    SortAscending(s);
    OnlySorted(BySeqNum, SortBySeqNum(s), t);
  }

  lemma SortOfAscending(s: seq<Message>)
    requires Ascending(s)
    ensures SortBySeqNum(s) == s
  {
    assert TotalPreorder(BySeqNum);
    assert SortedBy(BySeqNum, s);
    SortOfSorted(BySeqNum, s);
  }

  // Appending the next number and sorting is appending.
  lemma AppendNext(s: seq<Message>, m: Message)
    requires Ascending(s) && forall k | k in s :: k.seqNum < m.seqNum
    ensures SortBySeqNum(s + [m]) == s + [m] && Ascending(s + [m])
    ensures SeqNums(s + [m]) == SeqNums(s) + {m.seqNum}
  {
    assert Ascending(s + [m]) by {
      assert forall i | 0 <= i < |s| :: s[i] in s;
    }
    SortOfAscending(s + [m]);
    SeqNumsConcat(s, [m]);
    assert SeqNums([m]) == {m.seqNum};
  }

  // The sorted slice holds the same messages, in order of their numbers.
  lemma SortKeeps(s: seq<Message>)
    ensures forall m :: m in SortBySeqNum(s) <==> m in s
    ensures SeqNums(SortBySeqNum(s)) == SeqNums(s)
    ensures |SortBySeqNum(s)| == |s|
    ensures DistinctSeqNums(s) ==> Ascending(SortBySeqNum(s))
  {
    var t := SortBySeqNum(s);
    SortPermutes(BySeqNum, s);
    SameElements(t, s);
    if DistinctSeqNums(s) {
      SortAscending(s);
    }
  }

  lemma ConsAscending(m: Message, s: seq<Message>)
    requires Ascending(s) && forall k | k in s :: m.seqNum < k.seqNum
    ensures Ascending([m] + s)
  {
  }

  lemma HeadIsLeast(s: seq<Message>)
    requires Ascending(s) && s != []
    ensures Ascending(s[1..]) && forall k | k in s[1..] :: s[0].seqNum < k.seqNum
  {
  }

  lemma {:induction false} InsertAscending(m: Message, s: seq<Message>)
    requires Ascending(s) && m.seqNum !in SeqNums(s)
    ensures Ascending(Insert(BySeqNum, m, s))
  {
    hide Ascending;
    if s == [] {
      ConsAscending(m, s);
    } else {
      HeadIsLeast(s);
      assert s[0] in s;
      if BySeqNum(m, s[0]) {
        assert forall k | k in s :: k == s[0] || k in s[1..];
        ConsAscending(m, s);
      } else {
        InsertAscending(m, s[1..]);
        var rest := Insert(BySeqNum, m, s[1..]);
        InsertPermutes(BySeqNum, m, s[1..]);
        SameElements(rest, [m] + s[1..]);
        ConsAscending(s[0], rest);
      }
    }
  }

  lemma {:induction false} SortAscending(s: seq<Message>)
    requires DistinctSeqNums(s)
    ensures Ascending(SortBySeqNum(s))
  {
    if s != [] {
      SortAscending(s[1..]);
      var rest := SortBySeqNum(s[1..]);
      SortPermutes(BySeqNum, s[1..]);
      SameElements(rest, s[1..]);
      InsertAscending(s[0], rest);
    }
  }
}
