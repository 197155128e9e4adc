/**
 The 16-bit message checksum: 16-bit words added into a 32-bit accumulator, the carries folded back
 (the end-around carry of section 2 of RFC 1071) and the result complemented. Header integers are added
 with a 16-bit addition whose carry is lost, which is where the code departs from RFC 1071.
 */
module Checksum {

  type byte = b: int | 0 <= b < 0x100
  type uint16 = w: int | 0 <= w < 0x1_0000
  type uint32 = w: int | 0 <= w < 0x1_0000_0000

  // The longest payload whose sum cannot leave 32 bits.
  const MAX_EXACT_PAYLOAD := 131068

  // Int2Checksum: the conversion to uint32 is modulo 2^32, the sum of the halves modulo 2^16.
  function IntWord(value: int): uint16 {
    var v := value % 0x1_0000_0000;
    (v % 0x1_0000 + v / 0x1_0000) % 0x1_0000
  }

  function NumWords(s: seq<byte>): nat {
    |s| / 2 + |s| % 2
  }

  // The i-th little-endian word; an odd trailing byte is padded with zero.
  function WordAt(s: seq<byte>, i: nat): uint16
    requires i < NumWords(s)
  {
    var low: int, high: int := s[2 * i], if 2 * i + 1 < |s| then s[2 * i + 1] else 0;
    low + 0x100 * high
  }

  function WordSum(s: seq<byte>, n: nat): nat
    requires n <= NumWords(s)
  {
    if n == 0 then 0 else WordSum(s, n - 1) + WordAt(s, n - 1)
  }

  function HeaderSum(connID: int, seqNum: int, size: int): nat {
    IntWord(connID) + IntWord(seqNum) + IntWord(size)
  }

  // The sum before any truncation to 32 bits.
  function ExactSum(connID: int, seqNum: int, size: int, payload: seq<byte>): nat {
    HeaderSum(connID, seqNum, size) + WordSum(payload, NumWords(payload))
  }

  function FoldOnce(sum: nat): nat {
    sum / 0x1_0000 % 0x1_0000 + sum % 0x1_0000
  }

  lemma FoldOnceShrinks(sum: uint32)
    ensures sum > 0xffff ==> 0 < FoldOnce(sum) < sum
    ensures FoldOnce(sum) == sum - 0xffff * (sum / 0x1_0000)
  {
  }

  function Fold(sum: uint32): uint16
    decreases sum
  {
    if sum <= 0xffff then
      sum
    else
      FoldOnceShrinks(sum);
      Fold(FoldOnce(sum))
  }

  function CalculateChecksum(connID: int, seqNum: int, size: int, payload: seq<byte>): uint16 {
    0xffff - Fold(ExactSum(connID, seqNum, size, payload) % 0x1_0000_0000)
  }

  // ---------- The loops of the program ----------

  method SumBytes(value: seq<byte>) returns (sum: uint32)
    ensures sum == WordSum(value, NumWords(value)) % 0x1_0000_0000
  {
    sum := 0;
    var numChunks := |value| / 2 + |value| % 2;
    var lastIdx := |value| - 1;
    for i := 0 to numChunks
      invariant sum == WordSum(value, i) % 0x1_0000_0000
    {
      var startIdx := i * 2;
      var word: uint16;
      if startIdx < lastIdx {
        var low: int, high: int := value[startIdx], value[startIdx + 1];
        word := low + 0x100 * high;
      } else {
        word := value[startIdx];
      }
      assert word == WordAt(value, i);
      AddThenTruncate(word, WordSum(value, i));
      sum := (word + sum) % 0x1_0000_0000;
    }
  }

  method FoldLoop(start: uint32) returns (sum: uint16)
    ensures sum == Fold(start)
  {
    var acc: uint32 := start;
    while acc > 0xffff
      invariant Fold(acc) == Fold(start)
      decreases acc
    {
      var upperHalf := acc / 0x1_0000 % 0x1_0000;
      var lowerHalf := acc % 0x1_0000;
      assert Fold(acc) == Fold(FoldOnce(acc));
      FoldOnceShrinks(acc);
      acc := upperHalf + lowerHalf;
    }
    sum := acc;
  }

  method ComputeChecksum(connID: int, seqNum: int, size: int, payload: seq<byte>) returns (res: uint16)
    ensures res == CalculateChecksum(connID, seqNum, size, payload)
  {
    hide Fold, WordSum;
    var sum: uint32 := HeaderSum(connID, seqNum, size);
    var body := SumBytes(payload);
    AddThenTruncate(HeaderSum(connID, seqNum, size), WordSum(payload, NumWords(payload)));
    sum := (sum + body) % 0x1_0000_0000;
    var folded := FoldLoop(sum);
    res := 0xffff - folded;
  }

  // ---------- What the folding loop computes ----------

  lemma RemainderShift(x: int, q: int)
    ensures (x - 0xffff * q) % 0xffff == x % 0xffff
  {
  }

  lemma AddThenTruncate(x: nat, y: nat)
    ensures (x + y % 0x1_0000_0000) % 0x1_0000_0000 == (x + y) % 0x1_0000_0000
  {
  }

  // The loop body runs at most twice, whatever the 32-bit sum.
  lemma TwoFoldsSuffice(sum: uint32)
    ensures FoldOnce(FoldOnce(sum)) <= 0xffff
    ensures Fold(sum) == if sum <= 0xffff then sum
                         else if FoldOnce(sum) <= 0xffff then FoldOnce(sum) else FoldOnce(FoldOnce(sum))
  {
    var once := FoldOnce(sum);
    FoldOnceSmall(sum);
    FoldOnceSmall(once);
    if once > 0xffff {
      assert Fold(once) == Fold(FoldOnce(once)) == FoldOnce(once);
    }
  }

  lemma FoldOnceSmall(sum: uint32)
    ensures FoldOnce(sum) <= 0x1_fffe
    ensures sum <= 0x1_fffe ==> FoldOnce(sum) <= 0xffff
  {
  }

  lemma {:induction false} FoldClosedForm(sum: uint32)
    ensures Fold(sum) == if sum == 0 then 0 else (sum - 1) % 0xffff + 1
    decreases sum
  {
    hide FoldOnce;
    if sum > 0xffff {
      FoldOnceShrinks(sum);
      FoldClosedForm(FoldOnce(sum));
      RemainderShift(sum - 1, sum / 0x1_0000);
    }
  }

  // ---------- When the 32-bit accumulator is wide enough ----------

  lemma {:induction false} WordSumBound(s: seq<byte>, n: nat)
    requires n <= NumWords(s)
    ensures WordSum(s, n) <= 0xffff * n
  {
    if n > 0 {
      WordSumBound(s, n - 1);
    }
  }

  lemma {:induction false} WordSumOfOnes(len: nat, n: nat)
    requires n <= len / 2
    ensures WordSum(seq(len, _ => 0xff as byte), n) == 0xffff * n
  {
    if n > 0 {
      WordSumOfOnes(len, n - 1);
    }
  }

  lemma SumBound(connID: int, seqNum: int, size: int, payload: seq<byte>)
    requires |payload| <= MAX_EXACT_PAYLOAD
    ensures ExactSum(connID, seqNum, size, payload) < 0x1_0000_0000
  {
    WordSumBound(payload, NumWords(payload));
  }

  lemma ExactChecksum(connID: int, seqNum: int, size: int, payload: seq<byte>)
    requires |payload| <= MAX_EXACT_PAYLOAD
    ensures ExactSum(connID, seqNum, size, payload) < 0x1_0000_0000
    ensures CalculateChecksum(connID, seqNum, size, payload) == 0xffff - Fold(ExactSum(connID, seqNum, size, payload))
  {
    SumBound(connID, seqNum, size, payload);
    TruncationOfSmall(ExactSum(connID, seqNum, size, payload));
  }

  lemma TruncationOfSmall(x: nat)
    requires x < 0x1_0000_0000
    ensures x % 0x1_0000_0000 == x
  {
  }

  // No message of this payload length, its Size being that length, can carry out of the accumulator.
  ghost predicate NeverOverflows(length: nat) {
    forall connID, seqNum, payload: seq<byte> | |payload| == length
      :: ExactSum(connID, seqNum, |payload|, payload) < 0x1_0000_0000
  }

  lemma OverflowBound(length: nat)
    ensures NeverOverflows(length) <==> length <= MAX_EXACT_PAYLOAD
  {
    if length <= MAX_EXACT_PAYLOAD {
      forall connID, seqNum, payload: seq<byte> | |payload| == length
        ensures ExactSum(connID, seqNum, |payload|, payload) < 0x1_0000_0000
      {
        SumBound(connID, seqNum, |payload|, payload);
      }
    } else {
      var payload: seq<byte> := seq(length, _ => 0xff);
      OnesOverflow(length);
      assert |payload| == length && ExactSum(0xffff, 0xffff, |payload|, payload) >= 0x1_0000_0000;
    }
  }

  lemma OnesOverflow(length: nat)
    requires length > MAX_EXACT_PAYLOAD
    ensures ExactSum(0xffff, 0xffff, length, seq(length, _ => 0xff as byte)) >= 0x1_0000_0000
  {
    hide WordSum;
    var payload: seq<byte> := seq(length, _ => 0xff);
    OnesSum(length);
    assert IntWord(0xffff) == 0xffff;
    if length < 0x2_0000 {
      assert IntWord(length) == if length == 0x1_ffff then 0 else length - 0xffff;
    }
  }

  lemma OnesSum(length: nat)
    ensures var payload: seq<byte> := seq(length, _ => 0xff as byte);
            WordSum(payload, NumWords(payload)) == 0xffff * (length / 2) + 0xff * (length % 2)
  {
    WordSumOfOnes(length, length / 2);
  }

  // ---------- Which single-word changes the checksum misses ----------

  ghost predicate DifferOnlyInWord(p: seq<byte>, q: seq<byte>, k: nat) {
    && |p| == |q|
    && k < NumWords(p)
    && forall i: nat | i < NumWords(p) && i != k :: WordAt(p, i) == WordAt(q, i)
  }

  predicate TwoZeros(v: uint16, w: uint16) {
    (v == 0 && w == 0xffff) || (v == 0xffff && w == 0)
  }

  lemma {:induction false} WordSumDifference(p: seq<byte>, q: seq<byte>, k: nat, n: nat)
    requires DifferOnlyInWord(p, q, k) && n <= NumWords(p)
    ensures WordSum(q, n) - WordSum(p, n) == if k < n then WordAt(q, k) - WordAt(p, k) else 0
  {
    if n > 0 {
      WordSumDifference(p, q, k, n - 1);
    }
  }

  lemma SameResidue(a: nat, b: nat)
    requires a <= b <= a + 0xffff
    ensures a % 0xffff == b % 0xffff <==> a == b || b == a + 0xffff
  {
  }

  // Two sums at most one word apart fold to the same value only if they are equal or are both non-zero
  // and exactly 0xFFFF apart.
  lemma FoldBlindSpot(a: uint32, b: uint32)
    requires a <= b <= a + 0xffff
    ensures Fold(a) == Fold(b) <==> a == b || (0 < a && b == a + 0xffff)
  {
    FoldClosedForm(a);
    FoldClosedForm(b);
    if 0 < a {
      SameResidue(a - 1, b - 1);
    }
  }

  lemma BlindSpotOfWords(a: uint32, b: uint32, wp: uint16, wq: uint16)
    requires b - a == wq - wp
    ensures Fold(a) == Fold(b) <==> wp == wq || (TwoZeros(wp, wq) && a > 0 && b > 0)
  {
    if a <= b {
      FoldBlindSpot(a, b);
    } else {
      FoldBlindSpot(b, a);
    }
  }

  // The exact blind spot: 0x0000 and 0xFFFF are the two zeros of one's complement arithmetic, and the
  // checksum tells them apart only when everything else in the message sums to zero.
  lemma SingleWordChange(connID: int, seqNum: int, size: int, p: seq<byte>, q: seq<byte>, k: nat)
    requires DifferOnlyInWord(p, q, k) && |p| <= MAX_EXACT_PAYLOAD
    ensures CalculateChecksum(connID, seqNum, size, p) == CalculateChecksum(connID, seqNum, size, q)
            <==> || WordAt(p, k) == WordAt(q, k)
                 || (&& TwoZeros(WordAt(p, k), WordAt(q, k))
                     && ExactSum(connID, seqNum, size, p) > 0
                     && ExactSum(connID, seqNum, size, q) > 0)
  {
    ExactChecksum(connID, seqNum, size, p);
    ExactChecksum(connID, seqNum, size, q);
    WordSumDifference(p, q, k, NumWords(p));
    BlindSpotOfWords(
      ExactSum(connID, seqNum, size, p), ExactSum(connID, seqNum, size, q), WordAt(p, k), WordAt(q, k));
  }

  // ---------- The end-around-carry law ----------

  // The payload as its bytes weigh: those at even positions once, those at odd positions 256 times.
  function ByteSum(s: seq<byte>): nat {
    if s == [] then 0
    else
      var last: int := s[|s| - 1];
      ByteSum(s[..|s| - 1]) + if |s| % 2 == 1 then last else 0x100 * last
  }

  lemma {:induction false} SameWords(s: seq<byte>, t: seq<byte>, n: nat)
    requires n <= |s| / 2 && n <= |t| / 2 && forall i | 0 <= i < 2 * n :: s[i] == t[i]
    ensures WordSum(s, n) == WordSum(t, n)
  {
    if n > 0 {
      SameWords(s, t, n - 1);
    }
  }

  lemma {:induction false} WordsAreBytes(s: seq<byte>)
    ensures WordSum(s, NumWords(s)) == ByteSum(s)
  {
    if s != [] {
      var t := s[..|s| - 1];
      WordsAreBytes(t);
      SameWords(s, t, |t| / 2);
    }
  }

  // Whether the addition of the two halves of a header field loses a carry
  function LostCarry(value: int): nat {
    if value % 0x1_0000 + value / 0x1_0000 > 0xffff then 1 else 0
  }

  lemma WordOfField(value: int)
    requires 0 <= value < 0x1_0000_0000
    ensures value == IntWord(value) + LostCarry(value) + 0xffff * (value / 0x1_0000 + LostCarry(value))
  {
    TruncationOfSmall(value);
  }

  lemma {:induction false} FoldKeepsResidue(sum: uint32)
    ensures (sum - Fold(sum)) % 0xffff == 0
    decreases sum
  {
    hide FoldOnce;
    if sum > 0xffff {
      FoldOnceShrinks(sum);
      FoldKeepsResidue(FoldOnce(sum));
      MultipleOf(FoldOnce(sum) - Fold(sum), sum / 0x1_0000);
    }
  }

  lemma MultipleOf(x: int, q: int)
    requires x % 0xffff == 0
    ensures (x + 0xffff * q) % 0xffff == 0
  {
  }

  /** Up to the carries that the header additions lose, checksum, header fields and payload add up to a multiple of
      0xffff, as RFC 1071 promises; a header field below 2^16 loses none. The checksum is 0xffff only for a message all
      of whose words are zero. */
  lemma EndAroundCarry(connID: int, seqNum: int, size: int, payload: seq<byte>)
    requires 0 <= connID < 0x1_0000_0000 && 0 <= seqNum < 0x1_0000_0000 && 0 <= size < 0x1_0000_0000
    requires |payload| <= MAX_EXACT_PAYLOAD
    ensures (CalculateChecksum(connID, seqNum, size, payload) + connID + seqNum + size + ByteSum(payload)
             - LostCarry(connID) - LostCarry(seqNum) - LostCarry(size)) % 0xffff == 0
    ensures CalculateChecksum(connID, seqNum, size, payload) == 0xffff
            <==> IntWord(connID) == 0 && IntWord(seqNum) == 0 && IntWord(size) == 0 && ByteSum(payload) == 0
  {
    hide Fold, IntWord, WordSum, LostCarry, CalculateChecksum;
    var sum := ExactSum(connID, seqNum, size, payload);
    ExactChecksum(connID, seqNum, size, payload);
    WordsAreBytes(payload);
    WordOfField(connID);
    WordOfField(seqNum);
    WordOfField(size);
    FoldKeepsResidue(sum);
    FoldOfNonZero(sum);
    MultipleOf(sum - Fold(sum),
               connID / 0x1_0000 + LostCarry(connID) + seqNum / 0x1_0000 + LostCarry(seqNum)
               + size / 0x1_0000 + LostCarry(size) + 1);
  }

  lemma FoldOfNonZero(sum: uint32)
    ensures Fold(sum) == 0 <==> sum == 0
  {
    FoldClosedForm(sum);
  }

  // A change of one word from v to w that the checksum misses, the other words adding up to `rest`
  predicate Missed(v: uint16, w: uint16, rest: nat) {
    v == w || (TwoZeros(v, w) && rest > 0)
  }

  /** Each of the three header fields is covered: a change of it alone goes unnoticed exactly when its word stays the
      same or goes from one zero to the other while not everything else is zero. */
  lemma HeaderChange(v: int, w: int, x: int, y: int, payload: seq<byte>)
    requires |payload| <= MAX_EXACT_PAYLOAD
    ensures var missed := Missed(IntWord(v), IntWord(w), IntWord(x) + IntWord(y) + ByteSum(payload));
            && (CalculateChecksum(v, x, y, payload) == CalculateChecksum(w, x, y, payload) <==> missed)
            && (CalculateChecksum(x, v, y, payload) == CalculateChecksum(x, w, y, payload) <==> missed)
            && (CalculateChecksum(x, y, v, payload) == CalculateChecksum(x, y, w, payload) <==> missed)
  {
    hide Fold, IntWord, WordSum, CalculateChecksum;
    WordsAreBytes(payload);
    FieldChange(v, x, y, w, x, y, payload, IntWord(v), IntWord(w));
    FieldChange(x, v, y, x, w, y, payload, IntWord(v), IntWord(w));
    FieldChange(x, y, v, x, y, w, payload, IntWord(v), IntWord(w));
  }

  lemma FieldChange(a: int, b: int, c: int, d: int, e: int, f: int, payload: seq<byte>, v: uint16, w: uint16)
    requires |payload| <= MAX_EXACT_PAYLOAD
    requires ExactSum(d, e, f, payload) - ExactSum(a, b, c, payload) == w - v && ExactSum(a, b, c, payload) >= v
    ensures CalculateChecksum(a, b, c, payload) == CalculateChecksum(d, e, f, payload)
            <==> Missed(v, w, ExactSum(a, b, c, payload) - v)
  {
    hide Fold, ExactSum, CalculateChecksum;
    ExactChecksum(a, b, c, payload);
    ExactChecksum(d, e, f, payload);
    BlindSpotOfWords(ExactSum(a, b, c, payload), ExactSum(d, e, f, payload), v, w);
  }
}
