/**
 What the network layer may do to a data message (`lspnet/conn.go`) and the filter both readers apply to
 what arrives (`readRoutine` in the client and in the server).
 */
module DataFilter {
  import opened Checksum
  import opened Messages

  // The damage one write does: the branches are tried in this order and exclude each other.
  datatype Fault = Intact | Shorten | Lengthen | Corrupt

  // A data message on the wire.
  datatype Frame = Frame(connId: int, seqNum: int, size: nat, checksum: uint16, payload: Payload)

  // The frame both ends build for a message: the true size and the checksum of the four fields.
  function NewData(m: Message): Frame {
    Frame(m.connId, m.seqNum, |m.payload|, CalculateChecksum(m.connId, m.seqNum, |m.payload|, m.payload), m.payload)
  }

  // The single byte of the JSON number 0.
  const ZERO_DIGIT: byte := 0x30

  /** `isNumber` says whether the payload parses as a JSON integer. The code tests the parser's error the
      wrong way round: only a payload that is not a number is replaced by the text of (zero scaled), and
      a number is cut in half or extended as raw bytes. */
  function TamperedPayload(payload: Payload, fault: Fault, isNumber: bool): Payload {
    match fault
    case Intact => payload
    case Shorten => if !isNumber then [ZERO_DIGIT] else payload[..|payload| / 2]
    case Lengthen => if !isNumber then [ZERO_DIGIT] else payload + [2, 3, 4]
    case Corrupt => if payload == [] then [0xff] else payload[0 := 0xff - payload[0]]
  }

  function Tampered(f: Frame, fault: Fault, isNumber: bool): Frame {
    f.(payload := TamperedPayload(f.payload, fault, isNumber))
  }

  // The readers' filter: None when the message is dropped.
  function Accept(f: Frame): Option<Message> {
    if f.size == |f.payload| then
      if CalculateChecksum(f.connId, f.seqNum, f.size, f.payload) == f.checksum then
        Some(Message(f.connId, f.seqNum, f.payload))
      else
        None
    else if f.size > |f.payload| then
      None
    else
      Some(Message(f.connId, f.seqNum, f.payload[..f.size]))
  }

  // UDPConn.write, from the branch on msg.Type on
  method Write(f: Frame, shorten: bool, lengthen: bool, corrupted: bool, isNumber: bool) returns (out: Frame)
    ensures out == Tampered(
                     f,
                     if shorten then Shorten else if lengthen then Lengthen else if corrupted then Corrupt else Intact,
                     isNumber)
    ensures out == f.(payload := out.payload)
    ensures shorten ==> out.payload == if isNumber then f.payload[..|f.payload| / 2] else [ZERO_DIGIT]
    ensures !shorten && lengthen ==> out.payload == if isNumber then f.payload + [2, 3, 4] else [ZERO_DIGIT]
    ensures !shorten && !lengthen && corrupted ==>
              out.payload == if f.payload == [] then [0xff] else [0xff - f.payload[0]] + f.payload[1..]
    ensures !shorten && !lengthen && !corrupted ==> out == f
  {
    var payload := f.payload;
    if shorten {
      if !isNumber {
        payload := [ZERO_DIGIT];
      } else {
        payload := payload[..|payload| / 2];
      }
    } else if lengthen {
      if !isNumber {
        payload := [ZERO_DIGIT];
      } else {
        payload := payload + [2, 3, 4];
      }
    } else if corrupted {
      if |payload| == 0 {
        payload := [0xff];
      } else {
        payload := payload[0 := 0xff - payload[0]];
      }
    }
    out := f.(payload := payload);
  }

  // The body of readRoutine for a data message
  method Filter(f: Frame) returns (r: Option<Message>)
    ensures r == Accept(f)
  {
    var payload := f.payload;
    if f.size == |payload| {
      var checksum := ComputeChecksum(f.connId, f.seqNum, f.size, payload);
      if checksum != f.checksum {
        return None;
      }
    } else if f.size > |payload| {
      return None;
    } else {
      payload := payload[..f.size];
    }
    return Some(Message(f.connId, f.seqNum, payload));
  }

  lemma FirstByteChange(m: Message, payload: Payload)
    requires 0 < |m.payload| == |payload| <= MAX_EXACT_PAYLOAD
    requires payload[1..] == m.payload[1..] && payload[0] != m.payload[0]
    requires payload[0] == 0xff - m.payload[0] || |payload| == 1
    ensures CalculateChecksum(m.connId, m.seqNum, |payload|, payload) != NewData(m).checksum
  {
    assert forall i | 1 <= i < |payload| :: payload[i] == payload[1..][i - 1] == m.payload[i];
    SingleWordChange(m.connId, m.seqNum, |payload|, m.payload, payload, 0);
    assert !TwoZeros(WordAt(m.payload, 0), WordAt(payload, 0));
  }

  /** Exactly which tampered messages get through: extended ones, empty ones, and the one-digit text "0" replaced by
      itself. The last case is here for completeness: the parser takes that text for a number, but `isNumber` is left
      arbitrary. */
  ghost predicate Survives(payload: Payload, fault: Fault, isNumber: bool) {
    || fault == Intact
    || payload == []
    || (fault == Lengthen && isNumber)
    || (fault != Corrupt && !isNumber && payload == [ZERO_DIGIT])
  }

  // Whatever write does to a message, the reader sees the message as sent or nothing at all.
  lemma TamperingIsLoss(m: Message, fault: Fault, isNumber: bool)
    requires |m.payload| <= MAX_EXACT_PAYLOAD
    ensures Accept(Tampered(NewData(m), fault, isNumber))
         == if Survives(m.payload, fault, isNumber) then Some(m) else None
  {
    hide CalculateChecksum, TamperedPayload, Survives;
    var t := TamperedPayload(m.payload, fault, isNumber);
    DamageShape(m.payload, fault, isNumber);
    if |m.payload| < |t| {
      assert t[..|m.payload|] == m.payload;
    } else if |m.payload| == |t| && t != m.payload {
      FirstByteChange(m, t);
    }
  }

  // A payload that survives is as it was or longer; any other is shorter or differs in its first byte.
  lemma DamageShape(payload: Payload, fault: Fault, isNumber: bool)
    ensures var t := TamperedPayload(payload, fault, isNumber);
            && (Survives(payload, fault, isNumber) <==> t == payload || |t| > |payload|)
            && (|t| > |payload| ==> t[..|payload|] == payload)
            && (|t| == |payload| && t != payload ==>
                  && payload != [] && t[1..] == payload[1..] && t[0] != payload[0]
                  && (t[0] == 0xff - payload[0] || |payload| == 1))
  {
  }

  // ---------- The filter of the reference implementation ----------

  // Before the message reaches the link: None when it is too short.
  function CutToSize(f: Frame): Option<Frame> {
    if |f.payload| < f.size then None else Some(f.(payload := f.payload[..f.size]))
  }

  predicate Fits(f: Frame) {
    CalculateChecksum(f.connId, f.seqNum, f.size, f.payload) == f.checksum
  }

  // Together with the link, which always compares the checksum
  function ReferenceAccept(f: Frame): Option<Message> {
    match CutToSize(f)
    case None => None
    case Some(g) => if Fits(g) then Some(Message(g.connId, g.seqNum, g.payload)) else None
  }

  /** The two filters part exactly on frames that are too long and, cut to size, do not fit their checksum: the
      reference drops them, the readers here accept what is left. */
  lemma FiltersDiffer(f: Frame)
    ensures Accept(f) != ReferenceAccept(f)
            <==> |f.payload| > f.size
                 && CalculateChecksum(f.connId, f.seqNum, f.size, f.payload[..f.size]) != f.checksum
  {
    assert |f.payload| == f.size ==> f.payload[..f.size] == f.payload;
  }

  // On what the network makes of a message they agree.
  lemma FiltersAgree(m: Message, fault: Fault, isNumber: bool)
    ensures Accept(Tampered(NewData(m), fault, isNumber)) == ReferenceAccept(Tampered(NewData(m), fault, isNumber))
  {
    var t := Tampered(NewData(m), fault, isNumber);
    FiltersDiffer(t);
    if |t.payload| > t.size {
      assert t.payload[..t.size] == m.payload;
    }
  }
}
