/**
 * The writer side of a worker connection: how `send_work` turns a
 * scheduling decision into the frames put on the port (one JSON message,
 * followed for "add" by the permuter's two compressed blobs).
 */
module Writer {
  import opened Types

  /** The JSON messages the controller sends, by their "type" field. */
  datatype OutMessage =
    | WorkMessage(permuter: PermuterId, seed: nat)
    | AddMessage(permuter: PermuterId, clientId: UserId, clientName: string, meta: nat)
    | RemoveMessage(permuter: PermuterId)

  /** One frame on the port: a JSON message or raw bytes. */
  datatype Frame = JsonFrame(message: OutMessage) | BinaryFrame(bytes: Bytes)

  /** The value of the message's "type" field. */
  function TypeTag(m: OutMessage): (tag: string)
  {
    match m
    case WorkMessage(_, _) => "work"
    case AddMessage(_, _, _, _) => "add"
    case RemoveMessage(_) => "remove"
  }

  /**
   * The frames `send_work` puts on the port for a decision about `id`: one
   * JSON message naming the permuter, whose "type" is "work", "add" or
   * "remove" after the decision, and for "add" the source blob and then the
   * target object blob.
   */
  function SendWorkFrames(id: PermuterId, t: ToSend): (frames: seq<Frame>)
    ensures |frames| == (if t.Add? then 3 else 1)
    ensures frames[0].JsonFrame? && frames[0].message.permuter == id
    ensures TypeTag(frames[0].message) == (match t
                                           case Work(_) => "work"
                                           case Add(_, _, _) => "add"
                                           case Remove => "remove")
    ensures forall i :: 1 <= i < |frames| ==> frames[i].BinaryFrame?
  {
    match t
    case Work(PermuterWork(seed)) => [JsonFrame(WorkMessage(id, seed))]
    case Add(clientId, clientName, data) =>
      [JsonFrame(AddMessage(id, clientId, clientName, data.meta)),
       BinaryFrame(data.compressedSource),
       BinaryFrame(data.compressedTargetOBin)]
    case Remove => [JsonFrame(RemoveMessage(id))]
  }

  /** The model's own decoder of the frames `SendWorkFrames` produces, used to show they lose nothing. */
  function ReadDispatch(frames: seq<Frame>): (decoded: Option<(PermuterId, ToSend)>)
  {
    if frames == [] || !frames[0].JsonFrame? then None
    else
      match frames[0].message
      case WorkMessage(id, seed) =>
        if |frames| == 1 then Some((id, Work(PermuterWork(seed)))) else None
      case RemoveMessage(id) =>
        if |frames| == 1 then Some((id, Remove)) else None
      case AddMessage(id, clientId, clientName, meta) =>
        if |frames| == 3 && frames[1].BinaryFrame? && frames[2].BinaryFrame? then
          Some((id, Add(clientId, clientName, PermuterData(meta, frames[1].bytes, frames[2].bytes))))
        else None
  }

  /** No information is lost on the wire: every decision is read back as sent. */
  lemma SendWorkRoundTrip(id: PermuterId, t: ToSend)
    ensures ReadDispatch(SendWorkFrames(id, t)) == Some((id, t))
  {
  }

  /** Distinct decisions put distinct frames on the port. */
  lemma SendWorkInjective(id1: PermuterId, t1: ToSend, id2: PermuterId, t2: ToSend)
    requires SendWorkFrames(id1, t1) == SendWorkFrames(id2, t2)
    ensures id1 == id2 && t1 == t2
  {
    SendWorkRoundTrip(id1, t1);
    SendWorkRoundTrip(id2, t2);
  }
}
