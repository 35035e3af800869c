/**
 * The parameters of a send (src/ramses_tx/typing.py): its priority, its
 * quality-of-service settings (retries, timeout, whether to wait for a
 * reply) and its transmission settings (gap between repeats, repeats).
 * The constructors only normalise their arguments; the results are
 * values. Packets are represented by their frames and times by integer
 * timestamps; a duration in seconds is a `real`.
 */
module TxTyping {
  import opened Common

  /** `SendPriority`, an IntEnum. */
  datatype SendPriority = PriMax | High | Default | Low | PriMin

  function PriorityValue(p: SendPriority): (v: int)
    ensures -9 <= v <= 9
    ensures v == 0 <==> p == Default
  {
    match p
    case PriMax => -9
    case High => -2
    case Default => 0
    case Low => 2
    case PriMin => 9
  }

  /** The priorities in their order: `_MAX` < HIGH < DEFAULT < LOW < `_MIN`. */
  const PriorityOrder: seq<SendPriority> := [PriMax, High, Default, Low, PriMin]

  /** The values increase along the order, so comparing priorities is comparing their values, and only DEFAULT is falsy. */
  lemma PrioritiesAreOrdered()
    ensures forall i, j :: 0 <= i < j < |PriorityOrder| ==> PriorityValue(PriorityOrder[i]) < PriorityValue(PriorityOrder[j])
    ensures forall p: SendPriority :: p in PriorityOrder
    ensures forall p: SendPriority :: PriorityValue(p) == 0 <==> p == Default
    ensures forall i :: 0 <= i < |PriorityOrder| ==> PriorityValue(PriorityOrder[i]) == [-9, -2, 0, 2, 9][i]
  {
    forall p: SendPriority ensures p in PriorityOrder {
      match p
      case PriMax => assert PriorityOrder[0] == p;
      case High => assert PriorityOrder[1] == p;
      case Default => assert PriorityOrder[2] == p;
      case Low => assert PriorityOrder[3] == p;
      case PriMin => assert PriorityOrder[4] == p;
    }
  }

  /** `DEFAULT_MAX_RETRIES` and `DEFAULT_TIMEOUT`. */
  const DefaultMaxRetries: int := 3
  const DefaultTimeout: real := 30.0
  /** `_DEFAULT_TX_DELAY` and `_DEFAULT_TX_COUNT`. */
  const DefaultTxDelay: real := 0.02
  const DefaultTxCount: int := 1

  /** A QosParams: the settings, and the packets and times recorded while sending (none when made). */
  datatype QosParams = QosParams(
    maxRetries: int, timeout: real, waitForReply: Option<bool>,
    echoPkt: Option<string>, rplyPkt: Option<string>,
    dtCmdSent: Option<int>, dtEchoRcvd: Option<int>, dtRplyRcvd: Option<int>)

  /**
   * `QosParams(...)`: a missing retry count becomes 3 (a given one, even
   * 0, is kept); a missing or zero timeout becomes 30 s; whether to wait
   * for a reply is kept as given, None apart from False.
   */
  function NewQosParams(maxRetries: Option<int>, timeout: Option<real>, waitForReply: Option<bool>): (q: QosParams)
    ensures q.maxRetries == (if maxRetries.Some? then maxRetries.value else DefaultMaxRetries)
    ensures timeout.Some? && timeout.value != 0.0 ==> q.timeout == timeout.value
    ensures timeout.None? || timeout == Some(0.0) ==> q.timeout == DefaultTimeout
    ensures q.timeout != 0.0
    ensures q.waitForReply == waitForReply
    ensures q.echoPkt.None? && q.rplyPkt.None? && q.dtCmdSent.None? && q.dtEchoRcvd.None? && q.dtRplyRcvd.None?
  {
    QosParams(
      if maxRetries.None? then DefaultMaxRetries else maxRetries.value,
      if timeout.None? || timeout.value == 0.0 then DefaultTimeout else timeout.value,
      waitForReply,
      None, None, None, None, None)
  }

  /** Making a QosParams again from one's own settings gives the same settings: normalising twice changes nothing. */
  lemma QosParamsNormaliseOnce(maxRetries: Option<int>, timeout: Option<real>, waitForReply: Option<bool>)
    ensures var q := NewQosParams(maxRetries, timeout, waitForReply);
      NewQosParams(Some(q.maxRetries), Some(q.timeout), q.waitForReply) == q
  {
  }

  /** Zero retries is a setting of its own, not the default; a zero timeout is the default. */
  lemma ZeroRetriesAreKept()
    ensures NewQosParams(Some(0), None, None).maxRetries == 0
    ensures NewQosParams(None, Some(0.0), None).timeout == DefaultTimeout
    ensures NewQosParams(None, None, Some(false)).waitForReply != NewQosParams(None, None, None).waitForReply
  {
  }

  /** A SendParams: the settings, and the times recorded while sending (none when made). */
  datatype SendParams = SendParams(
    gapDuration: real, numRepeats: int, priority: SendPriority,
    dtCmdArrived: Option<int>, dtCmdQueued: Option<int>, dtCmdSent: Option<int>)

  /**
   * `SendParams(...)`: a missing or zero gap becomes 0.02 s, a missing or
   * zero repeat count 1, and a missing priority DEFAULT (the only falsy
   * priority).
   */
  function NewSendParams(gapDuration: Option<real>, numRepeats: Option<int>, priority: Option<SendPriority>): (p: SendParams)
    ensures p.gapDuration != 0.0 && p.numRepeats != 0
    ensures gapDuration.Some? && gapDuration.value != 0.0 ==> p.gapDuration == gapDuration.value
    ensures numRepeats.Some? && numRepeats.value != 0 ==> p.numRepeats == numRepeats.value
    ensures gapDuration.None? || gapDuration == Some(0.0) ==> p.gapDuration == DefaultTxDelay
    ensures numRepeats.None? || numRepeats == Some(0) ==> p.numRepeats == DefaultTxCount
    ensures p.priority == (if priority.Some? then priority.value else Default)
    ensures p.dtCmdArrived.None? && p.dtCmdQueued.None? && p.dtCmdSent.None?
  {
    SendParams(
      if gapDuration.None? || gapDuration.value == 0.0 then DefaultTxDelay else gapDuration.value,
      if numRepeats.None? || numRepeats.value == 0 then DefaultTxCount else numRepeats.value,
      if priority.None? || PriorityValue(priority.value) == 0 then Default else priority.value,
      None, None, None)
  }

  /** Making a SendParams again from one's own settings gives the same settings. */
  lemma SendParamsNormaliseOnce(gapDuration: Option<real>, numRepeats: Option<int>, priority: Option<SendPriority>)
    ensures var p := NewSendParams(gapDuration, numRepeats, priority);
      NewSendParams(Some(p.gapDuration), Some(p.numRepeats), Some(p.priority)) == p
  {
  }
}
