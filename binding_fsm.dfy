/**
 * The binding handshake of a faked device (src/ramses_rf/binding_fsm.py).
 *
 * A supplicant offers (I 1FC9 to itself or to the null address), a
 * respondent accepts (W 1FC9), the supplicant confirms (I 1FC9 to the
 * respondent), and may add an addenda (I 10E0). The context holds the
 * current state, and whether it binds as respondent or supplicant; each
 * state counts the commands it has sent, remembers the first, and has a
 * future that a matching packet resolves.
 *
 * Python replaces the state object on every transition; here the
 * context's fields hold the current state object's fields, and entering a
 * state resets them. The event loop is left to the caller: a timer that
 * fires, and whether an awaited result came before its timeout, are
 * events given to the context.
 */
module BindingFsm {
  import opened Common

  const Code1FC9: string := "1FC9"
  const Code10E0: string := "10E0"
  /** `NUL_DEV_ADDR`, the null device. */
  const NulDevId: string := "63:262142"

  /** The frame of a packet or command, as far as the handshake looks at it. */
  datatype Frame = Frame(verb: string, code: string, src: string, dst: string)

  /** `BindPhase`. */
  datatype Phase = Tender | Accept | Affirm | Ratify

  /**
   * `is_phase`: an addenda is an I 10E0; the other phases are 1FC9: an
   * offer is an I to itself or the null device, an accept a W to another
   * device, a confirm an I to a real other device.
   */
  function IsPhase(f: Frame, p: Phase): (b: bool)
    ensures b ==> f.code == (if p == Ratify then Code10E0 else Code1FC9)
    ensures b ==> f.verb == (if p == Accept then " W" else " I")
  {
    if p == Ratify then f.verb == " I" && f.code == Code10E0
    else if f.code != Code1FC9 then false
    else if p == Tender then f.verb == " I" && (f.dst == f.src || f.dst == NulDevId)
    else if p == Accept then f.verb == " W" && f.dst != f.src
    else f.verb == " I" && f.dst != f.src && f.dst != NulDevId
  }

  /** A frame is of at most one phase, and only 1FC9 and 10E0 frames are of any. */
  lemma PhasesAreExclusive(f: Frame, p: Phase, q: Phase)
    requires IsPhase(f, p) && IsPhase(f, q)
    ensures p == q
    ensures f.code in {Code1FC9, Code10E0}
    ensures p == Ratify <==> f.code == Code10E0
  {
  }

  /** Every phase has a frame: the four steps of a handshake between a supplicant `s` and a respondent `r`. */
  lemma HandshakeFramesHaveTheirPhases(s: string, r: string)
    requires s != r && r != NulDevId
    ensures IsPhase(Frame(" I", Code1FC9, s, s), Tender) && IsPhase(Frame(" I", Code1FC9, s, NulDevId), Tender)
    ensures IsPhase(Frame(" W", Code1FC9, r, s), Accept)
    ensures IsPhase(Frame(" I", Code1FC9, s, r), Affirm)
    ensures IsPhase(Frame(" I", Code10E0, s, s), Ratify)
  {
  }

  /** The state classes. */
  datatype StateKind =
    | DevHasFailedBinding
    | DevIsNotBinding
    | RespHasBoundAsRespondent
    | RespIsWaitingForAddenda
    | RespSendAcceptWaitForConfirm
    | RespIsWaitingForOffer
    | SuppHasBoundAsSupplicant
    | SuppIsReadyToSendAddenda
    | SuppIsReadyToSendConfirm
    | SuppSendOfferWaitForAccept

  /** `is_binding`: every state but the four of `_IS_NOT_BINDING_STATES`. */
  predicate IsBinding(s: StateKind)
    ensures IsBinding(s) <==> WaitsForPkt(s) || SendsCmd(s)
  {
    match s
    case DevHasFailedBinding | DevIsNotBinding | RespHasBoundAsRespondent | SuppHasBoundAsSupplicant => false
    case _ => true
  }

  /** The binding states of the respondent's side. */
  predicate IsRespondentState(s: StateKind)
  {
    s in {RespIsWaitingForAddenda, RespSendAcceptWaitForConfirm, RespIsWaitingForOffer}
  }

  /** The states that wait for a packet (`_DevIsWaitingForMsg`, including the send-until-reply ones): they run a timer. */
  predicate WaitsForPkt(s: StateKind)
  {
    s in {RespIsWaitingForAddenda, RespIsWaitingForOffer, RespSendAcceptWaitForConfirm, SuppSendOfferWaitForAccept}
  }

  /** The states that send a command (`_DevIsReadyToSendCmd`, including the send-until-reply ones). */
  predicate SendsCmd(s: StateKind)
  {
    s in {SuppIsReadyToSendAddenda, SuppIsReadyToSendConfirm, RespSendAcceptWaitForConfirm, SuppSendOfferWaitForAccept}
  }

  /** `_expected_pkt_phase`. */
  function ExpectedPktPhase(s: StateKind): Phase
    requires WaitsForPkt(s)
  {
    match s
    case RespIsWaitingForAddenda => Ratify
    case RespIsWaitingForOffer => Tender
    case RespSendAcceptWaitForConfirm => Affirm
    case SuppSendOfferWaitForAccept => Accept
  }

  /** `_expected_cmd_phase`. */
  function ExpectedCmdPhase(s: StateKind): Phase
    requires SendsCmd(s)
  {
    match s
    case SuppIsReadyToSendAddenda => Ratify
    case SuppIsReadyToSendConfirm => Affirm
    case RespSendAcceptWaitForConfirm => Accept
    case SuppSendOfferWaitForAccept => Tender
  }

  /** The respondent and supplicant APIs of the states. */
  datatype Api = WaitForOffer | AcceptOffer | WaitForConfirm | WaitForAddenda | MakeOffer | WaitForAccept | ConfirmAccept | CastAddenda

  /** The one state that implements each API; every other state raises BindingFsmError. */
  function ApiState(a: Api): StateKind
  {
    match a
    case WaitForOffer => RespIsWaitingForOffer
    case AcceptOffer => RespSendAcceptWaitForConfirm
    case WaitForConfirm => RespSendAcceptWaitForConfirm
    case WaitForAddenda => RespIsWaitingForAddenda
    case MakeOffer => SuppSendOfferWaitForAccept
    case WaitForAccept => SuppSendOfferWaitForAccept
    case ConfirmAccept => SuppIsReadyToSendConfirm
    case CastAddenda => SuppIsReadyToSendAddenda
  }

  /** `accept_offer` and `make_offer` do nothing; the others await the state's result. */
  predicate Awaits(a: Api)
  {
    a != AcceptOffer && a != MakeOffer
  }

  /** `_next_ctx_state` of the states that await a result. */
  function NextState(s: StateKind): StateKind
  {
    match s
    case RespIsWaitingForOffer => RespSendAcceptWaitForConfirm
    case RespSendAcceptWaitForConfirm => RespHasBoundAsRespondent
    case RespIsWaitingForAddenda => RespHasBoundAsRespondent
    case SuppSendOfferWaitForAccept => SuppIsReadyToSendConfirm
    case SuppIsReadyToSendConfirm => SuppHasBoundAsSupplicant
    case SuppIsReadyToSendAddenda => SuppHasBoundAsSupplicant
    case _ => s
  }

  /** `BindRole`. */
  datatype Role = Respondent | Supplicant | IsDormant | IsUnknown

  /** `_attr_role` of each state class. */
  function AttrRole(s: StateKind): Role
  {
    if s == DevHasFailedBinding then IsUnknown
    else if !IsBinding(s) then IsDormant
    else if IsRespondentState(s) then Respondent
    else Supplicant
  }

  /** `role`, from the context's respondent flag. */
  function RoleOf(isRespondent: Option<bool>): Role
  {
    if isRespondent == Some(true) then Respondent
    else if isRespondent == Some(false) then Supplicant
    else IsDormant
  }

  /**
   * The state's future: not yet done, done with a message, or cancelled
   * by an await that timed out. A future failed with BindingFlowFailed
   * never outlives its state: the context moves on to DevHasFailedBinding
   * at once, with a new future.
   */
  datatype Fut = Pending | Resolved(msg: Frame) | Cancelled

  datatype BindError = BindingFsmError | BindingFlowFailed | InvalidStateError | NotImplementedError | CancelledError

  /** What an API call gives back: nothing, the awaited message, an exception, or (not yet resolved) nothing yet. */
  datatype Outcome = Returned | Got(msg: Frame) | Raised(error: BindError) | StillWaiting

  /** The context's fields together with its current state object's. */
  datatype Ctx = Ctx(state: StateKind, isRespondent: Option<bool>, cmdsSent: nat, cmd: Option<Frame>, fut: Fut)

  /**
   * `set_state`: a new state object (no sends, no command, a pending
   * future); the respondent flag is cleared when not binding, set on
   * waiting for an offer, cleared to False on sending an offer, and kept
   * otherwise.
   */
  function Enter(c: Ctx, s: StateKind): (r: Ctx)
    ensures r.state == s && r.cmdsSent == 0 && r.cmd.None? && r.fut.Pending?
    ensures !IsBinding(s) ==> r.isRespondent.None?
    ensures s == RespIsWaitingForOffer ==> r.isRespondent == Some(true)
    ensures s == SuppSendOfferWaitForAccept ==> r.isRespondent == Some(false)
    ensures IsBinding(s) && s != RespIsWaitingForOffer && s != SuppSendOfferWaitForAccept ==> r.isRespondent == c.isRespondent
  {
    var flag :=
      if !IsBinding(s) then None
      else if s == RespIsWaitingForOffer then Some(true)
      else if s == SuppSendOfferWaitForAccept then Some(false)
      else c.isRespondent;
    Ctx(s, flag, 0, None, Pending)
  }

  /** The context after `__init__`. */
  const Initial: Ctx := Ctx(DevIsNotBinding, None, 0, None, Pending)

  /**
   * What a context that starts from `Initial` always satisfies: the
   * respondent flag agrees with the state's side; a state that sends has
   * counted at most one command (its retry limit is 0), and the command
   * it remembers is the one it counted, of its phase.
   */
  predicate Inv(c: Ctx)
  {
    && (c.isRespondent.None? <==> !IsBinding(c.state))
    && (c.isRespondent == Some(true) <==> IsRespondentState(c.state))
    && c.cmdsSent <= 1
    && (c.cmdsSent == 1 <==> c.cmd.Some?)
    && (c.cmd.Some? ==> SendsCmd(c.state) && IsPhase(c.cmd.value, ExpectedCmdPhase(c.state)))
  }

  /** The role the context reports is the role of its state, except that a failed context reports itself dormant. */
  lemma RoleAgreesWithState(c: Ctx)
    requires Inv(c)
    ensures c.state != DevHasFailedBinding ==> RoleOf(c.isRespondent) == AttrRole(c.state)
    ensures c.state == DevHasFailedBinding ==> RoleOf(c.isRespondent) == IsDormant
  {
    if IsBinding(c.state) && !IsRespondentState(c.state) {
      assert c.isRespondent.Some?;
      assert c.isRespondent != Some(true);
      assert c.isRespondent.value == false;
      assert c.isRespondent == Some(false);
    }
  }

  /** Starting as respondent or supplicant: refused while binding. */
  function OnStart(c: Ctx, asRespondent: bool): (Ctx, Option<BindError>)
  {
    if IsBinding(c.state) then (c, Some(BindingFsmError))
    else (Enter(c, if asRespondent then RespIsWaitingForOffer else SuppSendOfferWaitForAccept), None)
  }

  /** `future.set_result`: a done future raises InvalidStateError. */
  function Resolve(c: Ctx, m: Frame): (Ctx, Option<BindError>)
  {
    if c.fut.Pending? then (c.(fut := Resolved(m)), None) else (c, Some(InvalidStateError))
  }

  /**
   * `rcvd_msg`: only 1FC9 and 10E0 reach the state; a state that waits
   * for a packet takes one of its expected phase; a state that only sends
   * takes the echo of its command; the others raise NotImplementedError.
   */
  function OnMsg(c: Ctx, m: Frame): (r: (Ctx, Option<BindError>))
    ensures r.0.(fut := c.fut) == c
    ensures r.0.fut != c.fut ==> c.fut.Pending? && r.0.fut == Resolved(m) && (m.code == Code1FC9 || m.code == Code10E0)
    ensures r.1 == Some(NotImplementedError) <==> (m.code == Code1FC9 || m.code == Code10E0) && !IsBinding(c.state)
  {
    if m.code != Code1FC9 && m.code != Code10E0 then (c, None)
    else if WaitsForPkt(c.state) then
      if IsPhase(m, ExpectedPktPhase(c.state)) then Resolve(c, m) else (c, None)
    else if SendsCmd(c.state) then
      if c.cmd == Some(m) then Resolve(c, m) else (c, None)
    else (c, Some(NotImplementedError))
  }

  /**
   * `_handle_wait_timer_expired` and `_retries_exceeded`: the future
   * fails (a done one raises InvalidStateError) and the context enters
   * DevHasFailedBinding.
   */
  function Fail(c: Ctx): (Ctx, Option<BindError>)
  {
    if c.fut.Pending? then (Enter(c, DevHasFailedBinding), None) else (c, Some(InvalidStateError))
  }

  /**
   * `sent_cmd`: only 1FC9 and 10E0 reach the state; a state that sends
   * ignores a command of another phase, fails once it has already counted
   * a send, and otherwise counts this one and remembers the first; the
   * other states raise NotImplementedError.
   */
  function OnCmd(c: Ctx, cmd: Frame): (r: (Ctx, Option<BindError>))
    ensures r.0.state == c.state || (r.0.state == DevHasFailedBinding && c.cmdsSent > 0 && c.fut.Pending?)
    ensures r.0.state == c.state ==> r.0.fut == c.fut && c.cmdsSent <= r.0.cmdsSent <= c.cmdsSent + 1
    ensures r.1 == Some(NotImplementedError) <==> (cmd.code == Code1FC9 || cmd.code == Code10E0) && !SendsCmd(c.state)
  {
    if cmd.code != Code1FC9 && cmd.code != Code10E0 then (c, None)
    else if !SendsCmd(c.state) then (c, Some(NotImplementedError))
    else if !IsPhase(cmd, ExpectedCmdPhase(c.state)) then (c, None)
    else if c.cmdsSent > 0 then Fail(c)
    else (c.(cmdsSent := c.cmdsSent + 1, cmd := if c.cmd.Some? then c.cmd else Some(cmd)), None)
  }

  /** The wait timer of a state waiting for a packet fires. */
  function OnTimer(c: Ctx): (Ctx, Option<BindError>)
  {
    if WaitsForPkt(c.state) then Fail(c) else (c, None)
  }

  /**
   * An API call, as written: refused by a state that does not implement
   * it; the two that do nothing return; an await takes the result and
   * enters the next state, or is still waiting. When `wait_for` times out
   * it has already cancelled the future, so `_handle_wait_timer_expired`'s
   * `set_exception` raises InvalidStateError before the state is changed;
   * awaiting a cancelled future raises CancelledError.
   */
  function OnApi(c: Ctx, a: Api, timedOut: bool): (r: (Ctx, Outcome))
    ensures r.1 == Raised(BindingFsmError) <==> c.state != ApiState(a)
    ensures r.0.state != c.state ==> c.fut.Resolved? && r.0.state == NextState(c.state) && r.1 == Got(c.fut.msg)
    ensures r.1.Got? ==> c.fut == Resolved(r.1.msg) && r.0.state == NextState(c.state)
  {
    if c.state != ApiState(a) then (c, Raised(BindingFsmError))
    else if !Awaits(a) then (c, Returned)
    else match c.fut
      case Resolved(m) => (Enter(c, NextState(c.state)), Got(m))
      case Cancelled => (c, Raised(CancelledError))
      case Pending =>
        if timedOut then (c.(fut := Cancelled), Raised(InvalidStateError))
        else (c, StillWaiting)
  }

  /**
   * An API call as evidently intended: an await whose `wait_for` times out
   * fails the future and enters DevHasFailedBinding, raising the failure.
   */
  function OnApiIntended(c: Ctx, a: Api, timedOut: bool): (r: (Ctx, Outcome))
    ensures !timedOut || c.fut.Resolved? ==> r == OnApi(c, a, timedOut)
    ensures c.state == ApiState(a) && Awaits(a) && c.fut.Pending? && timedOut ==>
      r == (Enter(c, DevHasFailedBinding), Raised(BindingFlowFailed))
  {
    if c.state == ApiState(a) && Awaits(a) && c.fut.Pending? && timedOut then
      (Enter(c, DevHasFailedBinding), Raised(BindingFlowFailed))
    else OnApi(c, a, timedOut)
  }

  lemma InitialIsValid()
    ensures Inv(Initial) && !IsBinding(Initial.state) && RoleOf(Initial.isRespondent) == IsDormant
  {
  }

  /** Every event keeps the invariant. */
  lemma EventsKeepInv(c: Ctx, m: Frame, asRespondent: bool, a: Api, timedOut: bool)
    requires Inv(c)
    ensures Inv(OnStart(c, asRespondent).0) && Inv(OnMsg(c, m).0) && Inv(OnCmd(c, m).0)
    ensures Inv(OnTimer(c).0) && Inv(OnApi(c, a, timedOut).0)
  {
    StartKeepsInv(c, asRespondent);
    MsgKeepsInv(c, m);
    CmdKeepsInv(c, m);
    ApiKeepsInv(c, a, timedOut);
  }

  lemma StartKeepsInv(c: Ctx, asRespondent: bool)
    requires Inv(c)
    ensures Inv(OnStart(c, asRespondent).0)
  {
  }

  lemma MsgKeepsInv(c: Ctx, m: Frame)
    requires Inv(c)
    ensures Inv(OnMsg(c, m).0)
  {
  }

  lemma CmdKeepsInv(c: Ctx, m: Frame)
    requires Inv(c)
    ensures Inv(OnCmd(c, m).0)
  {
  }

  lemma ApiKeepsInv(c: Ctx, a: Api, timedOut: bool)
    requires Inv(c)
    ensures Inv(OnApi(c, a, timedOut).0)
  {
  }

  /** Starting while already binding is refused and changes nothing; otherwise it binds on the chosen side. */
  lemma StartOnlyWhenIdle(c: Ctx, asRespondent: bool)
    ensures IsBinding(c.state) ==> OnStart(c, asRespondent) == (c, Some(BindingFsmError))
    ensures !IsBinding(c.state) ==> var r := OnStart(c, asRespondent).0;
      IsBinding(r.state) && RoleOf(r.isRespondent) == (if asRespondent then Respondent else Supplicant)
  {
  }

  /** Frames of other codes never change the context. */
  lemma OtherCodesAreIgnored(c: Ctx, f: Frame)
    requires f.code != Code1FC9 && f.code != Code10E0
    ensures OnMsg(c, f) == (c, None) && OnCmd(c, f) == (c, None)
  {
  }

  /** The second send of a state that sends (retry limit 0) fails the binding. */
  lemma SecondSendFails(c: Ctx, cmd1: Frame, cmd2: Frame)
    requires Inv(c) && SendsCmd(c.state) && c.cmdsSent == 0 && c.fut.Pending?
    requires IsPhase(cmd1, ExpectedCmdPhase(c.state)) && IsPhase(cmd2, ExpectedCmdPhase(c.state))
    ensures var c1 := OnCmd(c, cmd1).0;
      c1.cmd == Some(cmd1) && c1.cmdsSent == 1 && c1.state == c.state
      && OnCmd(c1, cmd2).0.state == DevHasFailedBinding && OnCmd(c1, cmd2).1.None?
  {
    PhasesAreExclusive(cmd1, ExpectedCmdPhase(c.state), ExpectedCmdPhase(c.state));
  }

  /** As intended, an await that times out before its result fails the binding, whatever the state. */
  lemma TimeoutFails(c: Ctx, a: Api)
    requires c.state == ApiState(a) && Awaits(a) && c.fut.Pending?
    ensures OnApiIntended(c, a, true).1 == Raised(BindingFlowFailed)
    ensures OnApiIntended(c, a, true).0.state == DevHasFailedBinding && !IsBinding(OnApiIntended(c, a, true).0.state)
    ensures Inv(c) ==> Inv(OnApiIntended(c, a, true).0)
  {
  }

  /**
   * As written, an await that times out raises InvalidStateError, keeps
   * the state, and leaves its future cancelled.
   */
  lemma TimeoutCancels(c: Ctx, a: Api)
    requires c.state == ApiState(a) && Awaits(a) && c.fut.Pending?
    ensures OnApi(c, a, true).1 == Raised(InvalidStateError)
    ensures OnApi(c, a, true).0.state == c.state && OnApi(c, a, true).0.fut == Cancelled
    ensures OnApi(c, a, true).0 != OnApiIntended(c, a, true).0
  {
  }

  /** One step of a handshake, as a context sees it. */
  datatype Event = Start(asRespondent: bool) | Rcvd(m: Frame) | Sent(cmd: Frame) | Timer | Call(a: Api, timedOut: bool)

  function Apply(c: Ctx, e: Event): Ctx
  {
    match e
    case Start(asRespondent) => OnStart(c, asRespondent).0
    case Rcvd(m) => OnMsg(c, m).0
    case Sent(cmd) => OnCmd(c, cmd).0
    case Timer => OnTimer(c).0
    case Call(a, timedOut) => OnApi(c, a, timedOut).0
  }

  function Run(c: Ctx, es: seq<Event>): Ctx
    decreases |es|
  {
    if es == [] then c else Run(Apply(c, es[0]), es[1..])
  }

  /** Any run from a valid context ends in a valid one. */
  lemma {:induction false} RunKeepsInv(c: Ctx, es: seq<Event>)
    requires Inv(c)
    ensures Inv(Run(c, es))
    decreases |es|
  {
    if es != [] {
      var e := es[0];
      match e {
        case Start(b) => EventsKeepInv(c, Frame("", "", "", ""), b, WaitForOffer, false);
        case Rcvd(m) => EventsKeepInv(c, m, false, WaitForOffer, false);
        case Sent(cmd) => EventsKeepInv(c, cmd, false, WaitForOffer, false);
        case Timer => EventsKeepInv(c, Frame("", "", "", ""), false, WaitForOffer, false);
        case Call(a, t) => EventsKeepInv(c, Frame("", "", "", ""), false, a, t);
      }
      RunKeepsInv(Apply(c, e), es[1..]);
    }
  }

  /**
   * Once its future is cancelled, a binding context never leaves its
   * state, whatever happens next: a packet or echo cannot resolve the
   * future, a timer or a second send cannot fail it, an await raises
   * CancelledError, and a new binding is refused.
   */
  lemma {:induction false} CancelledIsStuck(c: Ctx, es: seq<Event>)
    requires IsBinding(c.state) && c.fut == Cancelled
    ensures Run(c, es).state == c.state && Run(c, es).fut == Cancelled
    decreases |es|
  {
    if es != [] {
      var c1 := Apply(c, es[0]);
      assert c1.state == c.state && c1.fut == Cancelled;
      CancelledIsStuck(c1, es[1..]);
    }
  }

  /**
   * The respondent's chain: waiting for an offer, an offer arrives and is
   * taken; the accept is sent and a confirm arrives and is taken: bound,
   * and dormant again. Each await gives back the packet it waited for.
   */
  lemma RespondentBinds(offer: Frame, accept: Frame, confirm: Frame)
    requires IsPhase(offer, Tender) && IsPhase(accept, Accept) && IsPhase(confirm, Affirm)
    ensures var c1 := Apply(Initial, Start(true));
      var c2 := Apply(c1, Rcvd(offer));
      var c3 := Apply(c2, Call(WaitForOffer, false));
      var c4 := Apply(c3, Sent(accept));
      var c5 := Apply(c4, Rcvd(confirm));
      && OnApi(c2, WaitForOffer, false).1 == Got(offer)
      && c3.state == RespSendAcceptWaitForConfirm && RoleOf(c3.isRespondent) == Respondent
      && OnApi(c5, WaitForConfirm, false).1 == Got(confirm)
      && Apply(c5, Call(WaitForConfirm, false)).state == RespHasBoundAsRespondent
      && RoleOf(Apply(c5, Call(WaitForConfirm, false)).isRespondent) == IsDormant
  {
    PhasesAreExclusive(offer, Tender, Tender);
    PhasesAreExclusive(accept, Accept, Accept);
    PhasesAreExclusive(confirm, Affirm, Affirm);
  }

  /**
   * The supplicant's chain: the offer is sent and an accept arrives and
   * is taken; the confirm is sent and its echo arrives and is taken:
   * bound, and dormant again.
   */
  lemma SupplicantBinds(offer: Frame, accept: Frame, confirm: Frame)
    requires IsPhase(offer, Tender) && IsPhase(accept, Accept) && IsPhase(confirm, Affirm)
    ensures var c1 := Apply(Initial, Start(false));
      var c2 := Apply(c1, Sent(offer));
      var c3 := Apply(c2, Rcvd(accept));
      var c4 := Apply(c3, Call(WaitForAccept, false));
      var c5 := Apply(c4, Sent(confirm));
      var c6 := Apply(c5, Rcvd(confirm));
      && OnApi(c3, WaitForAccept, false).1 == Got(accept)
      && c4.state == SuppIsReadyToSendConfirm && RoleOf(c4.isRespondent) == Supplicant
      && OnApi(c6, ConfirmAccept, false).1 == Got(confirm)
      && Apply(c6, Call(ConfirmAccept, false)).state == SuppHasBoundAsSupplicant
      && RoleOf(Apply(c6, Call(ConfirmAccept, false)).isRespondent) == IsDormant
  {
    PhasesAreExclusive(offer, Tender, Tender);
    PhasesAreExclusive(accept, Accept, Accept);
    PhasesAreExclusive(confirm, Affirm, Affirm);
  }

  /**
   * The binding context of a faked device. It keeps `Inv` of its
   * snapshot; each operation's new state is the matching step above.
   */
  class Context {
    var state: StateKind
    var isRespondent: Option<bool>
    var cmdsSent: nat
    var cmd: Option<Frame>
    var fut: Fut

    function Snap(): Ctx
      reads this
    {
      Ctx(state, isRespondent, cmdsSent, cmd, fut)
    }

    predicate Valid()
      reads this
    {
      Inv(Snap())
    }

    /** `__init__`: not binding. */
    constructor ()
      ensures Snap() == Initial && Valid()
    {
      state := DevIsNotBinding;
      isRespondent := None;
      cmdsSent := 0;
      cmd := None;
      fut := Pending;
    }

    /** `role`. */
    function Role(): (r: Role)
      reads this
      requires Valid()
      ensures r == (if IsBinding(state) then AttrRole(state) else IsDormant)
    {
      RoleAgreesWithState(Snap());
      RoleOf(isRespondent)
    }

    /** `is_binding`. */
    function IsBindingNow(): (b: bool)
      reads this
      requires Valid()
      ensures b <==> isRespondent.Some?
    {
      IsBinding(state)
    }

    /** `set_state`. */
    method SetState(s: StateKind)
      modifies this
      ensures Snap() == Enter(old(Snap()), s)
    {
      state := s;
      if !IsBinding(state) {
        isRespondent := None;
      } else if state == RespIsWaitingForOffer {
        isRespondent := Some(true);
      } else if state == SuppSendOfferWaitForAccept {
        isRespondent := Some(false);
      }
      cmdsSent := 0;
      cmd := None;
      fut := Pending;
    }

    /** `wait_for_binding_request` and `initiate_binding_process`, up to their first await. */
    method Start(asRespondent: bool) returns (e: Option<BindError>)
      requires Valid()
      modifies this
      ensures Valid() && (Snap(), e) == OnStart(old(Snap()), asRespondent)
    {
      if IsBinding(state) {
        return Some(BindingFsmError);
      }
      SetState(if asRespondent then RespIsWaitingForOffer else SuppSendOfferWaitForAccept);
      e := None;
    }

    /** `_handle_wait_timer_expired`, and `_retries_exceeded`. */
    method FailBinding() returns (e: Option<BindError>)
      requires Valid()
      modifies this
      ensures Valid() && (Snap(), e) == Fail(old(Snap()))
    {
      if !fut.Pending? {
        return Some(InvalidStateError);
      }
      SetState(DevHasFailedBinding);
      e := None;
    }

    /** `rcvd_msg`. */
    method RcvdMsg(m: Frame) returns (e: Option<BindError>)
      requires Valid()
      modifies this
      ensures Valid() && (Snap(), e) == OnMsg(old(Snap()), m)
    {
      e := None;
      if m.code != Code1FC9 && m.code != Code10E0 {
        return;
      }
      var matches: bool;
      if WaitsForPkt(state) {
        matches := IsPhase(m, ExpectedPktPhase(state));
      } else if SendsCmd(state) {
        matches := cmd == Some(m);
      } else {
        return Some(NotImplementedError);
      }
      if matches {
        if !fut.Pending? {
          return Some(InvalidStateError);
        }
        fut := Resolved(m);
      }
    }

    /** `sent_cmd`. */
    method SentCmd(c: Frame) returns (e: Option<BindError>)
      requires Valid()
      modifies this
      ensures Valid() && (Snap(), e) == OnCmd(old(Snap()), c)
    {
      e := None;
      if c.code != Code1FC9 && c.code != Code10E0 {
        return;
      }
      if !SendsCmd(state) {
        return Some(NotImplementedError);
      }
      if !IsPhase(c, ExpectedCmdPhase(state)) {
        return;
      }
      if cmdsSent > 0 {
        e := FailBinding();
        return;
      }
      cmdsSent := cmdsSent + 1;
      if cmd.None? {
        cmd := Some(c);
      }
    }

    /** The wait timer of the current state fires. */
    method TimerFired() returns (e: Option<BindError>)
      requires Valid()
      modifies this
      ensures Valid() && (Snap(), e) == OnTimer(old(Snap()))
    {
      if WaitsForPkt(state) {
        e := FailBinding();
      } else {
        e := None;
      }
    }

    /** A state API, and whether its await timed out before a result. */
    method CallApi(a: Api, timedOut: bool) returns (o: Outcome)
      requires Valid()
      modifies this
      ensures Valid() && (Snap(), o) == OnApi(old(Snap()), a, timedOut)
    {
      if state != ApiState(a) {
        return Raised(BindingFsmError);
      }
      if !Awaits(a) {
        return Returned;
      }
      match fut
      case Resolved(m) =>
        SetState(NextState(state));
        o := Got(m);
      case Cancelled =>
        o := Raised(CancelledError);
      case Pending =>
        if timedOut {
          fut := Cancelled;
          o := Raised(InvalidStateError);
        } else {
          o := StillWaiting;
        }
    }
  }
}
