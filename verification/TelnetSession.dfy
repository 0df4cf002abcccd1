/** A Telnet session of cli_telnet.c with all its options, and two sessions joined by two channels. */
module TelnetSession {
  import opened TelnetPair

  const MAX_OPTIONS := 256

  datatype Verb = Will | Wont | Do | Dont

  datatype Cmd = Cmd(verb: Verb, option: nat)

  datatype SessOption = SessOption(localIsEnable: bool, peerIsEnable: bool, localState: OptState, peerState: OptState)

  type Options = seq<SessOption>

  function StateOf(o: SessOption, isLocal: bool): OptState {
    if isLocal then o.localState else o.peerState
  }

  function Allowed(o: SessOption, isLocal: bool): bool {
    if isLocal then o.localIsEnable else o.peerIsEnable
  }

  function WithState(o: SessOption, isLocal: bool, s: OptState): (r: SessOption)
    ensures StateOf(r, isLocal) == s && StateOf(r, !isLocal) == StateOf(o, !isLocal)
    ensures Allowed(r, true) == Allowed(o, true) && Allowed(r, false) == Allowed(o, false)
  {
    if isLocal then o.(localState := s) else o.(peerState := s)
  }

  /** The command that says so about an option of one's own, or of the other end. */
  function Command(isLocal: bool, enable: bool, option: nat): Cmd {
    Cmd(if isLocal then (if enable then Will else Wont) else if enable then Do else Dont, option)
  }

  function Commands(isLocal: bool, reply: Reply, option: nat): seq<Cmd> {
    if reply.Silent? then [] else [Command(isLocal, reply.enable, option)]
  }

  /** DO and DONT are about the receiver's own option, WILL and WONT about the sender's. */
  predicate AboutReceiver(c: Cmd) {
    c.verb == Do || c.verb == Dont
  }

  predicate Enables(c: Cmd) {
    c.verb == Do || c.verb == Will
  }

  // ------------------------------------------------------------------ one session

  /** The options after a request, or after a command; and what is sent. */
  function AskMove(options: Options, isLocal: bool, option: nat): Move
    requires option < |options|
  {
    SendEnable(StateOf(options[option], isLocal))
  }

  function TakeMove(options: Options, c: Cmd): Move
    requires c.option < |options|
  {
    var o := options[c.option];
    Receive(StateOf(o, AboutReceiver(c)), Enables(c), Allowed(o, AboutReceiver(c)))
  }

  function Moved(options: Options, isLocal: bool, option: nat, m: Move): (r: Options)
    requires option < |options|
    ensures |r| == |options|
  {
    options[option := WithState(options[option], isLocal, m.next)]
  }

  // ------------------------------------------------------------------ one session and any peer

  /** What can happen to a session: a request of its own, or a command from whatever peer. */
  datatype Act = Request(isLocal: bool, option: nat) | Received(c: Cmd)

  function OptionOf(a: Act): nat {
    if a.Request? then a.option else a.c.option
  }

  /** The options after one act, as SendEnableOption and OnCommand leave them. */
  function Acted(options: Options, a: Act): (r: Options)
    requires OptionOf(a) < |options|
    ensures |r| == |options|
  {
    if a.Request? then Moved(options, a.isLocal, a.option, AskMove(options, a.isLocal, a.option))
    else Moved(options, AboutReceiver(a.c), a.c.option, TakeMove(options, a.c))
  }

  function Played(options: Options, acts: seq<Act>): (r: Options)
    requires forall i :: 0 <= i < |acts| ==> OptionOf(acts[i]) < |options|
    ensures |r| == |options|
    decreases |acts|
  {
    if acts == [] then options else Played(Acted(options, acts[0]), acts[1..])
  }

  predicate AllKnown(options: Options) {
    forall i :: 0 <= i < |options| ==> Known(options[i].localState) && Known(options[i].peerState)
  }

  lemma ActKeepsKnown(options: Options, a: Act)
    requires AllKnown(options) && OptionOf(a) < |options|
    ensures AllKnown(Acted(options, a))
  {
    var o := options[OptionOf(a)];
    if a.Request? {
      KnownStays(StateOf(o, a.isLocal), true, true);
    } else {
      KnownStays(StateOf(o, AboutReceiver(a.c)), Enables(a.c), Allowed(o, AboutReceiver(a.c)));
    }
    hide SendEnable, Receive, Known;
  }

  /** Whatever a peer sends and whenever options are asked for, a session whose options are
      disabled, enabled or expected never has others. */
  lemma {:induction false} OnlyThreeStates(options: Options, acts: seq<Act>)
    requires AllKnown(options) && forall i :: 0 <= i < |acts| ==> OptionOf(acts[i]) < |options|
    ensures AllKnown(Played(options, acts))
    decreases |acts|
  {
    hide AllKnown, Acted;
    if acts != [] {
      ActKeepsKnown(options, acts[0]);
      OnlyThreeStates(Acted(options, acts[0]), acts[1..]);
    }
  }

  class Session {
    const telnetOption: array<SessOption>
    var output: seq<Cmd>

    constructor ()
      ensures telnetOption.Length == MAX_OPTIONS && fresh(telnetOption) && output == []
      ensures forall i :: 0 <= i < MAX_OPTIONS ==> telnetOption[i] == SessOption(false, false, Disable, Disable)
    {
      telnetOption := new SessOption[MAX_OPTIONS](_ => SessOption(false, false, Disable, Disable));
      output := [];
    }

    /** The state and the reply of one move, for one direction of one option. */
    method Make(isLocal: bool, option: nat, m: Move)
      requires option < telnetOption.Length
      modifies telnetOption, `output
      ensures telnetOption[..] == Moved(old(telnetOption[..]), isLocal, option, m)
      ensures output == old(output) + Commands(isLocal, m.reply, option)
    {
      telnetOption[option] := WithState(telnetOption[option], isLocal, m.next);
      if m.reply.Says? {
        output := output + [Command(isLocal, m.reply.enable, option)];
      }
    }

    /** send_enable_option */
    method SendEnableOption(isLocal: bool, option: nat)
      requires option < telnetOption.Length
      modifies telnetOption, `output
      ensures var m := AskMove(old(telnetOption[..]), isLocal, option);
              && telnetOption[..] == Moved(old(telnetOption[..]), isLocal, option, m)
              && output == old(output) + Commands(isLocal, m.reply, option)
    {
      hide Moved;
      match StateOf(telnetOption[option], isLocal) {
        case Enable =>
          Make(isLocal, option, Move(Enable, Silent));
        case Disable =>
          Make(isLocal, option, Move(ExpectEnable, Says(true)));
        case ExpectEnable =>
          Make(isLocal, option, Move(Disable, Silent));
        case ExpectDisable =>
          Make(isLocal, option, Move(ExpectDisableRev, Silent));
        case ExpectEnableRev =>
          Make(isLocal, option, Move(ExpectEnable, Silent));
        case ExpectDisableRev =>
          Make(isLocal, option, Move(Disable, Silent));
      }
    }

    /** receive_enable_option */
    method ReceiveEnableOption(isLocal: bool, option: nat)
      requires option < telnetOption.Length
      modifies telnetOption, `output
      ensures var o := old(telnetOption[option]);
              var m := ReceiveEnable(StateOf(o, isLocal), Allowed(o, isLocal));
              && telnetOption[..] == Moved(old(telnetOption[..]), isLocal, option, m)
              && output == old(output) + Commands(isLocal, m.reply, option)
    {
      hide Moved;
      var optEna := Allowed(telnetOption[option], isLocal);
      match StateOf(telnetOption[option], isLocal) {
        case Enable =>
          Make(isLocal, option, Move(Enable, Silent));
        case Disable =>
          if optEna {
            Make(isLocal, option, Move(Enable, Says(true)));
          } else {
            Make(isLocal, option, Move(Disable, Says(false)));
          }
        case ExpectEnable =>
          Make(isLocal, option, Move(Enable, Silent));
        case ExpectDisable =>
          Make(isLocal, option, Move(Disable, Silent));
        case ExpectEnableRev =>
          Make(isLocal, option, Move(ExpectDisable, Says(false)));
        case ExpectDisableRev =>
          Make(isLocal, option, Move(ExpectDisable, Silent));
      }
    }

    /** receive_disable_option */
    method ReceiveDisableOption(isLocal: bool, option: nat)
      requires option < telnetOption.Length
      modifies telnetOption, `output
      ensures var m := ReceiveDisable(StateOf(old(telnetOption[option]), isLocal));
              && telnetOption[..] == Moved(old(telnetOption[..]), isLocal, option, m)
              && output == old(output) + Commands(isLocal, m.reply, option)
    {
      hide Moved;
      match StateOf(telnetOption[option], isLocal) {
        case Enable =>
          Make(isLocal, option, Move(Disable, Says(false)));
        case Disable =>
          Make(isLocal, option, Move(Disable, Silent));
        case ExpectEnable =>
          Make(isLocal, option, Move(Disable, Silent));
        case ExpectDisable =>
          Make(isLocal, option, Move(Disable, Silent));
        case ExpectEnableRev =>
          Make(isLocal, option, Move(Disable, Says(false)));
        case ExpectDisableRev =>
          Make(isLocal, option, Move(ExpectEnable, Says(true)));
      }
    }

    /** The four handlers of received commands. */
    method OnCommand(c: Cmd)
      requires c.option < telnetOption.Length
      modifies telnetOption, `output
      ensures var m := TakeMove(old(telnetOption[..]), c);
              && telnetOption[..] == Moved(old(telnetOption[..]), AboutReceiver(c), c.option, m)
              && output == old(output) + Commands(AboutReceiver(c), m.reply, c.option)
    {
      hide Moved, ReceiveEnable, ReceiveDisable;
      match c.verb {
        case Do => ReceiveEnableOption(true, c.option);
        case Dont => ReceiveDisableOption(true, c.option);
        case Will => ReceiveEnableOption(false, c.option);
        case Wont => ReceiveDisableOption(false, c.option);
      }
    }

    method SetLocalOption(option: nat, enable: bool)
      requires option < telnetOption.Length
      modifies telnetOption
      ensures telnetOption[..] == old(telnetOption[..])[option := old(telnetOption[option]).(localIsEnable := enable)]
    {
      telnetOption[option] := telnetOption[option].(localIsEnable := enable);
    }

    method SetPeerOption(option: nat, enable: bool)
      requires option < telnetOption.Length
      modifies telnetOption
      ensures telnetOption[..] == old(telnetOption[..])[option := old(telnetOption[option]).(peerIsEnable := enable)]
    {
      telnetOption[option] := telnetOption[option].(peerIsEnable := enable);
    }

    method AllowLocal()
      requires telnetOption.Length == MAX_OPTIONS
      modifies telnetOption
      ensures forall i {:trigger telnetOption[i]} :: 0 <= i < MAX_OPTIONS ==>
                telnetOption[i] == old(telnetOption[i]).(localIsEnable := i in LOCAL || old(telnetOption[i]).localIsEnable)
    {
      SetLocalOption(TRANSMIT_BINARY, true);
      SetLocalOption(STATUS, true);
      SetLocalOption(SUPPRESS_GA, true);
      SetLocalOption(TIMING_MARK, true);
      SetLocalOption(TERM_SPEED, true);
      SetLocalOption(TERM_TYPE, true);
    }

    method AllowPeer()
      requires telnetOption.Length == MAX_OPTIONS
      modifies telnetOption
      ensures forall i {:trigger telnetOption[i]} :: 0 <= i < MAX_OPTIONS ==>
                telnetOption[i] == old(telnetOption[i]).(peerIsEnable := i in PEER || old(telnetOption[i]).peerIsEnable)
    {
      SetPeerOption(TRANSMIT_BINARY, true);
      SetPeerOption(SUPPRESS_GA, true);
      SetPeerOption(STATUS, true);
      SetPeerOption(TIMING_MARK, true);
      SetPeerOption(TERM_ECHO, true);
    }

    /** The options and requests of telnet_fe_on_accept for a new session. */
    method OnAccept()
      requires telnetOption.Length == MAX_OPTIONS && output == []
      requires forall i :: 0 <= i < MAX_OPTIONS ==> telnetOption[i] == SessOption(false, false, Disable, Disable)
      modifies telnetOption, `output
      ensures output == [Cmd(Do, SUPPRESS_GA), Cmd(Will, TERM_ECHO), Cmd(Will, STATUS), Cmd(Will, SUPPRESS_GA)]
      ensures forall i {:trigger telnetOption[i]} :: 0 <= i < MAX_OPTIONS ==> telnetOption[i] == Accepted(i)
    {
      AllowLocal();
      AllowPeer();
      SendEnableOption(false, SUPPRESS_GA);
      SendEnableOption(true, TERM_ECHO);
      SendEnableOption(true, STATUS);
      SendEnableOption(true, SUPPRESS_GA);
    }
  }

  const TRANSMIT_BINARY := 0
  const TERM_ECHO := 1
  const SUPPRESS_GA := 3
  const STATUS := 5
  const TIMING_MARK := 6
  const TERM_TYPE := 24
  const TERM_SPEED := 32

  const LOCAL: set<nat> := {TRANSMIT_BINARY, STATUS, SUPPRESS_GA, TIMING_MARK, TERM_SPEED, TERM_TYPE}
  const PEER: set<nat> := {TRANSMIT_BINARY, SUPPRESS_GA, STATUS, TIMING_MARK, TERM_ECHO}

  /** An option of a session that was just accepted. */
  function Accepted(i: nat): SessOption {
    SessOption(i in LOCAL, i in PEER,
               if i in {TERM_ECHO, STATUS, SUPPRESS_GA} then ExpectEnable else Disable,
               if i == SUPPRESS_GA then ExpectEnable else Disable)
  }
}
