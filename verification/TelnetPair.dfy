/** Negotiation of one Telnet option in one direction, as cli_telnet.c does it at both ends (compare RFC 1143). */
module TelnetPair {
  datatype OptState = Disable | Enable | ExpectDisable | ExpectEnable | ExpectDisableRev | ExpectEnableRev

  /** What a side answers: nothing, or one command that enables or disables. */
  datatype Reply = Silent | Says(enable: bool)

  datatype Move = Move(next: OptState, reply: Reply)

  /** send_enable_option */
  function SendEnable(s: OptState): Move {
    match s
    case Enable => Move(Enable, Silent)
    case Disable => Move(ExpectEnable, Says(true))
    case ExpectEnable => Move(Disable, Silent)
    case ExpectDisable => Move(ExpectDisableRev, Silent)
    case ExpectEnableRev => Move(ExpectEnable, Silent)
    case ExpectDisableRev => Move(Disable, Silent)
  }

  /** receive_enable_option, for a side whose configuration allows the option or not. */
  function ReceiveEnable(s: OptState, allowed: bool): Move {
    match s
    case Enable => Move(Enable, Silent)
    case Disable => if allowed then Move(Enable, Says(true)) else Move(Disable, Says(false))
    case ExpectEnable => Move(Enable, Silent)
    case ExpectDisable => Move(Disable, Silent)
    case ExpectEnableRev => Move(ExpectDisable, Says(false))
    case ExpectDisableRev => Move(ExpectDisable, Silent)
  }

  /** receive_disable_option */
  function ReceiveDisable(s: OptState): Move {
    match s
    case Enable => Move(Disable, Says(false))
    case Disable => Move(Disable, Silent)
    case ExpectEnable => Move(Disable, Silent)
    case ExpectDisable => Move(Disable, Silent)
    case ExpectEnableRev => Move(Disable, Says(false))
    case ExpectDisableRev => Move(ExpectEnable, Says(true))
  }

  function Receive(s: OptState, enable: bool, allowed: bool): Move {
    if enable then ReceiveEnable(s, allowed) else ReceiveDisable(s)
  }

  predicate Known(s: OptState) {
    s == Disable || s == Enable || s == ExpectEnable
  }

  /** Nothing a side does or receives leads out of these three states. */
  lemma KnownStays(s: OptState, enable: bool, allowed: bool)
    requires Known(s)
    ensures Known(SendEnable(s).next) && Known(Receive(s, enable, allowed).next)
  {
  }

  // ------------------------------------------------------------------ two ends

  /** Both ends and the commands under way, with counts of what was asked for and sent. */
  datatype Pair = Pair(left: OptState, right: OptState, toRight: seq<bool>, toLeft: seq<bool>,
                       leftAsked: nat, rightAsked: nat, sent: nat)

  function Start(): Pair {
    Pair(Disable, Disable, [], [], 0, 0, 0)
  }

  function Flip(p: Pair): Pair {
    Pair(p.right, p.left, p.toLeft, p.toRight, p.rightAsked, p.leftAsked, p.sent)
  }

  function Sent(q: seq<bool>, r: Reply): seq<bool> {
    if r.Silent? then q else q + [r.enable]
  }

  function Count(r: Reply): nat {
    if r.Silent? then 0 else 1
  }

  /** The left end asks for the option. */
  function Ask(p: Pair): Pair {
    var m := SendEnable(p.left);
    Pair(m.next, p.right, Sent(p.toRight, m.reply), p.toLeft, p.leftAsked + 1, p.rightAsked, p.sent + Count(m.reply))
  }

  /** The left end takes the next command. */
  function Take(p: Pair, allowed: bool): Pair
    requires p.toLeft != []
  {
    var m := Receive(p.left, p.toLeft[0], allowed);
    Pair(m.next, p.right, Sent(p.toRight, m.reply), p.toLeft[1..], p.leftAsked, p.rightAsked, p.sent + Count(m.reply))
  }

  // ------------------------------------------------------------------ agreement

  /** An end that has the option enabled or expects it last said "enable"; once the other end has heard that and does
      not have the option enabled, it has said "disable". */
  predicate Half(p: Pair) {
    p.left == Enable || p.left == ExpectEnable ==>
      && (p.toRight != [] ==> p.toRight[|p.toRight| - 1])
      && (p.toRight == [] && p.right != Enable ==> false in p.toLeft)
  }

  predicate Inv(p: Pair) {
    Known(p.left) && Known(p.right) && Half(p) && Half(Flip(p))
  }

  lemma AskKeepsInv(p: Pair)
    requires Inv(p)
    ensures Inv(Ask(p))
  {
  }

  lemma TakeKeepsInv(p: Pair, allowed: bool)
    requires Inv(p) && p.toLeft != []
    ensures Inv(Take(p, allowed))
  {
    assert p.toLeft == [p.toLeft[0]] + p.toLeft[1..];
    assert false in p.toLeft <==> !p.toLeft[0] || false in p.toLeft[1..];
  }

  /** When no command is under way, both ends agree. */
  lemma QuietPairAgrees(p: Pair)
    requires Inv(p) && p.toLeft == p.toRight == []
    ensures p.left == p.right && (p.left == Enable || p.left == Disable)
  {
  }

  // ------------------------------------------------------------------ how many commands

  /** A request is under way to an end that will answer it. */
  predicate Pending(p: Pair) {
    p.left == ExpectEnable &&
    ((p.right == Disable && p.toRight == [true]) || (p.right == ExpectEnable && p.toRight == []))
  }

  /** The situations of two ends that ask at most once, up to exchanging the ends. */
  predicate Situation(p: Pair) {
    || (p.left == p.right == Disable && p.toRight == p.toLeft == [])
    || (p.left == p.right == Enable && p.toRight == p.toLeft == [])
    || (p.left == ExpectEnable && p.right == Disable && p.toRight == [true] && p.toLeft == [])
    || (p.left == ExpectEnable && p.right == Disable && p.toRight == [] && p.toLeft == [false])
    || (p.left == ExpectEnable && p.right == Enable && p.toRight == [] && p.toLeft == [true])
    || (p.left == ExpectEnable && p.right == ExpectEnable && p.toRight == [true] && p.toLeft == [true])
    || (p.left == ExpectEnable && p.right == ExpectEnable && p.toRight == [] && p.toLeft == [false, true])
  }

  /** With at most one request from each end, no more than four commands are ever sent. */
  predicate Bounded(p: Pair) {
    p.leftAsked <= 1 && p.rightAsked <= 1 ==>
      && (p.left == ExpectEnable ==> p.leftAsked == 1)
      && (p.right == ExpectEnable ==> p.rightAsked == 1)
      && (Situation(p) || Situation(Flip(p)))
      && p.sent + (if Pending(p) || Pending(Flip(p)) then 1 else 0) <= 2 * p.leftAsked + 2 * p.rightAsked
  }

  lemma AskKeepsBounded(p: Pair)
    requires Bounded(p)
    ensures Bounded(Ask(p))
  {
  }

  lemma TakeKeepsBounded(p: Pair, allowed: bool)
    requires Bounded(p) && p.toLeft != []
    ensures Bounded(Take(p, allowed))
  {
  }

  // ------------------------------------------------------------------ what a request leads to

  /** Only the left end asks, once at most, and the right end allows the option or not: the request goes
      through to both ends or comes back refused. */
  predicate Granting(p: Pair, allowed: bool) {
    p.rightAsked == 0 && p.leftAsked <= 1 ==>
      if p.leftAsked == 0 then p.left == p.right == Disable && p.toRight == p.toLeft == []
      else
        || (p.left == ExpectEnable && p.right == Disable && p.toRight == [true] && p.toLeft == [])
        || (allowed && p.left == ExpectEnable && p.right == Enable && p.toRight == [] && p.toLeft == [true])
        || (allowed && p.left == p.right == Enable && p.toRight == p.toLeft == [])
        || (!allowed && p.left == ExpectEnable && p.right == Disable && p.toRight == [] && p.toLeft == [false])
        || (!allowed && p.left == p.right == Disable && p.toRight == p.toLeft == [])
  }

  lemma AskKeepsGranting(p: Pair, allowed: bool)
    requires Granting(p, allowed)
    ensures Granting(Ask(p), allowed) && Granting(Flip(Ask(Flip(p))), allowed)
  {
  }

  lemma TakeKeepsGranting(p: Pair, allowed: bool, leftAllows: bool)
    requires Granting(p, allowed)
    ensures p.toLeft != [] ==> Granting(Take(p, leftAllows), allowed)
    ensures p.toRight != [] ==> Granting(Flip(Take(Flip(p), allowed)), allowed)
  {
  }

  lemma FlipKeepsAll(p: Pair)
    ensures Flip(Flip(p)) == p
    ensures Inv(p) ==> Inv(Flip(p))
    ensures Bounded(p) ==> Bounded(Flip(p))
  {
  }
}
