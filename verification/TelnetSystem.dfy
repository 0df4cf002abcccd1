/** Two Telnet sessions that run the code of cli_telnet.c, joined by two first-in first-out channels. */
module TelnetSystem {
  import opened TelnetPair
  import opened TelnetSession

  /** One end: its options, the directions of options it has asked for, and every command it has sent. */
  datatype End = End(options: Options, asked: seq<(bool, nat)>, sent: seq<Cmd>)

  datatype System = System(a: End, b: End, toB: seq<Cmd>, toA: seq<Cmd>)

  predicate WellFormed(s: System) {
    && |s.a.options| == |s.b.options| == MAX_OPTIONS
    && (forall c <- s.toA :: c.option < MAX_OPTIONS) && (forall c <- s.toB :: c.option < MAX_OPTIONS)
  }

  function Swap(s: System): System {
    System(s.b, s.a, s.toA, s.toB)
  }

  // ------------------------------------------------------------------ steps of the first end

  function AskA(s: System, isLocal: bool, option: nat): System
    requires WellFormed(s) && option < MAX_OPTIONS
  {
    var m := AskMove(s.a.options, isLocal, option);
    var cmds := Commands(isLocal, m.reply, option);
    System(End(Moved(s.a.options, isLocal, option, m), s.a.asked + [(isLocal, option)], s.a.sent + cmds),
           s.b, s.toB + cmds, s.toA)
  }

  function TakeA(s: System): System
    requires WellFormed(s) && s.toA != []
  {
    var c := s.toA[0];
    var m := TakeMove(s.a.options, c);
    var cmds := Commands(AboutReceiver(c), m.reply, c.option);
    System(End(Moved(s.a.options, AboutReceiver(c), c.option, m), s.a.asked, s.a.sent + cmds),
           s.b, s.toB + cmds, s.toA[1..])
  }

  /** What can happen at either end. */
  datatype Happening = Asking(atA: bool, isLocal: bool, option: nat) | Taking(atA: bool)

  function Next(s: System, e: Happening): System
    requires WellFormed(s)
  {
    var t := if e.atA then s else Swap(s);
    var u := if e.Taking? then (if t.toA == [] then t else TakeA(t))
             else if e.option < MAX_OPTIONS then AskA(t, e.isLocal, e.option) else t;
    if e.atA then u else Swap(u)
  }

  // ------------------------------------------------------------------ one direction of one option

  /** What some commands say about the sender's own side of an option, or about the receiver's. */
  function About(cmds: seq<Cmd>, local: bool, option: nat): seq<bool> {
    if cmds == [] then []
    else
      var c := cmds[|cmds| - 1];
      About(cmds[..|cmds| - 1], local, option) +
      if c.option == option && AboutReceiver(c) != local then [Enables(c)] else []
  }

  function Times(asked: seq<(bool, nat)>, local: bool, option: nat): nat {
    if asked == [] then 0
    else
      Times(asked[..|asked| - 1], local, option) + if asked[|asked| - 1] == (local, option) then 1 else 0
  }

  /** The negotiation of an option that is local to the first end, or to the second. */
  function Project(s: System, local: bool, option: nat): Pair
    requires WellFormed(s) && option < MAX_OPTIONS
  {
    Pair(StateOf(s.a.options[option], local), StateOf(s.b.options[option], !local),
         About(s.toB, local, option), About(s.toA, !local, option),
         Times(s.a.asked, local, option), Times(s.b.asked, !local, option),
         |About(s.a.sent, local, option)| + |About(s.b.sent, !local, option)|)
  }

  lemma {:induction false} AboutAppends(a: seq<Cmd>, b: seq<Cmd>, local: bool, option: nat)
    ensures About(a + b, local, option) == About(a, local, option) + About(b, local, option)
    decreases |b|
  {
    if b == [] {
      assert a + b == a;
    } else {
      var n := |b| - 1;
      assert (a + b)[..|a + b| - 1] == a + b[..n];
      AboutAppends(a, b[..n], local, option);
    }
  }

  /** The answer to a move, seen from each direction of each option. */
  lemma AboutCommands(isLocal: bool, reply: Reply, option: nat, local: bool, o: nat)
    ensures About(Commands(isLocal, reply, option), local, o) ==
            if isLocal == local && option == o then Sent([], reply) else []
  {
    if reply.Says? {
      assert [Command(isLocal, reply.enable, option)][..0] == [];
    }
  }

  lemma SentAfter(q: seq<bool>, r: Reply)
    ensures q + Sent([], r) == Sent(q, r) && |Sent([], r)| == Count(r) && q + [] == q
  {
  }

  /** Commands put into a channel. */
  lemma ChannelGrows(q: seq<Cmd>, isLocal: bool, reply: Reply, option: nat, local: bool, o: nat)
    ensures About(q + Commands(isLocal, reply, option), local, o) ==
            if isLocal == local && option == o then Sent(About(q, local, o), reply) else About(q, local, o)
    ensures |About(q + Commands(isLocal, reply, option), local, o)| ==
            |About(q, local, o)| + if isLocal == local && option == o then Count(reply) else 0
  {
    hide About, Commands;
    AboutAppends(q, Commands(isLocal, reply, option), local, o);
    AboutCommands(isLocal, reply, option, local, o);
    SentAfter(About(q, local, o), reply);
  }

  lemma TimesGrows(asked: seq<(bool, nat)>, isLocal: bool, option: nat, local: bool, o: nat)
    ensures Times(asked + [(isLocal, option)], local, o) ==
            Times(asked, local, o) + if isLocal == local && option == o then 1 else 0
  {
    assert (asked + [(isLocal, option)])[..|asked|] == asked;
  }

  lemma MovedState(options: Options, isLocal: bool, option: nat, m: Move, local: bool, o: nat)
    requires option < |options| && o < |options|
    ensures StateOf(Moved(options, isLocal, option, m)[o], local) ==
            if isLocal == local && option == o then m.next else StateOf(options[o], local)
    ensures Allowed(Moved(options, isLocal, option, m)[o], local) == Allowed(options[o], local)
  {
  }

  /** A request is one step of its own negotiation and none of the others. */
  lemma AskProjects(s: System, isLocal: bool, option: nat, local: bool, o: nat)
    requires WellFormed(s) && option < MAX_OPTIONS && o < MAX_OPTIONS
    ensures WellFormed(AskA(s, isLocal, option))
    ensures Project(AskA(s, isLocal, option), local, o) ==
            if isLocal == local && option == o then Ask(Project(s, local, o)) else Project(s, local, o)
  {
    hide About, Commands, Times, Moved, SendEnable;
    var m := AskMove(s.a.options, isLocal, option);
    CommandsInRange(isLocal, m.reply, option);
    ChannelGrows(s.toB, isLocal, m.reply, option, local, o);
    ChannelGrows(s.a.sent, isLocal, m.reply, option, local, o);
    TimesGrows(s.a.asked, isLocal, option, local, o);
    MovedState(s.a.options, isLocal, option, m, local, o);
  }

  lemma CommandsInRange(isLocal: bool, reply: Reply, option: nat)
    requires option < MAX_OPTIONS
    ensures forall c <- Commands(isLocal, reply, option) :: c.option < MAX_OPTIONS
  {
  }

  /** The first command of a channel, seen from one direction of one option. */
  lemma FirstCommand(q: seq<Cmd>, local: bool, o: nat)
    requires q != []
    ensures About(q, local, o) ==
            if q[0].option == o && AboutReceiver(q[0]) != local then [Enables(q[0])] + About(q[1..], local, o)
            else About(q[1..], local, o)
  {
    assert q == [q[0]] + q[1..];
    assert [q[0]][..0] == [];
    AboutAppends([q[0]], q[1..], local, o);
  }

  /** Taking a command is one step of the negotiation it is about and none of the others. */
  lemma TakeProjects(s: System, local: bool, o: nat)
    requires WellFormed(s) && s.toA != [] && o < MAX_OPTIONS
    ensures WellFormed(TakeA(s))
    ensures var p, c := Project(s, local, o), s.toA[0];
            if AboutReceiver(c) == local && c.option == o
            then p.toLeft != [] && Project(TakeA(s), local, o) == Take(p, Allowed(s.a.options[o], local))
            else Project(TakeA(s), local, o) == p
  {
    hide About, Commands, Times, Moved, Receive;
    var c := s.toA[0];
    var m := TakeMove(s.a.options, c);
    CommandsInRange(AboutReceiver(c), m.reply, c.option);
    FirstCommand(s.toA, !local, o);
    ChannelGrows(s.toB, AboutReceiver(c), m.reply, c.option, local, o);
    ChannelGrows(s.a.sent, AboutReceiver(c), m.reply, c.option, local, o);
    MovedState(s.a.options, AboutReceiver(c), c.option, m, local, o);
  }

  lemma SwapProjects(s: System, local: bool, o: nat)
    requires WellFormed(s) && o < MAX_OPTIONS
    ensures WellFormed(Swap(s)) && Swap(Swap(s)) == s
    ensures Project(Swap(s), !local, o) == Flip(Project(s, local, o))
  {
  }

  // ------------------------------------------------------------------ runs

  /** All negotiations of both ends are in order. */
  ghost predicate Sound(s: System) {
    && WellFormed(s)
    && forall local: bool, o: nat {:trigger Project(s, local, o)} :: o < MAX_OPTIONS ==>
         Inv(Project(s, local, o)) && Bounded(Project(s, local, o))
  }

  lemma StepOfA(s: System, e: Happening)
    requires Sound(s) && e.atA
    ensures Sound(Next(s, e))
  {
    hide Project, AskA, TakeA, Inv, Bounded;
    var t := Next(s, e);
    if e.Taking? && s.toA != [] {
      TakeProjects(s, true, 0);
    } else if e.Asking? && e.option < MAX_OPTIONS {
      AskProjects(s, e.isLocal, e.option, true, 0);
    }
    forall local: bool, o: nat | o < MAX_OPTIONS
      ensures Inv(Project(t, local, o)) && Bounded(Project(t, local, o))
    {
      var p := Project(s, local, o);
      if e.Taking? {
        if s.toA != [] {
          TakeProjects(s, local, o);
          if p.toLeft != [] {
            TakeKeepsInv(p, Allowed(s.a.options[o], local));
            TakeKeepsBounded(p, Allowed(s.a.options[o], local));
          }
        }
      } else if e.option < MAX_OPTIONS {
        AskProjects(s, e.isLocal, e.option, local, o);
        AskKeepsInv(p);
        AskKeepsBounded(p);
      }
    }
  }

  lemma SwapKeepsSound(s: System)
    requires Sound(s)
    ensures Sound(Swap(s))
  {
    hide Project, Inv, Bounded;
    SwapProjects(s, true, 0);
    forall local: bool, o: nat | o < MAX_OPTIONS
      ensures Inv(Project(Swap(s), local, o)) && Bounded(Project(Swap(s), local, o))
    {
      SwapProjects(s, !local, o);
      FlipKeepsAll(Project(s, !local, o));
    }
  }

  lemma NextKeepsSound(s: System, e: Happening)
    requires Sound(s)
    ensures Sound(Next(s, e))
  {
    hide Sound, AskA, TakeA;
    if e.atA {
      StepOfA(s, e);
    } else {
      SwapKeepsSound(s);
      WellFormedSound(Swap(s));
      var f := if e.Taking? then Taking(true) else Asking(true, e.isLocal, e.option);
      StepOfA(Swap(s), f);
      SwapKeepsSound(Next(Swap(s), f));
    }
  }

  lemma SoundAt(s: System, local: bool, o: nat)
    requires Sound(s) && o < MAX_OPTIONS
    ensures WellFormed(s) && Inv(Project(s, local, o)) && Bounded(Project(s, local, o))
  {
  }

  lemma WellFormedSound(s: System)
    requires Sound(s)
    ensures WellFormed(s)
  {
  }

  /** Two new sessions with any configuration. */
  predicate Fresh(s: System) {
    && WellFormed(s) && s.toA == s.toB == s.a.sent == s.b.sent == [] && s.a.asked == s.b.asked == []
    && forall o :: 0 <= o < MAX_OPTIONS ==>
         s.a.options[o].localState == s.a.options[o].peerState == s.b.options[o].localState == s.b.options[o].peerState == Disable
  }

  lemma FreshIsSound(s: System)
    requires Fresh(s)
    ensures Sound(s)
  {
    forall local: bool, o: nat | o < MAX_OPTIONS
      ensures Inv(Project(s, local, o)) && Bounded(Project(s, local, o))
    {
      assert Project(s, local, o) == Start();
    }
  }

  lemma NextWellFormed(s: System, e: Happening)
    requires WellFormed(s)
    ensures WellFormed(Next(s, e))
  {
    hide Moved, Commands, SendEnable, Receive;
    var t := if e.atA then s else Swap(s);
    if e.Taking? && t.toA != [] {
      TakeProjects(t, true, 0);
    } else if e.Asking? && e.option < MAX_OPTIONS {
      AskProjects(t, e.isLocal, e.option, true, 0);
    }
  }

  /** The system after some events, in any interleaving. */
  function After(s: System, events: seq<Happening>): (t: System)
    requires WellFormed(s)
    ensures WellFormed(t)
  {
    if events == [] then s
    else
      var u := After(s, events[..|events| - 1]);
      NextWellFormed(u, events[|events| - 1]);
      Next(u, events[|events| - 1])
  }

  lemma {:induction false} RunsAreSound(s: System, events: seq<Happening>)
    requires WellFormed(s) && Fresh(s)
    ensures Sound(After(s, events))
    decreases |events|
  {
    hide Sound, Next, Fresh;
    if events == [] {
      FreshIsSound(s);
    } else {
      RunsAreSound(s, events[..|events| - 1]);
      NextKeepsSound(After(s, events[..|events| - 1]), events[|events| - 1]);
    }
  }

  /** Main result, safety: at the end of any run with no command under way, both ends agree on every option in both
      directions, and no option is left waiting. */
  lemma QuietSystemsAgree(s: System, events: seq<Happening>, o: nat)
    requires WellFormed(s) && Fresh(s) && o < MAX_OPTIONS
    ensures var t := After(s, events);
            t.toA == t.toB == [] ==>
              var x, y := t.a.options[o], t.b.options[o];
              && x.localState == y.peerState && x.peerState == y.localState
              && (x.localState == Enable || x.localState == Disable) && (x.peerState == Enable || x.peerState == Disable)
  {
    hide Fresh, After, Sound;
    RunsAreSound(s, events);
    var t := After(s, events);
    SoundAt(t, true, o);
    SoundAt(t, false, o);
    if t.toA == t.toB == [] {
      QuietPairAgrees(Project(t, true, o));
      QuietPairAgrees(Project(t, false, o));
    }
  }

  /** Main result, bound: if each end asks at most once for each direction of an option, at most four commands are
      ever sent about it. */
  lemma FewCommands(s: System, events: seq<Happening>, local: bool, o: nat)
    requires WellFormed(s) && Fresh(s) && o < MAX_OPTIONS
    ensures var t := After(s, events);
            Times(t.a.asked, local, o) <= 1 && Times(t.b.asked, !local, o) <= 1 ==>
              |About(t.a.sent, local, o)| + |About(t.b.sent, !local, o)| <= 4
  {
    hide Fresh, After, Sound, About, Times;
    RunsAreSound(s, events);
    SoundAt(After(s, events), local, o);
  }

  /** In every run the states are only "disabled", "enabled" and "enable expected". */
  lemma ThreeStates(s: System, events: seq<Happening>, local: bool, o: nat)
    requires WellFormed(s) && Fresh(s) && o < MAX_OPTIONS
    ensures Known(StateOf(After(s, events).a.options[o], local)) && Known(StateOf(After(s, events).b.options[o], !local))
  {
    hide Fresh, After, Sound, About, Times;
    RunsAreSound(s, events);
    SoundAt(After(s, events), local, o);
  }

  // ------------------------------------------------------------------ what a request leads to

  /** The first end's requests about this direction of the option are being granted or refused as the second
      end's configuration says. */
  ghost predicate Deciding(s: System, local: bool, o: nat, allowed: bool) {
    WellFormed(s) && o < MAX_OPTIONS && Allowed(s.b.options[o], !local) == allowed && Granting(Project(s, local, o), allowed)
  }

  lemma DecideAtA(s: System, e: Happening, local: bool, o: nat, allowed: bool)
    requires Deciding(s, local, o, allowed) && e.atA
    ensures Deciding(Next(s, e), local, o, allowed)
  {
    hide Project, AskA, TakeA, Granting;
    if e.Taking? {
      if s.toA != [] {
        TakeProjects(s, local, o);
        TakeKeepsGranting(Project(s, local, o), allowed, Allowed(s.a.options[o], local));
        TakeLeavesB(s);
      }
    } else if e.option < MAX_OPTIONS {
      AskProjects(s, e.isLocal, e.option, local, o);
      AskKeepsGranting(Project(s, local, o), allowed);
      AskLeavesB(s, e.isLocal, e.option);
    }
  }

  lemma TakeLeavesB(s: System)
    requires WellFormed(s) && s.toA != []
    ensures TakeA(s).b == s.b
    ensures forall o, local {:trigger Allowed(TakeA(s).a.options[o], local)} :: 0 <= o < MAX_OPTIONS ==>
      |TakeA(s).a.options| == MAX_OPTIONS && Allowed(TakeA(s).a.options[o], local) == Allowed(s.a.options[o], local)
  {
    var c := s.toA[0];
    forall o, local | 0 <= o < MAX_OPTIONS
      ensures Allowed(TakeA(s).a.options[o], local) == Allowed(s.a.options[o], local)
    {
      MovedState(s.a.options, AboutReceiver(c), c.option, TakeMove(s.a.options, c), local, o);
    }
  }

  lemma AskLeavesB(s: System, isLocal: bool, option: nat)
    requires WellFormed(s) && option < MAX_OPTIONS
    ensures AskA(s, isLocal, option).b == s.b
    ensures forall o, local {:trigger Allowed(AskA(s, isLocal, option).a.options[o], local)} :: 0 <= o < MAX_OPTIONS ==>
      |AskA(s, isLocal, option).a.options| == MAX_OPTIONS
      && Allowed(AskA(s, isLocal, option).a.options[o], local) == Allowed(s.a.options[o], local)
  {
    forall o, local | 0 <= o < MAX_OPTIONS
      ensures Allowed(AskA(s, isLocal, option).a.options[o], local) == Allowed(s.a.options[o], local)
    {
      MovedState(s.a.options, isLocal, option, AskMove(s.a.options, isLocal, option), local, o);
    }
  }

  lemma DecideAtB(s: System, e: Happening, local: bool, o: nat, allowed: bool)
    requires Deciding(s, local, o, allowed) && !e.atA
    ensures Deciding(Next(s, e), local, o, allowed)
  {
    hide Project, AskA, TakeA, Granting, Flip, Ask, Take;
    var t := Swap(s);
    SwapProjects(s, local, o);
    FlipKeepsAll(Project(s, local, o));
    var p := Project(s, local, o);
    if e.Taking? {
      if t.toA != [] {
        TakeProjects(t, !local, o);
        TakeLeavesB(t);
        FlippedLeft(p);
        TakeKeepsGranting(p, allowed, true);
        SwapProjects(TakeA(t), !local, o);
      }
    } else if e.option < MAX_OPTIONS {
      AskProjects(t, e.isLocal, e.option, !local, o);
      AskLeavesB(t, e.isLocal, e.option);
      AskKeepsGranting(p, allowed);
      SwapProjects(AskA(t, e.isLocal, e.option), !local, o);
    }
  }

  lemma FlippedLeft(p: Pair)
    ensures Flip(p).toLeft == p.toRight
  {
  }

  lemma {:induction false} RunsDecide(s: System, events: seq<Happening>, local: bool, o: nat)
    requires WellFormed(s) && Fresh(s) && o < MAX_OPTIONS
    ensures Deciding(After(s, events), local, o, Allowed(s.b.options[o], !local))
    decreases |events|
  {
    hide Deciding, Next, Fresh;
    var allowed := Allowed(s.b.options[o], !local);
    if events == [] {
      FreshDecides(s, local, o);
    } else {
      var front, e := events[..|events| - 1], events[|events| - 1];
      RunsDecide(s, front, local, o);
      if e.atA {
        DecideAtA(After(s, front), e, local, o, allowed);
      } else {
        DecideAtB(After(s, front), e, local, o, allowed);
      }
    }
  }

  lemma FreshDecides(s: System, local: bool, o: nat)
    requires Fresh(s) && o < MAX_OPTIONS
    ensures Deciding(s, local, o, Allowed(s.b.options[o], !local))
  {
    assert Project(s, local, o) == Start();
  }

  /** Main result, progress: if only the first end asks for a direction of an option, and once, then when no
      command is under way both ends have it enabled if the second end's configuration allows it, and
      disabled otherwise. */
  lemma RequestIsDecided(s: System, events: seq<Happening>, local: bool, o: nat)
    requires WellFormed(s) && Fresh(s) && o < MAX_OPTIONS
    ensures var t := After(s, events);
            t.toA == t.toB == [] && Times(t.a.asked, local, o) == 1 && Times(t.b.asked, !local, o) == 0 ==>
              StateOf(t.a.options[o], local) == StateOf(t.b.options[o], !local)
              == if Allowed(s.b.options[o], !local) then Enable else Disable
  {
    hide Fresh, After;
    RunsDecide(s, events, local, o);
  }

  /** What a session answers: to requests for something it has not, what its configuration says; to the end of
      something it has, that it ends; and nothing to what it knows already. */
  lemma AnswersAre(o: SessOption, option: nat)
    ensures var on, off := o.(localState := Enable, peerState := Enable), o.(localState := Disable, peerState := Disable);
      && Answer(off, Cmd(Do, option)) == [Cmd(if o.localIsEnable then Will else Wont, option)]
      && Answer(off, Cmd(Will, option)) == [Cmd(if o.peerIsEnable then Do else Dont, option)]
      && Answer(on, Cmd(Dont, option)) == [Cmd(Wont, option)] && Answer(on, Cmd(Wont, option)) == [Cmd(Dont, option)]
      && Answer(on, Cmd(Do, option)) == Answer(on, Cmd(Will, option)) == []
      && Answer(off, Cmd(Dont, option)) == Answer(off, Cmd(Wont, option)) == []
  {
  }

  /** What a session with this option sends when it gets a command about it. */
  function Answer(o: SessOption, c: Cmd): seq<Cmd> {
    Commands(AboutReceiver(c), Receive(StateOf(o, AboutReceiver(c)), Enables(c), Allowed(o, AboutReceiver(c))).reply, c.option)
  }

  /** What a session sends when it asks for something it has not. */
  lemma RequestsAre(option: nat)
    ensures Commands(true, SendEnable(Disable).reply, option) == [Cmd(Will, option)]
    ensures Commands(false, SendEnable(Disable).reply, option) == [Cmd(Do, option)]
  {
  }
}
