/** Nameserver selection of resolver.c: the best active server, and every server on probation. */
module NameServers {
  import opened ResolverCache

  datatype NsState = Probing | Active | Bad

  datatype NameServer = NameServer(state: NsState, expiry: Time, rtDelay: Time)

  datatype NsSettings = NsSettings(retries: nat, retryDelay: nat, goodTtl: nat, badTtl: nat)

  const MAX_NS := 16

  predicate Expired(ns: NameServer, now: Time) {
    !After(ns.expiry, now)
  }

  /** PJ_TIME_VAL_LT. */
  predicate Before(a: Time, b: Time) {
    After(b, a)
  }

  /** set_nameserver_state. */
  function WithState(ns: NameServer, state: NsState, now: Time, st: NsSettings): NameServer {
    var hold :=
      match state
      case Probing => (st.retries + 2) * st.retryDelay / 1000
      case Active => st.goodTtl
      case Bad => st.badTtl;
    ns.(state := state, expiry := now.(sec := now.sec + hold))
  }

  /** What selection does to a server: an expired probation ends badly, any other expired state
      starts a probation. */
  function Aged(ns: NameServer, now: Time, st: NsSettings): NameServer {
    if !Expired(ns, now) then ns
    else if ns.state == Probing then WithState(ns, Bad, now, st)
    else WithState(ns, Probing, now, st)
  }

  /** How long a state is held, in seconds: time for all retransmissions and two more, or the time of the
      settings for good or bad servers. */
  lemma StateIsHeld(ns: NameServer, state: NsState, now: Time, st: NsSettings, t: Time)
    ensures var hold := if state == Active then st.goodTtl else if state == Bad then st.badTtl
                        else (st.retries + 2) * st.retryDelay / 1000;
            var held := WithState(ns, state, now, st);
      && held.state == state && held.rtDelay == ns.rtDelay
      && (Expired(held, t) <==> t.sec > now.sec + hold || (t.sec == now.sec + hold && t.msec >= now.msec))
  {
  }

  /** What has become of a server when selection is over. */
  lemma AgedIs(ns: NameServer, now: Time, st: NsSettings)
    ensures var aged, over := Aged(ns, now, st), ns.expiry.sec < now.sec || (ns.expiry.sec == now.sec && ns.expiry.msec <= now.msec);
      && (!over ==> aged == ns)
      && (over && ns.state == Probing ==> aged == NameServer(Bad, Time(now.sec + st.badTtl, now.msec), ns.rtDelay))
      && (over && ns.state != Probing ==>
            aged == NameServer(Probing, Time(now.sec + (st.retries + 2) * st.retryDelay / 1000, now.msec), ns.rtDelay))
  {
  }

  /** The first of the active servers with least response time. */
  ghost predicate IsBest(ns: seq<NameServer>, i: int) {
    && 0 <= i < |ns| && ns[i].state == Active
    && (forall j :: 0 <= j < |ns| && ns[j].state == Active ==> !Before(ns[j].rtDelay, ns[i].rtDelay))
    && (forall j :: 0 <= j < i && ns[j].state == Active ==> Before(ns[i].rtDelay, ns[j].rtDelay))
  }

  lemma BestIsUnique(ns: seq<NameServer>, i: int, j: int)
    requires IsBest(ns, i) && IsBest(ns, j)
    ensures i == j
  {
  }

  ghost predicate Distinct(s: seq<nat>) {
    forall i, j :: 0 <= i < j < |s| ==> s[i] != s[j]
  }

  class Servers {
    const settings: NsSettings
    var ns: array<NameServer>

    constructor (st: NsSettings, count: nat)
      requires count < MAX_NS
      ensures settings == st && fresh(ns) && ns.Length == count
    {
      settings := st;
      ns := new NameServer[count](_ => NameServer(Active, Time(0, 0), Time(10, 0)));
    }

    method PickBest() returns (min: int)
      ensures min == -1 ==> forall i :: 0 <= i < ns.Length ==> ns[i].state != Active
      ensures min != -1 ==> IsBest(ns[..], min)
    {
      min := -1;
      for i := 0 to ns.Length
        invariant min == -1 ==> forall j :: 0 <= j < i ==> ns[j].state != Active
        invariant min != -1 ==> 0 <= min < i && IsBest(ns[..i], min)
      {
        if ns[i].state == Active {
          if min == -1 || Before(ns[i].rtDelay, ns[min].rtDelay) {
            min := i;
          }
        }
      }
    }

    /** select_nameservers.  None means that no server is configured; otherwise the servers to
        send to.  The table never holds MAX_NS servers, so the output array is never full. */
    method Select(now: Time) returns (servers: seq<nat>)
      requires ns.Length < MAX_NS
      modifies ns
      ensures forall i :: 0 <= i < ns.Length ==> ns[i] == old(Aged(ns[i], now, settings))
      ensures Distinct(servers)
      ensures forall i :: i in servers ==> i < ns.Length
      ensures forall i :: 0 <= i < ns.Length ==>
                (i in servers <==> old(IsBest(ns[..], i)) || ns[i].state == Probing)
      ensures servers == [] ==> forall i :: 0 <= i < ns.Length ==> ns[i].state == Bad
    {
      hide IsBest;
      servers := [];
      if ns.Length == 0 {
        return;
      }
      var min := PickBest();
      if min != -1 {
        BestInRange(ns[..], min);
        servers := [min];
      }
      OnlyBest(ns[..], min);
      var i := 0;
      while i < ns.Length && |servers| < MAX_NS
        invariant 0 <= i <= ns.Length
        invariant forall j :: 0 <= j < i ==> ns[j] == old(Aged(ns[j], now, settings))
        invariant forall j :: i <= j < ns.Length ==> ns[j] == old(ns[j])
        invariant Distinct(servers)
        invariant forall j: nat :: j in servers <==> j == min || (j < i && ns[j].state == Probing)
        invariant |servers| <= i + 1 && (min == -1 ==> |servers| <= i) && (0 <= min < i ==> |servers| <= i)
      {
        assert min != -1 ==> old(ns[min]).state == Active;
        if Expired(ns[i], now) {
          if ns[i].state == Probing {
            ns[i] := WithState(ns[i], Bad, now, settings);
          } else {
            ns[i] := WithState(ns[i], Probing, now, settings);
            if i != min {
              servers := servers + [i];
            }
          }
        } else if ns[i].state == Probing && i != min {
          servers := servers + [i];
        }
        i := i + 1;
      }
    }

    lemma BestInRange(s: seq<NameServer>, min: int)
      requires IsBest(s, min)
      ensures 0 <= min < |s| && s[min].state == Active
    {
    }

    lemma OnlyBest(s: seq<NameServer>, min: int)
      requires min == -1 || IsBest(s, min)
      requires min == -1 ==> forall i :: 0 <= i < |s| ==> s[i].state != Active
      ensures forall i :: IsBest(s, i) <==> i == min && min != -1
    {
      forall i | IsBest(s, i) && min != -1
        ensures i == min
      {
        BestIsUnique(s, i, min);
      }
    }
  }
}
