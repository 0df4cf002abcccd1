/** pj_getopt of getopt.c in PERMUTE mode: what a whole run returns and how it leaves argv. */
module GetOpt {
  datatype Option<T> = None | Some(value: T) {
    function GetOr(default: T): T {
      if None? then default else value
    }
  }

  // ------------------------------------------------------------------ left-to-right scan

  /** One result of pj_getopt: the returned character, pj_optarg, and pj_optopt if it was set. */
  datatype Event = Event(code: char, arg: Option<string>, bad: Option<char>)

  datatype Kind = Unknown | Flag | Required | Optional

  function IndexOf(s: string, c: char): (n: nat)
    ensures n <= |s| && (n < |s| ==> s[n] == c) && c !in s[..n]
  {
    if s == "" || s[0] == c then 0 else 1 + IndexOf(s[1..], c)
  }

  /** What the option string says about an option letter. */
  function KindOf(options: string, c: char): Kind {
    var k := IndexOf(options, c);
    if k == |options| || c == ':' then Unknown
    else if k + 1 == |options| || options[k + 1] != ':' then Flag
    else if k + 2 == |options| || options[k + 2] != ':' then Required
    else Optional
  }

  /** The option string does not ask for long options after -W. */
  predicate NoLongW(options: string) {
    var k := IndexOf(options, 'W');
    k + 1 < |options| ==> options[k + 1] != ';'
  }

  /** The option string leaves the parser in PERMUTE mode: '-' or '+' in front would ask for
      another order, and would not count as part of the string in the first call. */
  predicate Permutes(options: string) {
    options == "" || (options[0] != '-' && options[0] != '+')
  }

  /** An element that is not an option. */
  predicate IsOther(a: string) {
    a == "" || a[0] != '-' || |a| == 1
  }

  /** The first of some option letters: its event, the letters left, and how many elements it uses up. */
  datatype Letter = Letter(event: Event, left: string, used: nat)

  function ReadLetter(options: string, letters: string, next: Option<string>): (l: Letter)
    requires letters != ""
    ensures |l.left| < |letters| && l.used <= 2
    ensures l.left == "" <==> l.used > 0
    ensures l.used == 2 ==> next.Some?
  {
    var c, more := letters[0], letters[1..];
    var used := if more == "" then 1 else 0;
    match KindOf(options, c)
    case Unknown => Letter(Event('?', None, Some(c)), more, used)
    case Flag => Letter(Event(c, None, None), more, used)
    case Optional => Letter(Event(c, if more == "" then None else Some(more), None), "", 1)
    case Required =>
      if more != "" then Letter(Event(c, Some(more), None), "", 1)
      else if next.None? then Letter(Event(if options[0] == ':' then ':' else '?', None, Some(c)), "", 1)
      else Letter(Event(c, next, None), "", 2)
  }

  /** What a scan finds: the events, the elements used by options, and the others. */
  datatype Scan = Scan(events: seq<Event>, consumed: seq<string>, others: seq<string>)

  /** The scan of whole elements. */
  function ScanArgs(options: string, args: seq<string>): Scan
    decreases |args|, 0, 1
  {
    if args == [] then Scan([], [], [])
    else if args[0] == "--" then Scan([], ["--"], args[1..])
    else if IsOther(args[0]) then
      var s := ScanArgs(options, args[1..]);
      s.(others := [args[0]] + s.others)
    else ScanLetters(options, args[0][1..], args)
  }

  function Next(rest: seq<string>): Option<string> {
    if |rest| > 1 then Some(rest[1]) else None
  }

  /** The scan of the letters left in the first element, and then of the rest. */
  function ScanLetters(options: string, letters: string, rest: seq<string>): Scan
    requires rest != [] && letters != ""
    decreases |rest|, 0, 0, |letters|
  {
    var l := ReadLetter(options, letters, Next(rest));
    var s := if l.used == 0 then ScanLetters(options, l.left, rest) else ScanArgs(options, rest[l.used..]);
    Scan([l.event] + s.events, rest[..l.used] + s.consumed, s.others)
  }

  /** a and b, each in its order, make up s. */
  ghost predicate Interleaves<T>(s: seq<T>, a: seq<T>, b: seq<T>)
    decreases s
  {
    if s == [] then a == [] && b == []
    else
      || (a != [] && a[0] == s[0] && Interleaves(s[1..], a[1..], b))
      || (b != [] && b[0] == s[0] && Interleaves(s[1..], a, b[1..]))
  }

  lemma {:induction false} OnlySecond<T>(s: seq<T>)
    ensures Interleaves(s, [], s)
    decreases s
  {
    if s != [] {
      OnlySecond(s[1..]);
    }
  }

  lemma FirstInFront<T>(s: seq<T>, n: nat, a: seq<T>, b: seq<T>)
    requires n <= 2 && n <= |s| && Interleaves(s[n..], a, b)
    ensures Interleaves(s, s[..n] + a, b)
  {
    if n == 0 {
      assert s[..0] + a == a && s[0..] == s;
    } else if n == 1 {
      assert (s[..1] + a)[1..] == a;
    } else {
      assert (s[..2] + a)[1..] == [s[1]] + a && ([s[1]] + a)[1..] == a && s[1..][1..] == s[2..];
      assert Interleaves(s[1..], [s[1]] + a, b);
    }
  }

  /** The scan keeps the order of the elements on both sides. */
  lemma {:induction false} ScanInterleaves(options: string, args: seq<string>)
    ensures var s := ScanArgs(options, args); Interleaves(args, s.consumed, s.others)
    decreases |args|, 0, 1
  {
    hide ReadLetter;
    if args == [] {
    } else if args[0] == "--" {
      OnlySecond(args[1..]);
    } else if IsOther(args[0]) {
      ScanInterleaves(options, args[1..]);
      var s := ScanArgs(options, args[1..]);
      assert ([args[0]] + s.others)[1..] == s.others;
    } else {
      LettersInterleave(options, args[0][1..], args);
    }
  }

  lemma {:induction false} LettersInterleave(options: string, letters: string, rest: seq<string>)
    requires rest != [] && letters != ""
    ensures var s := ScanLetters(options, letters, rest); Interleaves(rest, s.consumed, s.others)
    decreases |rest|, 0, 0, |letters|
  {
    hide ReadLetter, ScanArgs, Interleaves;
    var l := ReadLetter(options, letters, Next(rest));
    if l.used == 0 {
      LettersInterleave(options, l.left, rest);
      var s := ScanLetters(options, l.left, rest);
      assert rest[..0] + s.consumed == s.consumed;
    } else {
      ScanInterleaves(options, rest[l.used..]);
      var s := ScanArgs(options, rest[l.used..]);
      FirstInFront(rest, l.used, s.consumed, s.others);
    }
  }

  lemma HeadAndTail<T>(s: seq<T>)
    requires s != []
    ensures multiset(s) == multiset{s[0]} + multiset(s[1..])
  {
    assert s == [s[0]] + s[1..];
  }

  lemma {:induction false} InterleavingPermutes<T>(s: seq<T>, a: seq<T>, b: seq<T>)
    requires Interleaves(s, a, b)
    ensures multiset(a + b) == multiset(s)
    decreases s
  {
    if s == [] {
      assert a + b == [];
    } else {
      HeadAndTail(s);
      if a != [] && a[0] == s[0] && Interleaves(s[1..], a[1..], b) {
        InterleavingPermutes(s[1..], a[1..], b);
        HeadAndTail(a);
      } else {
        InterleavingPermutes(s[1..], a, b[1..]);
        HeadAndTail(b);
      }
    }
  }

  /** So argv stays a permutation of what it was. */
  lemma ScanPermutes(options: string, args: seq<string>)
    ensures var s := ScanArgs(options, args); multiset(s.consumed + s.others) == multiset(args)
  {
    hide ScanArgs, Interleaves;
    ScanInterleaves(options, args);
    InterleavingPermutes(args, ScanArgs(options, args).consumed, ScanArgs(options, args).others);
  }

  // ------------------------------------------------------------------ exchange

  /** s with the adjacent blocks [b, m) and [m, t) exchanged. */
  function Rotated<T>(s: seq<T>, b: nat, m: nat, t: nat): (r: seq<T>)
    requires b <= m <= t <= |s|
    ensures |r| == |s|
  {
    s[..b] + s[m..t] + s[b..m] + s[t..]
  }

  /** s with the two blocks of n elements at i and j swapped. */
  function Swapped<T>(s: seq<T>, i: nat, j: nat, n: nat): (r: seq<T>)
    requires i + n <= j && j + n <= |s|
    ensures |r| == |s|
  {
    s[..i] + s[j..j + n] + s[i + n..j] + s[i..i + n] + s[j + n..]
  }

  lemma RotatedAt<T>(s: seq<T>, b: nat, m: nat, t: nat, k: nat)
    requires b <= m <= t <= |s| && k < |s|
    ensures Rotated(s, b, m, t)[k] ==
            if k < b || t <= k then s[k] else if k < b + (t - m) then s[k + (m - b)] else s[k - (t - m)]
  {
  }

  lemma SwappedAt<T>(s: seq<T>, i: nat, j: nat, n: nat, k: nat)
    requires i + n <= j && j + n <= |s| && k < |s|
    ensures Swapped(s, i, j, n)[k] ==
            if i <= k < i + n then s[k + (j - i)] else if j <= k < j + n then s[k - (j - i)] else s[k]
  {
  }

  /** The shorter block below: it moves to the top, and its place still has to be exchanged with the rest. */
  lemma ShortBelow<T>(s: seq<T>, b: nat, m: nat, t: nat)
    requires b < m <= t <= |s| && t - m > m - b
    ensures Rotated(Swapped(s, b, t - (m - b), m - b), b, m, t - (m - b)) == Rotated(s, b, m, t)
  {
    hide Rotated, Swapped;
    var n := m - b;
    var u := Swapped(s, b, t - n, n);
    forall k | 0 <= k < |s|
      ensures Rotated(u, b, m, t - n)[k] == Rotated(s, b, m, t)[k]
    {
      RotatedAt(u, b, m, t - n, k);
      RotatedAt(s, b, m, t, k);
      var k' := if k < b || t - n <= k then k else if k < b + (t - n - m) then k + n else k - (t - n - m);
      SwappedAt(s, b, t - n, n, k');
    }
  }

  /** The shorter block above: it moves to the bottom. */
  lemma ShortAbove<T>(s: seq<T>, b: nat, m: nat, t: nat)
    requires b <= m < t <= |s| && t - m <= m - b
    ensures Rotated(Swapped(s, b, m, t - m), b + (t - m), m, t) == Rotated(s, b, m, t)
  {
    hide Rotated, Swapped;
    var n := t - m;
    var u := Swapped(s, b, m, n);
    forall k | 0 <= k < |s|
      ensures Rotated(u, b + n, m, t)[k] == Rotated(s, b, m, t)[k]
    {
      RotatedAt(u, b + n, m, t, k);
      RotatedAt(s, b, m, t, k);
      var k' := if k < b + n || t <= k then k else if k < b + n + n then k + (m - b - n) else k - n;
      SwappedAt(s, b, m, n, k');
    }
  }

  lemma NothingToRotate<T>(s: seq<T>, b: nat, m: nat, t: nat)
    requires b <= m <= t <= |s| && (b == m || m == t)
    ensures Rotated(s, b, m, t) == s
  {
  }

  /** The inner loops of exchange. */
  method SwapBlocks(argv: array<string>, i: nat, j: nat, n: nat)
    requires i + n <= j && j + n <= argv.Length
    modifies argv
    ensures argv[..] == Swapped(old(argv[..]), i, j, n)
  {
    hide Swapped;
    for h := 0 to n
      invariant forall k {:trigger argv[k]} :: 0 <= k < argv.Length ==>
                  argv[k] == if i <= k < i + h then old(argv[k + (j - i)])
                             else if j <= k < j + h then old(argv[k - (j - i)]) else old(argv[k])
    {
      var tem := argv[i + h];
      argv[i + h] := argv[j + h];
      argv[j + h] := tem;
    }
    ghost var s := old(argv[..]);
    forall k | 0 <= k < argv.Length
      ensures argv[..][k] == Swapped(s, i, j, n)[k]
    {
      SwappedAt(s, i, j, n, k);
    }
  }

  /** exchange, up to the update of the bounds. */
  method Exchange(argv: array<string>, first: nat, last: nat, optind: nat)
    requires first <= last <= optind <= argv.Length
    modifies argv
    ensures argv[..] == Rotated(old(argv[..]), first, last, optind)
  {
    hide Rotated, Swapped;
    var bottom, middle, top := first, last, optind;
    while top > middle && middle > bottom
      invariant 0 <= bottom <= middle <= top <= argv.Length
      invariant Rotated(argv[..], bottom, middle, top) == Rotated(old(argv[..]), first, last, optind)
      decreases top - bottom
    {
      if top - middle > middle - bottom {
        var len := middle - bottom;
        ShortBelow(argv[..], bottom, middle, top);
        SwapBlocks(argv, bottom, top - len, len);
        top := top - len;
      } else {
        var len := top - middle;
        ShortAbove(argv[..], bottom, middle, top);
        SwapBlocks(argv, bottom, middle, len);
        bottom := bottom + len;
      }
    }
    NothingToRotate(argv[..], bottom, middle, top);
  }

  // ------------------------------------------------------------------ pj_getopt

  /** argv split at its bounds: the first element, what options used up, and the others skipped so far. */
  function Used(s: seq<string>, first: nat, last: nat, optind: nat): seq<string>
    requires 1 <= first <= last <= optind <= |s|
  {
    s[1..first] + s[last..optind]
  }

  class Parser {
    const argv: array<string>
    var optind: nat
    var firstNonopt: nat
    var lastNonopt: nat
    var nextchar: string
    var optarg: Option<string>
    var optopt: char

    ghost predicate Valid()
      reads `optind, `firstNonopt, `lastNonopt, `nextchar
    {
      && 1 <= firstNonopt <= lastNonopt <= optind <= argv.Length
      && (nextchar != "" ==> optind < argv.Length)
    }

    /** What is still to find. */
    ghost function Ahead(options: string): Scan
      requires Valid()
      reads `optind, `firstNonopt, `lastNonopt, `nextchar, argv
    {
      var rest := argv[optind..];
      if nextchar == "" then ScanArgs(options, rest) else ScanLetters(options, nextchar, rest)
    }

    /** What the whole run will have found: past and future. */
    ghost function Total(options: string): Scan
      requires Valid()
      reads `optind, `firstNonopt, `lastNonopt, `nextchar, argv
    {
      var s := Ahead(options);
      Scan(s.events, Used(argv[..], firstNonopt, lastNonopt, optind) + s.consumed, argv[firstNonopt..lastNonopt] + s.others)
    }

    constructor (args: array<string>)
      requires args.Length > 0
      ensures Valid() && argv == args && optind == firstNonopt == lastNonopt == 1 && nextchar == ""
    {
      argv := args;
      optind, firstNonopt, lastNonopt, nextchar := 1, 1, 1, "";
      optarg, optopt := None, '?';
    }

    /** exchange. */
    method ExchangeBlocks()
      requires Valid()
      modifies argv, `firstNonopt, `lastNonopt
      ensures Valid() && lastNonopt == optind && firstNonopt == old(firstNonopt) + (optind - old(lastNonopt))
      ensures argv[..firstNonopt] == old(argv[..firstNonopt] + argv[lastNonopt..optind])
      ensures argv[firstNonopt..lastNonopt] == old(argv[firstNonopt..lastNonopt])
      ensures argv[optind..] == old(argv[optind..])
    {
      ghost var s := argv[..];
      Exchange(argv, firstNonopt, lastNonopt, optind);
      assert argv[..] == Rotated(s, firstNonopt, lastNonopt, optind);
      firstNonopt := firstNonopt + (optind - lastNonopt);
      lastNonopt := optind;
    }

    lemma OtherStep(options: string, i: nat)
      requires i < argv.Length && IsOther(argv[i])
      ensures var s := ScanArgs(options, argv[i + 1..]);
              ScanArgs(options, argv[i..]) == Scan(s.events, s.consumed, [argv[i]] + s.others)
    {
      hide ScanLetters;
      assert argv[i..][1..] == argv[i + 1..];
    }

    /** Options found since the last others move in front of them. */
    method MoveOthersBack()
      requires Valid() && nextchar == ""
      modifies argv, `firstNonopt, `lastNonopt
      ensures 1 <= firstNonopt <= optind && argv[0] == old(argv[0])
      ensures argv[1..firstNonopt] == old(Used(argv[..], firstNonopt, lastNonopt, optind))
      ensures argv[firstNonopt..optind] == old(argv[firstNonopt..lastNonopt])
      ensures argv[optind..] == old(argv[optind..])
    {
      if firstNonopt != lastNonopt && lastNonopt != optind {
        ExchangeBlocks();
      } else if lastNonopt != optind {
        firstNonopt := optind;
      }
    }

    /** The loop over the others that come next. */
    method FindOption(options: string) returns (end: nat)
      requires optind <= argv.Length
      ensures optind <= end <= argv.Length && (end == argv.Length || !IsOther(argv[end]))
      ensures var s := ScanArgs(options, argv[end..]);
              ScanArgs(options, argv[optind..]) == Scan(s.events, s.consumed, argv[optind..end] + s.others)
    {
      hide ScanArgs, IsOther;
      end := optind;
      ghost var all := ScanArgs(options, argv[optind..]);
      assert argv[optind..end] + all.others == all.others;
      while end < argv.Length && IsOther(argv[end])
        invariant optind <= end <= argv.Length
        invariant var s := ScanArgs(options, argv[end..]); all == Scan(s.events, s.consumed, argv[optind..end] + s.others)
      {
        OtherStep(options, end);
        ghost var s := ScanArgs(options, argv[end + 1..]);
        assert argv[optind..end] + ([argv[end]] + s.others) == argv[optind..end + 1] + s.others;
        end := end + 1;
      }
    }

    /** More others are skipped. */
    method SkipOthers(options: string)
      requires Valid() && nextchar == ""
      modifies argv, `firstNonopt, `lastNonopt, `optind
      ensures Valid() && lastNonopt == optind && argv[0] == old(argv[0])
      ensures Total(options) == old(Total(options))
      ensures optind == argv.Length || !IsOther(argv[optind])
    {
      hide ScanArgs, IsOther;
      MoveOthersBack();
      ghost var s := argv[..];
      var end := FindOption(options);
      ghost var more := ScanArgs(options, s[end..]).others;
      assert s[firstNonopt..optind] + (s[optind..end] + more) == s[firstNonopt..end] + more;
      assert s[1..firstNonopt] + s[end..end] == s[1..firstNonopt];
      optind := end;
      lastNonopt := optind;
    }

    /** "--" moves in front of the others like an option. */
    method MoveMarker()
      requires Valid() && nextchar == "" && lastNonopt == optind < argv.Length && argv[optind] == "--"
      modifies argv, `firstNonopt, `lastNonopt, `optind
      ensures optind == old(optind) + 1 && 1 <= firstNonopt <= optind && argv[0] == old(argv[0])
      ensures argv[1..firstNonopt] == old(argv[1..firstNonopt]) + ["--"]
      ensures argv[firstNonopt..optind] == old(argv[firstNonopt..optind])
      ensures argv[optind..] == old(argv[optind + 1..])
    {
      optind := optind + 1;
      if firstNonopt != lastNonopt && lastNonopt != optind {
        ExchangeBlocks();
      } else if firstNonopt == lastNonopt {
        firstNonopt := optind;
      }
    }

    /** After "--" everything is skipped like an element that is not an option. */
    method SkipMarker(options: string)
      requires Valid() && nextchar == "" && lastNonopt == optind < argv.Length && argv[optind] == "--"
      modifies argv, `firstNonopt, `lastNonopt, `optind
      ensures Valid() && lastNonopt == optind == argv.Length && argv[0] == old(argv[0])
      ensures Total(options) == old(Total(options))
    {
      hide ScanLetters, ScanArgs, Total;
      MarkerTotal(options);
      MoveMarker();
      assert argv[firstNonopt..] == argv[firstNonopt..optind] + argv[optind..];
      lastNonopt := argv.Length;
      optind := argv.Length;
      Finished(options);
    }

    lemma MarkerTotal(options: string)
      requires Valid() && nextchar == "" && lastNonopt == optind < argv.Length && argv[optind] == "--"
      ensures Total(options) ==
              Scan([], argv[1..firstNonopt] + ["--"], argv[firstNonopt..optind] + argv[optind + 1..])
    {
      hide ScanLetters;
      assert argv[optind..][0] == "--" && argv[optind..][1..] == argv[optind + 1..];
      assert argv[1..firstNonopt] + argv[lastNonopt..optind] == argv[1..firstNonopt];
    }

    /** To the next option element, or to the end of the run. */
    method NextElement(options: string) returns (done: bool)
      requires Valid() && nextchar == "" && Permutes(options)
      modifies argv, `firstNonopt, `lastNonopt, `optind, `nextchar
      ensures !done ==> Valid() && nextchar != "" && Total(options) == old(Total(options))
      ensures done ==> 1 <= optind <= argv.Length
      ensures done ==> Scan([], argv[1..optind], argv[optind..]) == old(Total(options))
      ensures argv[0] == old(argv[0])
    {
      SkipOthers(options);
      if optind != argv.Length && argv[optind] == "--" {
        SkipMarker(options);
      }
      if optind == argv.Length {
        Finished(options);
        if firstNonopt != lastNonopt {
          optind := firstNonopt;
        }
        return true;
      }
      assert argv[optind..][0] == argv[optind];
      nextchar := argv[optind][1..];
      return false;
    }

    lemma Finished(options: string)
      requires Valid() && nextchar == "" && lastNonopt == optind == argv.Length
      ensures Total(options) == Scan([], argv[1..firstNonopt], argv[firstNonopt..])
    {
      assert argv[optind..] == [];
      assert argv[1..firstNonopt] + argv[lastNonopt..optind] + [] == argv[1..firstNonopt];
      assert argv[firstNonopt..lastNonopt] + [] == argv[firstNonopt..];
    }

    /** The next letter of the current option element. */
    method NextLetter(options: string) returns (c: char)
      requires Valid() && nextchar != "" && optarg == None && NoLongW(options)
      modifies `optind, `nextchar, `optarg, `optopt
      ensures var l := ReadLetter(options, old(nextchar), Next(old(argv[optind..])));
              && l.event.code == c && l.event.arg == optarg && optopt == l.event.bad.GetOr(old(optopt))
              && nextchar == l.left && optind == old(optind) + l.used
    {
      c := nextchar[0];
      var temp := IndexOf(options, c);
      nextchar := nextchar[1..];
      if nextchar == "" {
        optind := optind + 1;
      }
      if temp == |options| || c == ':' {
        optopt := c;
        return '?';
      }
      if temp + 1 < |options| && options[temp + 1] == ':' {
        if temp + 2 < |options| && options[temp + 2] == ':' {
          if nextchar != "" {
            optarg := Some(nextchar);
            optind := optind + 1;
          } else {
            optarg := None;
          }
          nextchar := "";
        } else {
          if nextchar != "" {
            optarg := Some(nextchar);
            optind := optind + 1;
          } else if optind == argv.Length {
            optopt := c;
            c := if options[0] == ':' then ':' else '?';
          } else {
            optarg := Some(argv[optind]);
            optind := optind + 1;
          }
          nextchar := "";
        }
      }
    }

    /** One letter of the scan, in terms of the bounds. */
    lemma LetterStep(options: string, s: seq<string>, first: nat, last: nat, i: nat, letters: string, l: Letter)
      requires 1 <= first <= last <= i < |s| && letters != "" && l == ReadLetter(options, letters, Next(s[i..]))
      ensures i + l.used <= |s|
      ensures var a := ScanLetters(options, letters, s[i..]);
              var b := if l.used == 0 then ScanLetters(options, l.left, s[i..]) else ScanArgs(options, s[i + l.used..]);
              && a.events == [l.event] + b.events && a.others == b.others
              && Used(s, first, last, i) + a.consumed == Used(s, first, last, i + l.used) + b.consumed
    {
      hide ScanArgs, ReadLetter;
      var n := l.used;
      assert s[i..][n..] == s[i + n..];
      assert s[last..i + n] == s[last..i] + s[i..][..n];
    }

    /** The next letter, in terms of the whole run. */
    method NextEvent(options: string) returns (c: char)
      requires Valid() && nextchar != "" && optarg == None && Permutes(options) && NoLongW(options)
      modifies `optind, `nextchar, `optarg, `optopt
      ensures Valid()
      ensures Happened(old(Total(options)), Total(options), c, optarg, old(optopt), optopt)
    {
      hide ScanArgs, ScanLetters, ReadLetter, NoLongW, Used;
      ghost var i, letters := optind, nextchar;
      c := NextLetter(options);
      ghost var l := ReadLetter(options, letters, Next(argv[i..]));
      LetterStep(options, argv[..], firstNonopt, lastNonopt, i, letters, l);
      assert ([l.event] + Ahead(options).events)[1..] == Ahead(options).events;
    }

    /** pj_getopt. */
    method GetOpt(options: string) returns (code: Option<char>)
      requires Valid() && Permutes(options) && NoLongW(options)
      modifies this, argv
      ensures argv[0] == old(argv[0])
      ensures code.None? ==> 1 <= optind <= argv.Length
      ensures code.None? ==> Scan([], argv[1..optind], argv[optind..]) == old(Total(options))
      ensures code.Some? ==> Valid()
      ensures code.Some? ==> Happened(old(Total(options)), Total(options), code.value, optarg, old(optopt), optopt)
    {
      hide Total, Happened, NoLongW;
      optarg := None;
      if nextchar == "" {
        var done := NextElement(options);
        if done {
          return None;
        }
      }
      var c := NextEvent(options);
      return Some(c);
    }
  }

  /** One event happened: it is the first of those that were ahead, and nothing else of the total changes. */
  predicate Happened(before: Scan, after: Scan, code: char, arg: Option<string>, optopt: char, newOptopt: char) {
    && before.events != [] && before.events[0].code == code && before.events[0].arg == arg
    && newOptopt == before.events[0].bad.GetOr(optopt)
    && after == before.(events := before.events[1..])
  }

  /** What a caller sees of an event. */
  datatype Seen = Seen(code: char, arg: Option<string>)

  function SeenOf(events: seq<Event>): (r: seq<Seen>)
    ensures |r| == |events|
  {
    seq(|events|, i requires 0 <= i < |events| => Seen(events[i].code, events[i].arg))
  }

  /** Main result: calling pj_getopt until it returns -1 gives the events of the plain scan from left to right,
      and leaves the elements that options used up in front of the others, both in their order. */
  method Run(args: array<string>, options: string) returns (seen: seq<Seen>, optind: nat)
    requires args.Length > 0 && Permutes(options) && NoLongW(options)
    modifies args
    ensures var s := ScanArgs(options, old(args[1..]));
            && seen == SeenOf(s.events)
            && args[..] == old(args[..1]) + s.consumed + s.others
            && optind == 1 + |s.consumed|
  {
    hide ScanArgs, ScanLetters, NoLongW, SeenOf, Parser.Total;
    var p := new Parser(args);
    InitialTotal(p, options);
    ghost var s := ScanArgs(options, args[1..]);
    seen := [];
    ghost var ahead := s.events;
    while true
      invariant p.argv == args && p.Valid() && args[0] == old(args[0])
      invariant p.Total(options) == s.(events := ahead)
      invariant SeenOf(s.events) == seen + SeenOf(ahead)
      decreases ahead
    {
      var code := p.GetOpt(options);
      if code.None? {
        break;
      }
      FirstSeen(seen, ahead);
      assert ahead != [] && ahead[0].code == code.value && ahead[0].arg == p.optarg;
      seen := seen + [Seen(code.value, p.optarg)];
      ahead := ahead[1..];
    }
    optind := p.optind;
  }

  lemma FirstSeen(seen: seq<Seen>, ahead: seq<Event>)
    ensures ahead == [] ==> seen + SeenOf(ahead) == seen
    ensures ahead != [] ==> seen + SeenOf(ahead) == seen + [Seen(ahead[0].code, ahead[0].arg)] + SeenOf(ahead[1..])
  {
  }

  lemma InitialTotal(p: Parser, options: string)
    requires p.Valid() && p.optind == p.firstNonopt == p.lastNonopt == 1 && p.nextchar == ""
    ensures p.Total(options) == ScanArgs(options, p.argv[1..])
  {
    hide ScanArgs;
    var s := ScanArgs(options, p.argv[1..]);
    assert [] + s.consumed == s.consumed && [] + s.others == s.others;
  }
}
