/** Command lines as their writers mean them: what a scan of one finds is what it was written from. */
module GetOptRender {
  import opened GetOpt

  // ------------------------------------------------------------------ option strings

  /** The first place of c in the option string is followed by exactly n colons, or by two or more. */
  predicate ColonsAt(options: string, k: nat, n: nat) {
    && k < |options|
    && (n >= 1 <==> k + 1 < |options| && options[k + 1] == ':')
    && (n >= 2 <==> k + 2 < |options| && options[k + 1] == ':' && options[k + 2] == ':')
  }

  /** The option string declares c: without argument (n = 0), with one (n = 1), or with one that may be missing (n = 2). */
  ghost predicate Declares(options: string, c: char, n: nat) {
    c != ':' && exists k: nat :: k < |options| && options[k] == c && c !in options[..k] && ColonsAt(options, k, n)
  }

  ghost predicate Undeclared(options: string, c: char) {
    c == ':' || c !in options
  }

  lemma KindIsDeclared(options: string, c: char)
    ensures Declares(options, c, 0) ==> KindOf(options, c) == Flag
    ensures Declares(options, c, 1) ==> KindOf(options, c) == Required
    ensures Declares(options, c, 2) ==> KindOf(options, c) == Optional
    ensures Undeclared(options, c) ==> KindOf(options, c) == Unknown
  {
    Places(options, c);
  }

  lemma Places(options: string, c: char)
    ensures forall k: nat, n: nat :: k < |options| && options[k] == c && c !in options[..k] && ColonsAt(options, k, n) ==> IndexOf(options, c) == k
  {
    forall k: nat, n: nat | k < |options| && options[k] == c && c !in options[..k] && ColonsAt(options, k, n)
      ensures IndexOf(options, c) == k
    {
    }
  }

  // ------------------------------------------------------------------ command lines

  /** The last option of an element, which may take an argument; `attached` says that the argument follows
      the letter in the same element. */
  datatype Tail = NoArgument(c: char) | Argument(c: char, arg: string, attached: bool) | MaybeArgument(c: char, found: Option<string>)

  /** Letters without arguments and a last one, after one dash; or an element that is not an option. */
  datatype Piece = Cluster(letters: string, tail: Tail) | Plain(text: string)

  /** How a command line ends: with its last piece, with "--" and anything, or with a letter that lacks its argument. */
  datatype Ending = Bare | Marked(rest: seq<string>) | Lacking(letters: string, c: char)

  function Elements(p: Piece): (s: seq<string>)
    ensures 1 <= |s| <= 2
  {
    match p
    case Plain(text) => [text]
    case Cluster(letters, NoArgument(c)) => ["-" + letters + [c]]
    case Cluster(letters, Argument(c, arg, attached)) => if attached then ["-" + letters + [c] + arg] else ["-" + letters + [c], arg]
    case Cluster(letters, MaybeArgument(c, arg)) => ["-" + letters + [c] + arg.GetOr("")]
  }

  function CommandLine(pieces: seq<Piece>, end: Ending): seq<string> {
    if pieces != [] then Elements(pieces[0]) + CommandLine(pieces[1..], end)
    else
      match end
      case Bare => []
      case Marked(rest) => ["--"] + rest
      case Lacking(letters, c) => ["-" + letters + [c]]
  }

  /** A letter that takes no argument: as declared, or unknown. */
  ghost predicate Simple(options: string, c: char) {
    c != '-' && (Declares(options, c, 0) || Undeclared(options, c))
  }

  ghost predicate AllSimple(options: string, letters: string) {
    forall i {:trigger letters[i]} :: 0 <= i < |letters| ==> Simple(options, letters[i])
  }

  ghost predicate TailFits(options: string, t: Tail) {
    match t
    case NoArgument(c) => Simple(options, c)
    case Argument(c, arg, attached) => c != '-' && Declares(options, c, 1) && (attached ==> arg != "")
    case MaybeArgument(c, arg) => c != '-' && Declares(options, c, 2) && arg != Some("")
  }

  ghost predicate Fits(options: string, p: Piece) {
    match p
    case Plain(text) => text == "" || text == "-" || text[0] != '-'
    case Cluster(letters, tail) => AllSimple(options, letters) && TailFits(options, tail)
  }

  ghost predicate EndFits(options: string, end: Ending) {
    end.Lacking? ==> AllSimple(options, end.letters) && end.c != '-' && Declares(options, end.c, 1)
  }

  /** What a letter without argument is reported as. */
  ghost function SimpleEvent(options: string, c: char): Event {
    if Declares(options, c, 0) then Event(c, None, None) else Event('?', None, Some(c))
  }

  ghost function SimpleEvents(options: string, letters: string): seq<Event> {
    if letters == "" then [] else [SimpleEvent(options, letters[0])] + SimpleEvents(options, letters[1..])
  }

  ghost function TailEvent(options: string, t: Tail): Event {
    match t
    case NoArgument(c) => SimpleEvent(options, c)
    case Argument(c, arg, _) => Event(c, Some(arg), None)
    case MaybeArgument(c, arg) => Event(c, arg, None)
  }

  ghost function Events(options: string, pieces: seq<Piece>, end: Ending): seq<Event> {
    if pieces != [] then
      (if pieces[0].Plain? then [] else SimpleEvents(options, pieces[0].letters) + [TailEvent(options, pieces[0].tail)])
      + Events(options, pieces[1..], end)
    else if end.Lacking? then
      SimpleEvents(options, end.letters) + [Event(if options != "" && options[0] == ':' then ':' else '?', None, Some(end.c))]
    else []
  }

  function Spent(pieces: seq<Piece>, end: Ending): seq<string> {
    if pieces != [] then (if pieces[0].Plain? then [] else Elements(pieces[0])) + Spent(pieces[1..], end)
    else if end.Marked? then ["--"] else CommandLine([], end)
  }

  function Others(pieces: seq<Piece>, end: Ending): seq<string> {
    if pieces != [] then (if pieces[0].Plain? then [pieces[0].text] else []) + Others(pieces[1..], end)
    else if end.Marked? then end.rest else []
  }

  // ------------------------------------------------------------------ letters

  lemma SimpleIsRead(options: string, c: char, more: string, next: Option<string>)
    requires Simple(options, c)
    ensures ReadLetter(options, [c] + more, next) == Letter(SimpleEvent(options, c), more, if more == "" then 1 else 0)
  {
    KindIsDeclared(options, c);
    hide KindOf, Declares, Undeclared;
    assert ([c] + more)[1..] == more;
  }

  lemma LetterIsRead(options: string, c: char, more: string, rest: seq<string>)
    requires Simple(options, c) && more != "" && rest != []
    ensures var s := ScanLetters(options, more, rest);
      ScanLetters(options, [c] + more, rest) == s.(events := [SimpleEvent(options, c)] + s.events)
  {
    SimpleIsRead(options, c, more, Next(rest));
    hide ReadLetter, Simple, SimpleEvent, ScanArgs;
    var s := ScanLetters(options, more, rest);
    assert rest[..0] + s.consumed == s.consumed;
  }

  /** A run of letters without arguments, with more letters behind. */
  lemma {:induction false} LettersAreRead(options: string, letters: string, more: string, rest: seq<string>)
    requires AllSimple(options, letters) && more != "" && rest != []
    ensures var s := ScanLetters(options, more, rest);
      letters + more != "" &&
      ScanLetters(options, letters + more, rest) == s.(events := SimpleEvents(options, letters) + s.events)
    decreases |letters|
  {
    hide ReadLetter, Simple, SimpleEvent, ScanArgs, ScanLetters;
    var s := ScanLetters(options, more, rest);
    if letters == "" {
      assert letters + more == more && [] + s.events == s.events;
    } else {
      var c, tail := letters[0], letters[1..];
      LettersAreRead(options, tail, more, rest);
      LetterIsRead(options, c, tail + more, rest);
      assert letters + more == [c] + (tail + more);
      assert [SimpleEvent(options, c)] + (SimpleEvents(options, tail) + s.events) == SimpleEvents(options, letters) + s.events;
    }
  }

  /** What the last option of an element leaves in the element, and what it uses of the next one. */
  function TailText(t: Tail): (s: string)
    ensures s != ""
  {
    match t
    case NoArgument(c) => [c]
    case Argument(c, arg, attached) => if attached then [c] + arg else [c]
    case MaybeArgument(c, arg) => [c] + arg.GetOr("")
  }

  function TailRest(t: Tail): (s: seq<string>)
    ensures |s| <= 1
  {
    if t.Argument? && !t.attached then [t.arg] else []
  }

  lemma TailIsRead(options: string, t: Tail, first: string, after: seq<string>)
    requires TailFits(options, t)
    ensures var rest, s := [first] + TailRest(t) + after, ScanArgs(options, after);
      ScanLetters(options, TailText(t), rest) ==
      Scan([TailEvent(options, t)] + s.events, [first] + TailRest(t) + s.consumed, s.others)
  {
    var rest := [first] + TailRest(t) + after;
    KindIsDeclared(options, t.c);
    hide KindOf, Declares, Undeclared, ScanArgs;
    assert rest[1 + |TailRest(t)|..] == after && rest[..1 + |TailRest(t)|] == [first] + TailRest(t);
    assert TailText(t)[1..] == if t.Argument? && t.attached then t.arg else if t.MaybeArgument? then t.found.GetOr("") else "";
    assert t.Argument? && !t.attached ==> rest[1] == t.arg;
  }

  // ------------------------------------------------------------------ elements

  lemma ElementsAre(letters: string, t: Tail)
    ensures Elements(Cluster(letters, t)) == ["-" + (letters + TailText(t))] + TailRest(t)
  {
    match t
    case NoArgument(c) => assert "-" + letters + [c] == "-" + (letters + [c]);
    case Argument(c, arg, attached) =>
      assert "-" + letters + [c] == "-" + (letters + [c]) && "-" + letters + [c] + arg == "-" + (letters + ([c] + arg));
    case MaybeArgument(c, found) => assert "-" + letters + [c] + found.GetOr("") == "-" + (letters + ([c] + found.GetOr("")));
  }

  /** The first character behind the dash is a letter, so the element is an option and not "--". */
  lemma IsOption(options: string, letters: string, text: string)
    requires AllSimple(options, letters) && text != "" && text[0] != '-'
    ensures var e := "-" + (letters + text); e != "--" && !IsOther(e) && e[1..] == letters + text
  {
    var e := "-" + (letters + text);
    assert e[1..] == letters + text;
    assert e[1] == if letters == "" then text[0] else letters[0];
    if letters != "" {
      assert Simple(options, letters[0]);
    }
    assert "--"[1] == '-';
  }

  /** One element with options, and its argument if that is separate, in front of more elements. */
  lemma ClusterIsScanned(options: string, letters: string, t: Tail, after: seq<string>)
    requires AllSimple(options, letters) && TailFits(options, t)
    ensures var p, s := Cluster(letters, t), ScanArgs(options, after);
      ScanArgs(options, Elements(p) + after) ==
      Scan(SimpleEvents(options, letters) + [TailEvent(options, t)] + s.events, Elements(p) + s.consumed, s.others)
  {
    hide ReadLetter, SimpleEvents, AllSimple, IsOther;
    var first := "-" + (letters + TailText(t));
    var rest := [first] + TailRest(t) + after;
    ElementsAre(letters, t);
    IsOption(options, letters, TailText(t));
    TailIsRead(options, t, first, after);
    LettersAreRead(options, letters, TailText(t), rest);
    assert rest[0] == first;
    hide ScanLetters, Elements;
    ScanIsLetters(options, rest);
    var s := ScanArgs(options, after);
    assert SimpleEvents(options, letters) + ([TailEvent(options, t)] + s.events)
        == SimpleEvents(options, letters) + [TailEvent(options, t)] + s.events;
  }

  lemma ScanIsLetters(options: string, args: seq<string>)
    requires args != [] && args[0] != "--" && !IsOther(args[0])
    ensures ScanArgs(options, args) == ScanLetters(options, args[0][1..], args)
  {
    hide ScanLetters;
  }

  lemma PlainIsScanned(options: string, text: string, after: seq<string>)
    requires Fits(options, Plain(text))
    ensures var s := ScanArgs(options, after);
      ScanArgs(options, [text] + after) == s.(others := [text] + s.others)
  {
    hide ScanLetters;
    assert ([text] + after)[1..] == after;
  }

  lemma EndingIsScanned(options: string, end: Ending)
    requires EndFits(options, end)
    ensures ScanArgs(options, CommandLine([], end)) == Scan(Events(options, [], end), Spent([], end), Others([], end))
  {
    hide ReadLetter, Declares, ScanLetters;
    match end
    case Bare =>
    case Marked(rest) => assert (["--"] + rest)[1..] == rest;
    case Lacking(letters, c) =>
      var e := "-" + letters + [c];
      assert e == "-" + (letters + [c]);
      IsOption(options, letters, [c]);
      ScanIsLetters(options, [e]);
      LackingIsRead(options, c, e);
      LettersAreRead(options, letters, [c], [e]);
  }

  lemma LackingIsRead(options: string, c: char, e: string)
    requires Declares(options, c, 1)
    ensures ScanLetters(options, [c], [e]) ==
            Scan([Event(if options != "" && options[0] == ':' then ':' else '?', None, Some(c))], [e], [])
  {
    KindIsDeclared(options, c);
    hide KindOf, Declares;
    assert [c][1..] == "" && [e][1..] == [];
  }

  /** Main result.  Scanning a command line finds the options and arguments it was written from, in order:
      single and clustered letters, arguments attached and separate, optional arguments present and absent,
      unknown letters, a missing argument at the end, and "--"; and it tells the elements that options use
      from the others. */
  lemma {:induction false} CommandLineIsScanned(options: string, pieces: seq<Piece>, end: Ending)
    requires (forall i {:trigger pieces[i]} :: 0 <= i < |pieces| ==> Fits(options, pieces[i])) && EndFits(options, end)
    ensures ScanArgs(options, CommandLine(pieces, end)) ==
            Scan(Events(options, pieces, end), Spent(pieces, end), Others(pieces, end))
    decreases |pieces|
  {
    hide ScanArgs, SimpleEvents, TailEvent, TailFits, AllSimple;
    if pieces == [] {
      EndingIsScanned(options, end);
    } else {
      var after := CommandLine(pieces[1..], end);
      CommandLineIsScanned(options, pieces[1..], end);
      assert Fits(options, pieces[0]);
      match pieces[0]
      case Plain(text) =>
        PlainIsScanned(options, text, after);
        assert [] + Events(options, pieces[1..], end) == Events(options, pieces[1..], end);
        assert [] + Spent(pieces[1..], end) == Spent(pieces[1..], end);
      case Cluster(letters, t) =>
        ClusterIsScanned(options, letters, t, after);
        assert [] + Others(pieces[1..], end) == Others(pieces[1..], end);
    }
  }
}
