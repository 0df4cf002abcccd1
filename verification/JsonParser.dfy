/** The recursive parser of json.c, proved to read what JsonGrammar says. */
module JsonParser {
  import opened Hex
  import opened JsonText
  import opened JsonGrammar
  import opened JsonScanner

  /** What is still to unescape, with what is already written in front. */
  function Append(done: string, rest: Option<string>): Option<string> {
    match rest
    case None => None
    case Some(s) => Some(done + s)
  }

  lemma AppendStep(done: string, c: char, rest: Option<string>)
    ensures Append(done, Prepend(c, rest)) == Append(done + [c], rest)
  {
    if rest.Some? {
      assert done + ([c] + rest.value) == done + [c] + rest.value;
    }
  }

  /** One step of the loop that removes the escapes. */
  lemma UnescapeStep(s: string, i: nat)
    requires i < |s|
    ensures var r := Unescape(s[i..]);
            if s[i] != '\\' then r == Prepend(s[i], Unescape(s[i + 1..]))
            else if i + 1 == |s| then r == None
            else if s[i + 1] == 'u' then
              if |s| - i < 6 then r == None
              else r == Prepend(FromHex(s[i + 4], s[i + 5]), Unescape(s[i + 6..]))
            else if Unshort(s[i + 1]).None? then r == None
            else r == Prepend(Unshort(s[i + 1]).value, Unescape(s[i + 2..]))
  {
    var t := s[i..];
    assert t[1..] == s[i + 1..];
    assert i + 2 <= |s| ==> t[2..] == s[i + 2..];
    assert i + 6 <= |s| ==> t[6..] == s[i + 6..];
  }

  lemma {:induction false} NothingToUnescape(s: string)
    requires '\\' !in s
    ensures Unescape(s) == Some(s)
  {
    if s != "" {
      NothingToUnescape(s[1..]);
      assert [s[0]] + s[1..] == s;
    }
  }

  /** The loop of parse_quoted_string: 0 and the text, or the index of the bad escape.  The output never
      outgrows a buffer of the token's length. */
  method RemoveEscapes(token: string) returns (err: nat, output: string)
    ensures err == 0 <==> Unescape(token).Some?
    ensures err == 0 ==> Unescape(token) == Some(output)
    ensures err <= |token|
  {
    hide Unescape, Unshort, FromHex, Prepend, Append;
    output := "";
    var ip := 0;
    assert token[0..] == token;
    AppendNothing(Unescape(token));
    while ip != |token|
      invariant ip <= |token| && |output| <= ip
      invariant Append(output, Unescape(token[ip..])) == Unescape(token)
      decreases |token| - ip
    {
      UnescapeStep(token, ip);
      if token[ip] != '\\' {
        AppendStep(output, token[ip], Unescape(token[ip + 1..]));
        output := output + [token[ip]];
        ip := ip + 1;
      } else {
        NoneIsLost(output, Unescape(token[ip..]));
        ip := ip + 1;
        if ip == |token| {
          return ip, output;
        }
        if token[ip] == 'u' {
          ip := ip + 1;
          if |token| - ip < 4 {
            return |token| - 1, output;
          }
          var c := FromHex(token[ip + 2], token[ip + 3]);
          AppendStep(output, c, Unescape(token[ip + 4..]));
          output := output + [c];
          ip := ip + 4;
        } else {
          var c := Unshort(token[ip]);
          if c.None? {
            return ip, output;
          }
          AppendStep(output, c.value, Unescape(token[ip + 1..]));
          output := output + [c.value];
          ip := ip + 1;
        }
      }
    }
    AllUnescaped(output, token[|token|..]);
    return 0, output;
  }

  lemma AppendNothing(r: Option<string>)
    ensures Append("", r) == r
  {
    if r.Some? {
      assert "" + r.value == r.value;
    }
  }

  lemma NoneIsLost(done: string, r: Option<string>)
    ensures r == None ==> Append(done, r) == None
  {
  }

  lemma AllUnescaped(done: string, s: string)
    requires s == ""
    ensures Append(done, Unescape(s)) == Some(done)
  {
    assert done + "" == done;
  }

  method ReadQuoted(sc: Scanner) returns (text: Option<string>)
    requires sc.Valid() && sc.Rest()[0] == '"'
    modifies sc
    ensures sc.Valid()
    ensures (if text.Some? then Parsed(text.value, sc.Rest()) else Failed) == ParseQuoted(old(sc.Rest()))
  {
    hide ClosingQuote, Skip, Unescape;
    ghost var r := sc.Rest();
    var ok, token := sc.Quoted();
    if !ok {
      return None;
    }
    assert token[1..|token| - 1] == r[1..ClosingQuote(r, 1, false).value];
    token := token[1..|token| - 1];
    if '\\' !in token {
      NothingToUnescape(token);
      return Some(token);
    }
    var err, output := RemoveEscapes(token);
    text := if err == 0 then Some(output) else None;
  }

  method ReadLead(sc: Scanner) returns (lead: Option<Lead>)
    requires sc.Valid()
    modifies sc
    ensures sc.Valid()
    ensures (if lead.Some? then Parsed(lead.value, sc.Rest()) else Failed) == ParseLead(old(sc.Rest()))
  {
    hide GetChar, GetUntil;
    if sc.text[sc.cur] != '"' {
      return Some(Lead("", ""));
    }
    var ok, c := sc.NextChar();
    if !ok {
      return None;
    }
    var token;
    ok, token := sc.UntilChar('"');
    if !ok {
      return None;
    }
    ok, c := sc.NextChar();
    if !ok {
      return None;
    }
    if sc.text[sc.cur] != ':' {
      return Some(Lead("", token));
    }
    ok, c := sc.NextChar();
    if !ok {
      return None;
    }
    return Some(Lead(token, ""));
  }

  method ReadNumber(sc: Scanner) returns (v: Option<Value>)
    requires sc.Valid()
    modifies sc
    ensures sc.Valid()
    ensures (if v.Some? then Parsed(v.value, sc.Rest()) else Failed) == ParseNumber(old(sc.Rest()))
  {
    hide GetChar, GetNumeral, Real;
    var neg := false;
    if sc.text[sc.cur] == '-' {
      var ok, c := sc.NextChar();
      if !ok {
        return None;
      }
      neg := true;
    }
    var ok, token := sc.Numeral();
    if !ok {
      return None;
    }
    var val := Real(token);
    v := Some(Number(if neg then -val else val));
  }

  method ReadLiteral(sc: Scanner) returns (v: Option<Value>)
    requires sc.Valid()
    modifies sc
    ensures sc.Valid()
    ensures (if v.Some? then Parsed(v.value, sc.Rest()) else Failed) == ParseLiteral(old(sc.Rest()))
  {
    hide Skip;
    var ok, same := sc.StartsWith("false");
    if !ok {
      return None;
    }
    if same {
      var token := sc.Take(sc.cur + 5);
      return Some(Bool(false));
    }
    ok, same := sc.StartsWith("true");
    if same {
      var token := sc.Take(sc.cur + 4);
      return Some(Bool(true));
    }
    ok, same := sc.StartsWith("null");
    if same {
      var token := sc.Take(sc.cur + 4);
      return Some(Null);
    }
    return None;
  }

  /** parse_elem_throw; None stands for its error returns and for a thrown syntax error. */
  method ReadElem(sc: Scanner) returns (e: Option<Elem>)
    requires sc.Valid()
    modifies sc
    ensures sc.Valid()
    ensures (if e.Some? then Parsed(e.value, sc.Rest()) else Failed) == ParseElem(old(sc.Rest()))
    decreases |sc.text| - sc.cur, 2
  {
    hide ParseLead, ParseValue;
    var lead := ReadLead(sc);
    if lead.None? {
      return None;
    }
    if lead.value.value != "" {
      return Some(Elem(lead.value.name, Str(lead.value.value)));
    }
    var v := ReadValue(sc);
    if v.None? {
      return None;
    }
    return Some(Elem(lead.value.name, v.value));
  }

  method ReadValue(sc: Scanner) returns (v: Option<Value>)
    requires sc.Valid()
    modifies sc
    ensures sc.Valid()
    ensures (if v.Some? then Parsed(v.value, sc.Rest()) else Failed) == ParseValue(old(sc.Rest()))
    decreases |sc.text| - sc.cur, 1
  {
    hide ParseNumber, ParseQuoted, ParseLiteral, ParseChildren, Skip;
    var c := sc.text[sc.cur];
    if IsNumeral(c) || c == '-' {
      v := ReadNumber(sc);
    } else if c == '"' {
      var text := ReadQuoted(sc);
      v := if text.Some? then Some(Str(text.value)) else None;
    } else if IsAlpha(c) {
      v := ReadLiteral(sc);
    } else if c == '[' {
      var list := ReadChildren(sc, ']');
      v := if list.Some? then Some(Array(list.value)) else None;
    } else if c == '{' {
      var list := ReadChildren(sc, '}');
      v := if list.Some? then Some(Object(list.value)) else None;
    } else {
      v := None;
    }
  }

  /** What is still to read of a list, with the children already read in front. */
  function Joining(done: seq<Elem>, rest: Parsed<seq<Elem>>): Parsed<seq<Elem>> {
    match rest
    case Failed => Failed
    case Parsed(list, r) => Parsed(done + list, r)
  }

  lemma ChildrenStep(done: seq<Elem>, r: string, end: char)
    requires Ended(r) && (end == ']' || end == '}')
    ensures SkipCommas(r)[0] == end ==>
              Joining(done, ParseChildren(r, end)) == Parsed(done, Skip(SkipCommas(r)[1..]))
    ensures SkipCommas(r)[0] != end ==>
              var p := ParseElem(SkipCommas(r));
              Joining(done, ParseChildren(r, end)) ==
              if p.Failed? then Failed else Joining(done + [p.value], ParseChildren(p.rest, end))
  {
    hide ParseElem, SkipCommas;
    assert done + [] == done;
    if SkipCommas(r)[0] != end && ParseElem(SkipCommas(r)).Parsed? {
      var e, r1 := ParseElem(SkipCommas(r)).value, ParseElem(SkipCommas(r)).rest;
      if ParseChildren(r1, end).Parsed? {
        assert done + ([e] + ParseChildren(r1, end).value) == done + [e] + ParseChildren(r1, end).value;
      }
    }
  }

  lemma ListEnds(done: seq<Elem>, r: string, end: char)
    requires Ended(r) && (end == ']' || end == '}') && r[0] == end
    ensures Joining(done, ParseChildren(r, end)) == Parsed(done, Skip(r[1..]))
  {
    ChildrenStep(done, r, end);
  }

  lemma NothingRead(p: Parsed<seq<Elem>>)
    ensures Joining([], p) == p
  {
    assert p.Parsed? ==> [] + p.value == p.value;
  }

  method SkipCommaChars(sc: Scanner)
    requires sc.Valid()
    modifies sc
    ensures sc.Valid() && sc.Rest() == SkipCommas(old(sc.Rest()))
  {
    hide Skip;
    while sc.text[sc.cur] == ','
      invariant sc.Valid() && SkipCommas(sc.Rest()) == SkipCommas(old(sc.Rest()))
      decreases |sc.text| - sc.cur
    {
      var ok, c := sc.NextChar();
    }
  }

  method ReadChildren(sc: Scanner, end: char) returns (list: Option<seq<Elem>>)
    requires sc.Valid() && (end == ']' || end == '}') && sc.Rest()[0] != '\0'
    modifies sc
    ensures sc.Valid()
    ensures (if list.Some? then Parsed(list.value, sc.Rest()) else Failed) == ParseChildren(Skip(old(sc.Rest())[1..]), end)
    decreases |sc.text| - sc.cur, 0
  {
    hide ParseChildren, ParseElem, SkipCommas, Skip, Joining;
    var ok, c := sc.NextChar();
    ghost var all := ParseChildren(sc.Rest(), end);
    var children := [];
    NothingRead(all);
    while sc.text[sc.cur] != end
      invariant sc.Valid() && |sc.text| - sc.cur < old(|sc.text| - sc.cur)
      invariant Joining(children, ParseChildren(sc.Rest(), end)) == all
      decreases |sc.text| - sc.cur
    {
      ChildrenStep(children, sc.Rest(), end);
      SkipCommaChars(sc);
      if sc.text[sc.cur] == end {
        ListEnds(children, sc.Rest(), end);
        break;
      }
      var child := ReadElem(sc);
      if child.None? {
        return None;
      }
      children := children + [child.value];
    }
    ListEnds(children, sc.Rest(), end);
    ok, c := sc.NextChar();
    list := Some(children);
  }

  /** pj_json_parse: the root, and the size that is left. */
  method ParseBuffer(buffer: string) returns (root: Option<Elem>, size: nat)
    ensures root.Some? ==> Parse(buffer).Parsed? && Parse(buffer).value == root.value && size == |Parse(buffer).rest| - 1
    ensures root.None? ==> Parse(buffer) == Failed
  {
    hide ParseElem, Skip;
    if buffer == "" {
      return None, 0;
    }
    var sc := new Scanner(buffer);
    root := ReadElem(sc);
    size := |sc.text| - 1 - sc.cur;
  }
}
