/** The scanner of scanner.c as json.c uses it: blanks and new lines are skipped, and an error ends the parse. */
module JsonScanner {
  import opened JsonGrammar

  /** How many backslashes stand just before i, not counting the first character. */
  ghost function Backslashes(r: string, i: nat): (n: nat)
    requires i <= |r|
    ensures n <= i
  {
    if i <= 1 || r[i - 1] != '\\' then 0 else 1 + Backslashes(r, i - 1)
  }

  /** The scan for the closing quote, resumed at i. */
  ghost function From(r: string, i: nat): Option<nat>
    requires Ended(r) && 1 <= i < |r|
  {
    ClosingQuote(r, i, Backslashes(r, i) % 2 == 1)
  }

  lemma PassCharacter(r: string, i: nat)
    requires Ended(r) && 1 <= i < |r| - 1 && r[i] != '\n' && (r[i] == '"' ==> Backslashes(r, i) % 2 == 1)
    ensures From(r, i) == From(r, i + 1)
  {
  }

  /** At a character that ends the scan. */
  lemma QuoteHere(r: string, i: nat)
    requires Ended(r) && 1 <= i < |r| && r[0] == '"'
    ensures i == |r| - 1 || r[i] == '\n' ==> From(r, i) == None
    ensures i < |r| - 1 && r[i] == '"' && Backslashes(r, i) % 2 == 0 ==> From(r, i) == Some(i)
    ensures From(r, 1) == ClosingQuote(r, 1, false)
  {
  }

  lemma SkipStep(t: string, s: nat)
    requires s < |t|
    ensures Skip(t[s..]) == if IsBlank(t[s]) then Skip(t[s + 1..]) else t[s..]
  {
    assert t[s..][1..] == t[s + 1..];
  }

  lemma UntilStep(t: string, s: nat, c: char)
    requires s < |t| && Ended(t)
    ensures Until(t[s..], c) == if s == |t| - 1 || t[s] == c then 0 else 1 + Until(t[s + 1..], c)
  {
    assert s < |t| - 1 ==> t[s..][1..] == t[s + 1..];
  }

  lemma NumeralStep(t: string, s: nat)
    requires s < |t| && Ended(t)
    ensures NumeralLen(t[s..]) == if IsNumeral(t[s]) then 1 + NumeralLen(t[s + 1..]) else 0
  {
    assert s < |t| - 1 ==> t[s..][1..] == t[s + 1..];
  }

  lemma Slices(t: string, a: nat, b: nat)
    requires a <= b <= |t|
    ensures t[a..][..b - a] == t[a..b] && t[a..][b - a..] == t[b..]
  {
  }

  class Scanner {
    const text: string
    var cur: nat

    ghost predicate Valid()
      reads this
    {
      cur < |text| && Ended(text)
    }

    ghost function Rest(): (r: string)
      requires Valid()
      reads this
      ensures Ended(r)
    {
      text[cur..]
    }

    /** pj_scan_init: the buffer and the zero byte after it. */
    constructor (buffer: string)
      ensures Valid() && Rest() == Skip(buffer + "\0")
    {
      text := buffer + "\0";
      cur := 0;
      new;
      assert text[0..] == text;
      SkipWhitespace();
    }

    method SkipWhitespace()
      requires Valid()
      modifies this
      ensures Valid() && Rest() == Skip(old(Rest()))
    {
      hide Skip;
      var s := cur;
      while text[s] == ' ' || text[s] == '\t'
        invariant cur <= s < |text| && Skip(text[s..]) == Skip(old(Rest()))
        decreases |text| - s
      {
        SkipStep(text, s);
        s := s + 1;
      }
      if text[s] == '\r' || text[s] == '\n' {
        while true
          invariant s < |text| && Skip(text[s..]) == Skip(old(Rest()))
          decreases |text| - s
        {
          SkipStep(text, s);
          if text[s] == '\r' {
            s := s + 1;
            SkipStep(text, s);
            if text[s] == '\n' {
              s := s + 1;
            }
          } else if text[s] == '\n' {
            s := s + 1;
          } else if text[s] == ' ' || text[s] == '\t' {
            s := s + 1;
            while text[s] == ' ' || text[s] == '\t'
              invariant s < |text| && Skip(text[s..]) == Skip(old(Rest()))
              decreases |text| - s
            {
              SkipStep(text, s);
              s := s + 1;
            }
          } else {
            break;
          }
        }
      }
      SkipStep(text, s);
      cur := s;
    }

    /** Blanks are skipped after each token, if the next character may be one.  Bytes from 128 on are negative. */
    method AutoSkip()
      requires Valid()
      modifies this
      ensures Valid() && Rest() == Skip(old(Rest()))
    {
      if text[cur] as int <= 32 || text[cur] as int >= 128 {
        SkipWhitespace();
      }
    }

    method NextChar() returns (ok: bool, c: char)
      requires Valid()
      modifies this
      ensures Valid() && (if ok then Parsed(c, Rest()) else Failed) == GetChar(old(Rest()))
    {
      hide Skip;
      c := text[cur];
      if c == '\0' {
        return false, c;
      }
      Slices(text, cur, cur + 1);
      cur := cur + 1;
      AutoSkip();
      ok := true;
    }

    /** The token up to s; the cursor goes there and skips blanks. */
    method Take(s: nat) returns (token: string)
      requires Valid() && cur <= s < |text|
      modifies this
      ensures Valid() && token == old(Rest()[..s - cur]) && Rest() == Skip(old(Rest()[s - cur..]))
    {
      token := text[cur..s];
      Slices(text, cur, s);
      cur := s;
      AutoSkip();
    }

    /** pj_scan_strcmp. */
    method StartsWith(word: string) returns (ok: bool, same: bool)
      requires Valid()
      ensures ok == (|word| < |Rest()|) && (ok ==> same == (Rest()[..|word|] == word))
    {
      if cur + |word| > |text| - 1 {
        return false, false;
      }
      Slices(text, cur, cur + |word|);
      same := text[cur..cur + |word|] == word;
      ok := true;
    }

    method UntilChar(c: char) returns (ok: bool, token: string)
      requires Valid()
      modifies this
      ensures Valid() && (if ok then Parsed(token, Rest()) else Failed) == GetUntil(old(Rest()), c)
    {
      hide Skip;
      if cur >= |text| - 1 {
        return false, "";
      }
      var s := FindChar(c);
      token := Take(s);
      ok := true;
    }

    method FindChar(c: char) returns (s: nat)
      requires Valid()
      ensures cur <= s < |text| && s - cur == Until(Rest(), c)
    {
      hide Until;
      s := cur;
      while s != |text| - 1 && text[s] != c
        invariant cur <= s < |text| && Until(Rest(), c) == s - cur + Until(text[s..], c)
      {
        UntilStep(text, s, c);
        s := s + 1;
      }
      UntilStep(text, s, c);
    }

    method Numeral() returns (ok: bool, token: string)
      requires Valid()
      modifies this
      ensures Valid() && (if ok then Parsed(token, Rest()) else Failed) == GetNumeral(old(Rest()))
    {
      hide NumeralLen, Skip;
      NumeralStep(text, cur);
      if !IsNumeral(text[cur]) {
        return false, "";
      }
      var s := FindNonNumeral();
      token := Take(s);
      ok := true;
    }

    method FindNonNumeral() returns (s: nat)
      requires Valid()
      ensures cur <= s < |text| && s - cur == NumeralLen(Rest())
    {
      hide NumeralLen;
      s := cur;
      while IsNumeral(text[s])
        invariant cur <= s < |text| && NumeralLen(Rest()) == s - cur + NumeralLen(text[s..])
        decreases |text| - s
      {
        NumeralStep(text, s);
        s := s + 1;
      }
      NumeralStep(text, s);
    }

    /** pj_scan_get_quotes for the double quote. */
    method Quoted() returns (ok: bool, token: string)
      requires Valid() && Rest()[0] == '"'
      modifies this
      ensures Valid() && ok == ClosingQuote(old(Rest()), 1, false).Some?
      ensures ok ==> var k := ClosingQuote(old(Rest()), 1, false).value;
                     token == old(Rest())[..k + 1] && Rest() == Skip(old(Rest())[k + 1..])
    {
      hide ClosingQuote, Skip;
      var s;
      ok, s := FindQuote();
      if !ok {
        return false, "";
      }
      token := Take(s + 1);
    }

    /** A quote ends the string unless an odd number of backslashes stands before it. */
    method FindQuote() returns (ok: bool, s: nat)
      requires Valid() && Rest()[0] == '"'
      ensures ok ==> cur < s < |text| - 1
      ensures (if ok then Some(s - cur) else None) == ClosingQuote(Rest(), 1, false)
    {
      hide ClosingQuote, Backslashes, From;
      ghost var r := Rest();
      s := cur + 1;
      while true
        invariant cur < s < |text| && From(r, 1) == From(r, s - cur)
        decreases |text| - s
      {
        while s != |text| - 1 && text[s] != '\n' && text[s] != '"'
          invariant cur < s < |text| && From(r, 1) == From(r, s - cur)
        {
          PassCharacter(r, s - cur);
          s := s + 1;
        }
        QuoteHere(r, s - cur);
        if text[s] != '"' {
          return false, s;
        }
        var escaped := EscapedAt(s);
        if !escaped {
          return true, s;
        }
        PassCharacter(r, s - cur);
        s := s + 1;
      }
    }

    /** The parity of the backslashes before the quote at s. */
    method EscapedAt(s: nat) returns (escaped: bool)
      requires Valid() && text[cur] == '"' && cur < s < |text| - 1
      ensures escaped == (Backslashes(text[cur..], s - cur) % 2 == 1)
    {
      if text[s - 1] != '\\' {
        return false;
      }
      var q := s - 2;
      var r := q;
      while r != 0 && text[r] == '\\'
        invariant cur <= r <= q
        invariant Backslashes(text[cur..], s - cur - 1) == q - r + Backslashes(text[cur..], r + 1 - cur)
      {
        r := r - 1;
      }
      escaped := (q - r) % 2 != 1;
    }
  }
}
