/** The writer of json.c into a buffer of fixed size, proved to write what JsonText says, or to fail exactly when
    the text and its terminating zero byte leave no byte of the buffer unused. */
module JsonWriter {
  import opened JsonText

  const ESC_BUF_LEN := 64

  lemma {:induction false} EscapeAllAppends(a: string, b: string)
    ensures EscapeAll(a + b) == EscapeAll(a) + EscapeAll(b)
  {
    if a == "" {
      assert a + b == b;
    } else {
      assert (a + b)[1..] == a[1..] + b;
      EscapeAllAppends(a[1..], b);
    }
  }

  lemma EscapeOne(value: string, i: nat, j: nat)
    requires i <= j < |value|
    ensures EscapeAll(value[i..j + 1]) == EscapeAll(value[i..j]) + Escape(value[j])
  {
    assert value[i..j + 1] == value[i..j] + [value[j]];
    EscapeAllAppends(value[i..j], [value[j]]);
    assert EscapeAll([value[j]]) == Escape(value[j]) + EscapeAll([value[j]][1..]);
  }

  lemma EscapePart(value: string, i: nat, j: nat)
    requires i <= j <= |value|
    ensures EscapeAll(value[..j]) == EscapeAll(value[..i]) + EscapeAll(value[i..j])
    ensures |EscapeAll(value[..j])| <= |EscapeAll(value)|
  {
    assert value[..j] == value[..i] + value[i..j] && value == value[..j] + value[j..];
    EscapeAllAppends(value[..i], value[i..j]);
    EscapeAllAppends(value[..j], value[j..]);
  }

  /** The inner loop of write_string_escaped: as many characters as fit into the chunk, at least one. */
  method FillChunk(value: string, start: nat, chunk: array<char>) returns (ip: nat, op: nat)
    requires start < |value| && chunk.Length == ESC_BUF_LEN
    modifies chunk
    ensures start < ip <= |value| && op <= ESC_BUF_LEN
    ensures chunk[..op] == EscapeAll(value[start..ip])
  {
    hide EscapeAll;
    ip, op := start, 0;
    EscapePart(value, start, start);
    NothingEscaped(value[start..start]);
    while ip != |value| && op != ESC_BUF_LEN
      invariant start <= ip <= |value| && op <= ESC_BUF_LEN && (ip == start ==> op == 0)
      invariant chunk[..op] == EscapeAll(value[start..ip])
    {
      if ESC_BUF_LEN - op < 2 {
        break;
      }
      var e := Escape(value[ip]);
      if ESC_BUF_LEN - op < |e| {
        break;
      }
      EscapeOne(value, start, ip);
      op := Append(chunk, op, e);
      ip := ip + 1;
    }
  }

  lemma NothingEscaped(s: string)
    requires s == ""
    ensures EscapeAll(s) == ""
  {
  }

  method Append(chunk: array<char>, op: nat, e: string) returns (end: nat)
    requires op + |e| <= chunk.Length
    modifies chunk
    ensures end == op + |e| && chunk[..end] == old(chunk[..op]) + e
  {
    end := op + |e|;
    forall i | 0 <= i < |e| {
      chunk[op + i] := e[i];
    }
  }

  class Writer {
    const buffer: array<char>
    var pos: nat
    var size: nat
    var indent: nat

    ghost predicate Valid()
      reads this
    {
      pos + size == buffer.Length
    }

    ghost function Written(): string
      requires Valid()
      reads this, buffer
    {
      buffer[..pos]
    }

    /** The text s was written, or did not fit. */
    twostate predicate Wrote(s: string, ok: bool)
      requires old(Valid())
      reads this, buffer
    {
      && Valid() && indent == old(indent)
      && (ok <==> |s| + 1 < old(size))
      && (ok ==> Written() == old(Written()) + s && size == old(size) - |s|)
    }

    constructor (buf: array<char>)
      ensures Valid() && buffer == buf && pos == 0 && indent == 0
    {
      buffer, pos, size, indent := buf, 0, buf.Length, 0;
    }

    /** buf_writer. */
    method Put(s: string) returns (ok: bool)
      requires Valid()
      modifies this, buffer
      ensures Wrote(s, ok)
    {
      if |s| + 1 >= size {
        return false;
      }
      pos := Append(buffer, pos, s);
      size := size - |s|;
      ok := true;
    }

    method WriteStringEscaped(value: string) returns (ok: bool)
      requires Valid() && size > 1
      modifies this, buffer
      ensures Wrote(EscapeAll(value), ok)
    {
      hide EscapeAll;
      var ip := 0;
      var chunk := new char[ESC_BUF_LEN];
      NothingEscaped(value[..0]);
      assert Written() + "" == Written();
      while ip != |value|
        invariant Valid() && fresh(chunk) && indent == old(indent) && size > 1 && ip <= |value|
        invariant Written() == old(Written()) + EscapeAll(value[..ip])
        invariant size == old(size) - |EscapeAll(value[..ip])|
        decreases |value| - ip
      {
        var i := ip;
        var op;
        ip, op := FillChunk(value, i, chunk);
        EscapePart(value, i, ip);
        Regroup(old(Written()), EscapeAll(value[..i]), EscapeAll(value[i..ip]));
        ok := Put(chunk[..op]);
        if !ok {
          return false;
        }
      }
      assert value[..|value|] == value;
      ok := true;
    }

    /** One more part of a text of which `done` is written since `start`. */
    method PutNext(ghost start: string, ghost done: string, s: string) returns (ok: bool)
      requires Valid() && Written() == start + done
      modifies this, buffer
      ensures Wrote(s, ok) && (ok ==> Written() == start + (done + s))
    {
      ok := Put(s);
      Regroup(start, done, s);
    }

    /** The indentation, then the name unless it is suppressed. */
    method WriteName(name: string, noName: bool) returns (ok: bool)
      requires Valid() && name != "" && indent <= MAX_INDENT
      modifies this, buffer
      ensures Wrote(NameText(name, indent, noName), ok)
    {
      hide EscapeAll;
      ghost var start, done := Written(), Spaces(indent);
      ok := Put(Spaces(indent));
      if !ok || noName {
        return;
      }
      ok := PutNext(start, done, "\"");
      if !ok {
        return;
      }
      done := done + "\"";
      ok := WriteStringEscaped(name);
      if !ok {
        return;
      }
      Regroup(start, done, EscapeAll(name));
      done := done + EscapeAll(name);
      ok := PutNext(start, done, "\": ");
      if !ok {
        return;
      }
      done := done + "\": ";
      if |name| < NAME_MIN_LEN {
        ok := PutNext(start, done, Spaces(NAME_MIN_LEN - |name|));
      } else {
        assert done + Spaces(0) == done;
      }
    }

    /** elem_write. */
    method WriteElem(e: Elem, noName: bool) returns (ok: bool)
      requires Valid() && indent <= MAX_INDENT && Writable(e.value, indent)
      modifies this, buffer
      ensures Wrote(ElemText(e, indent, noName), ok)
      decreases e, 0
    {
      hide NameText, ValueText, Writable;
      if e.name != "" {
        ok := WriteName(e.name, noName);
        if !ok {
          return;
        }
      } else {
        NoNameText(indent, noName);
        assert Written() + "" == Written();
      }
      ghost var start := old(Written());
      Regroup(start, NameText(e.name, indent, noName), ValueText(e.value, indent));
      ok := WriteValue(e.value);
    }

    lemma NoNameText(indent: nat, noName: bool)
      ensures NameText("", indent, noName) == ""
    {
    }

    method WriteValue(v: Value) returns (ok: bool)
      requires Valid() && indent <= MAX_INDENT && Writable(v, indent)
      modifies this, buffer
      ensures Wrote(ValueText(v, indent), ok)
      decreases v, 2
    {
      hide IntText, EscapeAll, ChildrenText;
      match v {
        case Null =>
          ok := Put("null");
        case Bool(isTrue) =>
          ok := Put(if isTrue then "true" else "false");
        case Number(num) =>
          ok := Put(IntText(num.Floor));
        case Str(text) =>
          ok := WriteQuoted(text);
        case Array(children) =>
          ok := WriteChildren(children, true, '[', ']');
        case Object(children) =>
          ok := WriteChildren(children, false, '{', '}');
      }
    }

    method WriteQuoted(text: string) returns (ok: bool)
      requires Valid()
      modifies this, buffer
      ensures Wrote("\"" + EscapeAll(text) + "\"", ok)
    {
      hide EscapeAll;
      ghost var start := Written();
      ok := Put("\"");
      if !ok {
        return;
      }
      ok := WriteStringEscaped(text);
      if !ok {
        return;
      }
      Regroup(start, "\"", EscapeAll(text));
      ok := PutNext(start, "\"" + EscapeAll(text), "\"");
    }

    /** write_children. */
    method WriteChildren(list: seq<Elem>, noName: bool, open: char, close: char) returns (ok: bool)
      requires Valid() && indent <= MAX_INDENT && Deeper(list, indent) <= MAX_INDENT
      requires forall e <- list :: Writable(e.value, Deeper(list, indent))
      modifies this, buffer
      ensures Wrote([open, ' '] + ChildrenText(list, indent, noName) + [close], ok)
      decreases list, 3
    {
      hide Writable, ChildrenText;
      ghost var start := Written();
      ok := Put([open]);
      if !ok {
        return;
      }
      ok := PutNext(start, [open], " ");
      if !ok {
        return;
      }
      assert [open] + " " == [open, ' '];
      if list != [] {
        ok := WriteList(list, noName);
        if !ok {
          return;
        }
      } else {
        NoChildren(indent, noName);
        assert Written() + "" == Written();
      }
      Regroup(start, [open, ' '], ChildrenText(list, indent, noName));
      ok := PutNext(start, [open, ' '] + ChildrenText(list, indent, noName), [close]);
    }

    lemma NoChildren(indent: nat, noName: bool)
      ensures ChildrenText([], indent, noName) == ""
    {
    }

    method WriteList(list: seq<Elem>, noName: bool) returns (ok: bool)
      requires Valid() && list != [] && indent <= MAX_INDENT && Deeper(list, indent) <= MAX_INDENT
      requires forall e <- list :: Writable(e.value, Deeper(list, indent))
      modifies this, buffer
      ensures Wrote(ChildrenText(list, indent, noName), ok)
      decreases list, 2
    {
      hide Writable, Joined;
      if list[0].name == "" {
        ok := WriteJoined(list, noName, ", ", "");
      } else {
        ghost var start := Written();
        var outer := indent;
        if indent < MAX_INDENT {
          indent := indent + INDENT_SIZE;
        }
        ok := Put("\n");
        if ok {
          ok := WriteJoined(list, noName, ",\n", "\n");
        }
        indent := outer;
        if !ok {
          return;
        }
        ghost var j := Joined(list, Deeper(list, indent), noName, ",\n", "\n");
        Regroup(start, "\n", j);
        ok := PutNext(start, "\n" + j, Spaces(indent));
      }
    }

    /** The two loops of write_children. */
    method WriteJoined(list: seq<Elem>, noName: bool, separator: string, last: string) returns (ok: bool)
      requires Valid() && list != [] && indent <= MAX_INDENT && forall e <- list :: Writable(e.value, indent)
      modifies this, buffer
      ensures Wrote(Joined(list, indent, noName, separator, last), ok)
      decreases list, 1
    {
      hide Writable, ElemText, Joined;
      ghost var start, done, all := Written(), "", Joined(list, indent, noName, separator, last);
      var i := 0;
      assert list[0..] == list && start + "" == start && "" + all == all;
      while i < |list|
        invariant Valid() && indent == old(indent) && i <= |list|
        invariant Written() == start + done && size == old(size) - |done| && (i > 0 ==> size > 1)
        invariant all == done + if i == |list| then "" else Joined(list[i..], indent, noName, separator, last)
      {
        JoinedStep(list, i, indent, noName, separator, last, done);
        ok := WriteElem(list[i], noName);
        if !ok {
          return;
        }
        Regroup(start, done, ElemText(list[i], indent, noName));
        done := done + ElemText(list[i], indent, noName);
        var s := if i + 1 < |list| then separator else last;
        if s != "" {
          ok := PutNext(start, done, s);
          if !ok {
            return;
          }
        } else {
          assert done + s == done;
        }
        done := done + s;
        i := i + 1;
      }
      assert done + "" == done;
      ok := true;
    }

    lemma JoinedStep(list: seq<Elem>, i: nat, indent: nat, noName: bool, separator: string, last: string, done: string)
      requires i < |list|
      ensures done + Joined(list[i..], indent, noName, separator, last) ==
              if i + 1 == |list| then done + ElemText(list[i], indent, noName) + last
              else done + ElemText(list[i], indent, noName) + separator + Joined(list[i + 1..], indent, noName, separator, last)
    {
      hide ElemText;
      var t := ElemText(list[i], indent, noName);
      assert list[i..][1..] == list[i + 1..];
      if i + 1 == |list| {
        Regroup(done, t, last);
      } else {
        var more := Joined(list[i + 1..], indent, noName, separator, last);
        Regroup(done + t, separator, more);
        Regroup(done, t, separator + more);
      }
    }
  }

  /** pj_json_write: the text and a zero byte, if the buffer has room for both and one more. */
  method WriteBuffer(root: Elem, buf: array<char>) returns (ok: bool, len: nat)
    requires Writable(root.value, 0)
    modifies buf
    ensures ok <==> |ElemText(root, 0, false)| + 1 < buf.Length
    ensures ok ==> len == |ElemText(root, 0, false)| && buf[..len] == ElemText(root, 0, false) && buf[len] == '\0'
  {
    hide ElemText, Writable;
    var w := new Writer(buf);
    assert w.Written() == "";
    ok := w.WriteElem(root, false);
    len := w.pos;
    if ok {
      assert "" + ElemText(root, 0, false) == ElemText(root, 0, false);
      buf[len] := '\0';
    }
  }
}
