/** The output side of the chart builder: `StreamIteratorAdaptor` in
    chart.cc, an output iterator that holds back the most recently written
    character and hands it to the stream only when the iterator moves on or
    is destroyed, and the serialiser `_stringify_to` / `stringify_to` that
    writes a JSON tree through it one `*out++ = ch` at a time. */
module Stream {
  import opened JsonValue

  /** The adaptor. `sink` is everything the stream has received, `c` the
      character held back, `flushed` whether there is none held back. */
  class StreamIteratorAdaptor {
    var sink: seq<char>
    var c: char
    var flushed: bool

    /** The character held back, if any. */
    ghost function Pending(): seq<char>
      reads this
    {
      if flushed then [] else [c]
    }

    /** What the stream has received once the held-back character is
        handed over. */
    ghost function Written(): seq<char>
      reads this
    {
      sink + Pending()
    }

    /** Over a stream that has received `stream` so far: nothing is held
        back. */
    constructor (stream: seq<char>)
      ensures sink == stream && c == 0 as char && flushed
      ensures Written() == stream
    {
      sink, c, flushed := stream, 0 as char, true;
    }

    /** `*out = ch`: the proxy's assignment holds `ch` back. */
    method Set(ch: char)
      modifies this
      ensures sink == old(sink) && c == ch && !flushed
    {
      c, flushed := ch, false;
    }

    /** Prefix `++out`: hands over the held-back character, if any; nothing
        is held back afterwards. */
    method PreIncrement()
      modifies this
      ensures sink == old(Written()) && c == 0 as char && flushed
    {
      if !flushed {
        sink := sink + [c];
      }
      c, flushed := 0 as char, true;
    }

    /** Postfix `out++`: hands over the held-back character, if any, and
        then marks the character 0 as held back, which the assignment that
        follows it in `*out++ = ch` overwrites. */
    method PostIncrement()
      modifies this
      ensures sink == old(Written()) && c == 0 as char && !flushed
      ensures Written() == old(Written()) + [0 as char]
    {
      if !flushed {
        sink := sink + [c];
      }
      c, flushed := 0 as char, false;
    }

    /** The destructor: a held-back character is handed over. */
    method Destroy()
      modifies this
      ensures sink == old(Written()) && flushed
    {
      if !flushed {
        PreIncrement();
      }
    }

    /** `*out++ = ch`: the previous character reaches the stream and `ch`
        is held back. */
    method Put(ch: char)
      modifies this
      ensures sink == old(Written()) && c == ch && !flushed
      ensures Written() == old(Written()) + [ch]
    {
      PostIncrement();
      Set(ch);
    }
  }

  /** `for (char c : s) *out++ = c;`, the loop every case of the serialiser
      uses for literal text. */
  method PutAll(out: StreamIteratorAdaptor, s: string)
    modifies out
    ensures out.Written() == old(out.Written()) + s
    ensures s == [] ==> out.sink == old(out.sink) && out.flushed == old(out.flushed)
    ensures s != [] ==> !out.flushed && out.c == s[|s| - 1]
  {
    var i := 0;
    while i < |s|
      invariant 0 <= i <= |s|
      invariant out.Written() == old(out.Written()) + s[..i]
      invariant i == 0 ==> out.sink == old(out.sink) && out.flushed == old(out.flushed)
      invariant i > 0 ==> !out.flushed && out.c == s[i - 1]
    {
      out.Put(s[i]);
      i := i + 1;
    }
    assert s[..i] == s;
  }

  /** `n` writes through a fresh adaptor followed by its destruction: the
      stream receives exactly the written characters, in order, and nothing
      when there were none. */
  method Emit(stream: seq<char>, text: string) returns (received: seq<char>)
    ensures received == stream + text
  {
    var out := new StreamIteratorAdaptor(stream);
    PutAll(out, text);
    out.Destroy();
    received := out.sink;
  }

  /** One more element after the ones written so far: the text grows by the
      separator, a comma unless it is the first element, and the element's
      text. */
  lemma JoinedStep(prefix: string, texts: seq<string>, i: nat, sep: string)
    requires i < |texts| && sep == (if i > 0 then "," else "")
    ensures prefix + Join(texts[..i]) + sep + texts[i] == prefix + Join(texts[..i + 1])
  {
    JoinSnoc(texts, i);
  }

  /** `_stringify_to`: writes the text of `j`. */
  method StringifyTo(j: Json, num: real -> string, out: StreamIteratorAdaptor)
    modifies out
    ensures out.Written() == old(out.Written()) + Stringify(j, num)
    decreases j, 1
  {
    match j
    case Num(x) =>
      PutAll(out, num(x));
    case Bool(b) =>
      PutAll(out, if b then "true" else "false");
    case Null =>
      PutAll(out, "null");
    case Str(s) =>
      ghost var start := out.Written();
      out.Put('"');
      PutAll(out, s);
      out.Put('"');
      assert out.Written() == start + ("\"" + s + "\"");
    case Arr(_) =>
      ArrayTo(j, num, out);
    case Obj(_) =>
      ObjectTo(j, num, out);
  }

  /** Text written between an opening and a closing character. */
  lemma Bracketed(start: string, open: char, mid: string, close: char, body: string, written: string)
    requires body == start + [open] + mid && written == body + [close]
    ensures written == start + ([open] + mid + [close])
  {
  }

  /** The array case: brackets around the elements, with a comma before
      every element after the first. */
  method ArrayTo(j: Json, num: real -> string, out: StreamIteratorAdaptor)
    requires j.Arr?
    modifies out
    ensures out.Written() == old(out.Written()) + Stringify(j, num)
    decreases j, 0
  {
    ghost var start := out.Written();
    out.Put('[');
    ElementsTo(j, num, out);
    ghost var body := out.Written();
    out.Put(']');
    Bracketed(start, '[', Join(ItemTexts(j.items, num)), ']', body, out.Written());
    ArrayText(j, num);
  }

  /** The loop over the elements: their texts, joined by commas. */
  method ElementsTo(j: Json, num: real -> string, out: StreamIteratorAdaptor)
    requires j.Arr?
    modifies out
    ensures out.Written() == old(out.Written()) + Join(ItemTexts(j.items, num))
    decreases j, 0, 1
  {
    ghost var start := out.Written();
    ghost var texts := ItemTexts(j.items, num);
    var nfirst := false;
    var i := 0;
    assert texts[..0] == [];
    while i < |j.items|
      invariant 0 <= i <= |j.items| && nfirst == (i > 0)
      invariant out.Written() == start + Join(texts[..i])
    {
      ghost var sep := if nfirst then "," else "";
      ElementTo(j, i, nfirst, num, out);
      nfirst := true;
      JoinedStep(start, texts, i, sep);
      i := i + 1;
    }
    assert texts[..i] == texts;
  }

  /** One pass of the array loop: a comma unless this is the first
      element, then the element. */
  method ElementTo(j: Json, i: nat, nfirst: bool, num: real -> string, out: StreamIteratorAdaptor)
    requires j.Arr? && i < |j.items|
    modifies out
    ensures out.Written() == old(out.Written()) + (if nfirst then "," else "") + ItemTexts(j.items, num)[i]
    decreases j, 0, 0
  {
    if nfirst {
      out.Put(',');
    }
    StringifyTo(j.items[i], num, out);
  }

  /** The object case: braces around the entries, with a comma before
      every entry after the first. */
  method ObjectTo(j: Json, num: real -> string, out: StreamIteratorAdaptor)
    requires j.Obj?
    modifies out
    ensures out.Written() == old(out.Written()) + Stringify(j, num)
    decreases j, 0
  {
    ghost var start := out.Written();
    out.Put('{');
    MembersTo(j, num, out);
    ghost var body := out.Written();
    out.Put('}');
    Bracketed(start, '{', Join(EntryTexts(j.members, num)), '}', body, out.Written());
    ObjectText(j, num);
  }

  /** The loop over the entries: their texts, joined by commas. */
  method MembersTo(j: Json, num: real -> string, out: StreamIteratorAdaptor)
    requires j.Obj?
    modifies out
    ensures out.Written() == old(out.Written()) + Join(EntryTexts(j.members, num))
    decreases j, 0, 1
  {
    ghost var start := out.Written();
    ghost var texts := EntryTexts(j.members, num);
    var nfirst := false;
    var i := 0;
    assert texts[..0] == [];
    while i < |j.members|
      invariant 0 <= i <= |j.members| && nfirst == (i > 0)
      invariant out.Written() == start + Join(texts[..i])
    {
      ghost var sep := if nfirst then "," else "";
      MemberTo(j, i, nfirst, num, out);
      nfirst := true;
      JoinedStep(start, texts, i, sep);
      i := i + 1;
    }
    assert texts[..i] == texts;
  }

  /** One pass of the object loop: a comma unless this is the first
      entry, then the entry. */
  method MemberTo(j: Json, i: nat, nfirst: bool, num: real -> string, out: StreamIteratorAdaptor)
    requires j.Obj? && i < |j.members|
    modifies out
    ensures out.Written() == old(out.Written()) + (if nfirst then "," else "") + EntryTexts(j.members, num)[i]
    decreases j, 0, 0
  {
    if nfirst {
      out.Put(',');
    }
    EntryTo(j.members[i], num, out);
  }

  /** One object entry: the key in quotes, a colon, the value. */
  method EntryTo(m: Member, num: real -> string, out: StreamIteratorAdaptor)
    modifies out
    ensures out.Written() == old(out.Written()) + EntryText(m, num)
    decreases m
  {
    ghost var start := out.Written();
    out.Put('"');
    PutAll(out, m.key);
    out.Put('"');
    out.Put(':');
    assert out.Written() == start + "\"" + m.key + "\":";
    StringifyTo(m.value, num, out);
  }

  /** `stringify_to` over a fresh adaptor for a stream, with the adaptor
      destroyed at the end: the stream receives exactly the text of `j`. */
  method StringifyToStream(j: Json, num: real -> string, stream: seq<char>) returns (received: seq<char>)
    ensures received == stream + Stringify(j, num)
  {
    var out := new StreamIteratorAdaptor(stream);
    StringifyTo(j, num, out);
    out.Destroy();
    received := out.sink;
  }
}
