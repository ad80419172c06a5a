/**
 Go's strconv.Quote, and the part of TOML v1.0.0 it is used to write: comments, bare keys, basic
 strings and one-line arrays of basic strings.
 */
module Toml {
  import opened Options
  import opened Hex
  import opened Strings

  // ----- strconv.Quote -----

  /** `isPrint` decides for what is not ASCII, as unicode.IsPrint does. */
  predicate Printable(c: char, isPrint: char -> bool) {
    if c < '\U{80}' then ' ' <= c <= '~' else isPrint(c)
  }

  function Escape(c: char, isPrint: char -> bool): string {
    if c == '\"' || c == '\\' then ['\\', c]
    else if Printable(c, isPrint) then [c]
    else match c
      case '\U{7}' => "\\a"
      case '\U{8}' => "\\b"
      case '\U{c}' => "\\f"
      case '\n' => "\\n"
      case '\r' => "\\r"
      case '\t' => "\\t"
      case '\U{b}' => "\\v"
      case _ =>
        if c < ' ' || c == '\U{7f}' then "\\x" + ToHex(c as nat, 2)
        else if c < '\U{10000}' then "\\u" + ToHex(c as nat, 4)
        else "\\U" + ToHex(c as nat, 8)
  }

  function Escaped(s: string, isPrint: char -> bool): string {
    if s == "" then "" else Escape(s[0], isPrint) + Escaped(s[1..], isPrint)
  }

  function Quote(s: string, isPrint: char -> bool): string { "\"" + Escaped(s, isPrint) + "\"" }

  // ----- Basic strings -----

  datatype Read<T> = Read(value: T, rest: string)

  function ShortEscape(c: char): Option<char> {
    match c
    case '\"' => Some('\"')
    case '\\' => Some('\\')
    case 'b' => Some('\U{8}')
    case 'f' => Some('\U{c}')
    case 'n' => Some('\n')
    case 'r' => Some('\r')
    case 't' => Some('\t')
    case _ => None
  }

  /** A character that needs no escape: any but the quote, the backslash and controls other than tab. */
  predicate IsUnescaped(c: char) {
    c == '\t' || (' ' <= c && c != '\"' && c != '\\' && c != '\U{7f}')
  }

  function ReadScalar(s: string, width: nat): Option<Read<char>>
    requires |s| >= 2
  {
    var n := if |s| >= 2 + width then FromHex(s[2..2 + width]) else None;
    if n.Some? && (n.value < 0xD800 || 0xE000 <= n.value < 0x11_0000) then Some(Read(n.value as char, s[2 + width..])) else None
  }

  function ReadChar(s: string): (r: Option<Read<char>>)
    ensures r.Some? ==> |r.value.rest| < |s|
  {
    if s == "" then None
    else if IsUnescaped(s[0]) then Some(Read(s[0], s[1..]))
    else if s[0] != '\\' || |s| < 2 then None
    else if s[1] == 'u' then ReadScalar(s, 4)
    else if s[1] == 'U' then ReadScalar(s, 8)
    else
      var short := ShortEscape(s[1]);
      if short.Some? then Some(Read(short.value, s[2..])) else None
  }

  /** The rest of a basic string whose opening quote has been read. */
  function ReadString(s: string): (r: Option<Read<string>>)
    ensures r.Some? ==> |r.value.rest| < |s|
    decreases |s|
  {
    if s != "" && s[0] == '\"' then Some(Read("", s[1..]))
    else
      var c := ReadChar(s);
      if c.None? then None
      else
        var more := ReadString(c.value.rest);
        if more.None? then None else Some(Read([c.value.value] + more.value.value, more.value.rest))
  }

  /** The characters Quote writes with an escape TOML does not have: \a, \v and \x. */
  predicate IsUnwritable(c: char) {
    (c < ' ' && c !in {'\U{8}', '\t', '\n', '\U{c}', '\r'}) || c == '\U{7f}'
  }

  predicate Writable(s: string) { forall c <- s :: !IsUnwritable(c) }

  lemma HexEscapeRoundTrip(c: char, letter: char, width: nat, rest: string)
    requires (width == 4 && c < '\U{10000}') || width == 8
    ensures ReadScalar(['\\', letter] + ToHex(c as nat, width) + rest, width) == Some(Read(c, rest))
  {
    assert Power(4) == 0x1_0000 && Power(8) >= 0x11_0000 by {
      assert Power(1) == 16 && Power(2) == 256 && Power(3) == 4096;
      assert Power(4) == 65536 && Power(5) == 1048576 && Power(6) == 16777216;
      assert Power(7) == 16 * Power(6) && Power(8) == 16 * Power(7);
    }
    HexRoundTrip(c as nat, width);
    var s := ['\\', letter] + ToHex(c as nat, width) + rest;
    assert s[2..2 + width] == ToHex(c as nat, width) && s[2 + width..] == rest;
  }

  lemma CharRoundTrip(c: char, isPrint: char -> bool, rest: string)
    ensures ReadChar(Escape(c, isPrint) + rest) == if IsUnwritable(c) then None else Some(Read(c, rest))
    ensures Escape(c, isPrint)[0] != '\"'
  {
    var e := Escape(c, isPrint) + rest;
    if c == '\"' || c == '\\' || c in {'\U{7}', '\U{8}', '\U{c}', '\n', '\r', '\t', '\U{b}'} {
      assert |Escape(c, isPrint)| == 2 && e[2..] == rest;
    } else if Printable(c, isPrint) {
      assert e[1..] == rest;
    } else if IsUnwritable(c) {
      assert e[0] == '\\' && e[1] == 'x';
    } else if c < '\U{10000}' {
      assert Escape(c, isPrint) == ['\\', 'u'] + ToHex(c as nat, 4);
      HexEscapeRoundTrip(c, 'u', 4, rest);
    } else {
      assert Escape(c, isPrint) == ['\\', 'U'] + ToHex(c as nat, 8);
      HexEscapeRoundTrip(c, 'U', 8, rest);
    }
  }

  lemma ReadStringGoesOn(s: string, c: Option<Read<char>>)
    requires s != "" && s[0] != '\"' && ReadChar(s) == c
    ensures ReadString(s) ==
      if c.None? || ReadString(c.value.rest).None? then None
      else Some(Read([c.value.value] + ReadString(c.value.rest).value.value, ReadString(c.value.rest).value.rest))
  {
  }

  lemma FirstEscape(first: string, more: string, end: string)
    ensures first + more + end == first + (more + end)
  {
  }

  lemma FirstIsWritable(s: string)
    requires s != ""
    ensures Writable(s) <==> !IsUnwritable(s[0]) && Writable(s[1..])
    ensures s == [s[0]] + s[1..]
  {
    assert forall c :: c in s <==> c == s[0] || c in s[1..];
  }

  /** A quoted string is read back exactly, and refused exactly when it has an unwritable character. */
  lemma {:induction false} StringRoundTrip(s: string, isPrint: char -> bool, rest: string)
    ensures ReadString(Escaped(s, isPrint) + ("\"" + rest)) == if Writable(s) then Some(Read(s, rest)) else None
  {
    var end := "\"" + rest;
    if s == "" {
      assert end[1..] == rest;
      assert Escaped(s, isPrint) + end == end;
    } else {
      var e, more := Escape(s[0], isPrint), Escaped(s[1..], isPrint);
      var tail := more + end;
      FirstEscape(e, more, end);
      CharRoundTrip(s[0], isPrint, tail);
      ReadStringGoesOn(e + tail, if IsUnwritable(s[0]) then None else Some(Read(s[0], tail)));
      StringRoundTrip(s[1..], isPrint, rest);
      FirstIsWritable(s);
    }
  }

  // ----- Arrays of basic strings, on one line -----

  predicate IsBlank(c: char) { c == ' ' || c == '\t' }

  function SkipBlanks(s: string): (r: string)
    ensures |r| <= |s|
  {
    if s != "" && IsBlank(s[0]) then SkipBlanks(s[1..]) else s
  }

  /** The rest of an array whose opening bracket, or a comma in it, has been read. */
  function ReadItems(s: string): (r: Option<Read<seq<string>>>)
    ensures r.Some? ==> |r.value.rest| < |s|
    decreases |s|
  {
    var t := SkipBlanks(s);
    if t == "" then None
    else if t[0] == ']' then Some(Read([], t[1..]))
    else if t[0] != '\"' then None
    else
      var item := ReadString(t[1..]);
      if item.None? then None
      else
        var u := SkipBlanks(item.value.rest);
        if u == "" then None
        else if u[0] == ']' then Some(Read([item.value.value], u[1..]))
        else if u[0] != ',' then None
        else
          var more := ReadItems(u[1..]);
          if more.None? then None else Some(Read([item.value.value] + more.value.value, more.value.rest))
  }

  function Quoted(items: seq<string>, isPrint: char -> bool): (quoted: seq<string>)
    ensures |quoted| == |items|
  {
    if items == [] then [] else [Quote(items[0], isPrint)] + Quoted(items[1..], isPrint)
  }

  predicate AllWritable(items: seq<string>) { forall s <- items :: Writable(s) }

  /** An item has been read up to `after`: how ReadItems goes on. */
  lemma ReadItemsStep(t: string, s: string, after: string)
    requires t != "" && t[0] == '\"' && after != "" && !IsBlank(after[0])
    requires ReadString(t[1..]) == Some(Read(s, after))
    ensures after[0] == ']' ==> ReadItems(t) == Some(Read([s], after[1..]))
    ensures after[0] == ',' ==>
      var more := ReadItems(after[1..]);
      ReadItems(t) == if more.None? then None else Some(Read([s] + more.value.value, more.value.rest))
  {
  }

  lemma QuoteThen(text: string, after: string)
    ensures var t := "\"" + text + "\"" + after;
      t[0] == '\"' && t[1..] == text + ("\"" + after)
  {
  }

  lemma ReadItemsAt(s: string, isPrint: char -> bool, after: string)
    requires after != "" && !IsBlank(after[0])
    ensures var t := Quote(s, isPrint) + after;
      && t[0] == '\"'
      && ReadString(t[1..]) == (if Writable(s) then Some(Read(s, after)) else None)
      && (!Writable(s) ==> ReadItems(t).None?)
  {
    QuoteThen(Escaped(s, isPrint), after);
    StringRoundTrip(s, isPrint, after);
  }

  lemma BlankBeforeItems(s: string)
    ensures ReadItems(" " + s) == ReadItems(s)
  {
    assert (" " + s)[1..] == s;
    assert SkipBlanks(" " + s) == SkipBlanks(s);
  }

  lemma Regroup(head: string, tail: string, rest: string)
    ensures head + ", " + tail + rest == head + ("," + (" " + (tail + rest)))
  {
  }

  lemma JoinMore(items: seq<string>, isPrint: char -> bool, rest: string)
    requires |items| > 1
    ensures Join(Quoted(items, isPrint), ", ") + rest
      == Quote(items[0], isPrint) + ("," + (" " + (Join(Quoted(items[1..], isPrint), ", ") + rest)))
  {
    var quoted := Quoted(items, isPrint);
    assert quoted[0] == Quote(items[0], isPrint) && quoted[1..] == Quoted(items[1..], isPrint);
    Regroup(quoted[0], Join(quoted[1..], ", "), rest);
  }

  lemma LastItem(item: string, isPrint: char -> bool, rest: string)
    ensures ReadItems(Quote(item, isPrint) + ("]" + rest)) == if Writable(item) then Some(Read([item], rest)) else None
  {
    var after := "]" + rest;
    assert after[1..] == rest;
    ReadItemsAt(item, isPrint, after);
    if Writable(item) {
      ReadItemsStep(Quote(item, isPrint) + after, item, after);
    }
  }

  lemma OneMoreItem(item: string, isPrint: char -> bool, tail: string)
    ensures ReadItems(Quote(item, isPrint) + ("," + (" " + tail))) ==
      if !Writable(item) || ReadItems(tail).None? then None
      else Some(Read([item] + ReadItems(tail).value.value, ReadItems(tail).value.rest))
  {
    var after := "," + (" " + tail);
    assert after[1..] == " " + tail;
    ReadItemsAt(item, isPrint, after);
    BlankBeforeItems(tail);
    if Writable(item) {
      ReadItemsStep(Quote(item, isPrint) + after, item, after);
    }
  }

  /** The array comes back item by item, in order; one unwritable item spoils it all. */
  lemma {:induction false} ItemsRoundTrip(items: seq<string>, isPrint: char -> bool, rest: string)
    ensures ReadItems(Join(Quoted(items, isPrint), ", ") + ("]" + rest))
      == if AllWritable(items) then Some(Read(items, rest)) else None
    decreases |items|
  {
    if items == [] {
      assert ("]" + rest)[1..] == rest && "" + ("]" + rest) == "]" + rest;
    } else {
      assert items == [items[0]] + items[1..];
      if |items| == 1 {
        assert Join(Quoted(items, isPrint), ", ") == Quote(items[0], isPrint);
        assert items == [items[0]] && (AllWritable(items) <==> Writable(items[0]));
        LastItem(items[0], isPrint, rest);
      } else {
        JoinMore(items, isPrint, "]" + rest);
        OneMoreItem(items[0], isPrint, Join(Quoted(items[1..], isPrint), ", ") + ("]" + rest));
        ItemsRoundTrip(items[1..], isPrint, rest);
        assert AllWritable(items) <==> Writable(items[0]) && AllWritable(items[1..]);
      }
    }
  }

  // ----- Documents: comment lines and key = value lines -----

  datatype Value = Text(text: string) | Texts(texts: seq<string>)

  function AfterLine(s: string): (r: string)
    ensures s != "" ==> |r| < |s|
  {
    if s == "" then "" else if s[0] == '\n' then s[1..] else AfterLine(s[1..])
  }

  predicate IsKeyChar(c: char) {
    'a' <= c <= 'z' || 'A' <= c <= 'Z' || '0' <= c <= '9' || c == '_' || c == '-'
  }

  function KeyOf(s: string): (key: string)
    ensures |key| <= |s|
  {
    if s != "" && IsKeyChar(s[0]) then [s[0]] + KeyOf(s[1..]) else ""
  }

  function ReadValue(s: string): (r: Option<Read<Value>>)
    ensures r.Some? ==> |r.value.rest| < |s|
  {
    if s == "" then None
    else if s[0] == '\"' then
      var text := ReadString(s[1..]);
      if text.None? then None else Some(Read(Text(text.value.value), text.value.rest))
    else if s[0] == '[' then
      var items := ReadItems(s[1..]);
      if items.None? then None else Some(Read(Texts(items.value.value), items.value.rest))
    else None
  }

  datatype Entry = Entry(key: string, value: Value)

  /** One `key = value` line, with its end. */
  function ReadEntry(s: string): (r: Option<Read<Entry>>)
    ensures r.Some? ==> |r.value.rest| < |s|
  {
    var key := KeyOf(s);
    var t := SkipBlanks(s[|key|..]);
    if key == "" || t == "" || t[0] != '=' then None
    else
      var v := ReadValue(SkipBlanks(t[1..]));
      if v.None? then None
      else
        var u := SkipBlanks(v.value.rest);
        if u == "" || u[0] != '\n' then None else Some(Read(Entry(key, v.value.value), u[1..]))
  }

  function ReadDocument(s: string): Option<seq<Entry>>
    decreases |s|
  {
    if s == "" then Some([])
    else if s[0] == '#' then ReadDocument(AfterLine(s))
    else
      var entry := ReadEntry(s);
      if entry.None? then None
      else
        var more := ReadDocument(entry.value.rest);
        if more.None? then None else Some([entry.value.value] + more.value)
  }

  lemma {:induction false} AfterLineOf(line: string, rest: string)
    requires forall c <- line :: c != '\n'
    ensures AfterLine(line + ("\n" + rest)) == rest
  {
    var s := line + ("\n" + rest);
    if line == "" {
      assert s == "\n" + rest;
      assert s[1..] == rest;
    } else {
      assert line[0] in line;
      assert s[1..] == line[1..] + ("\n" + rest);
      assert forall c :: c in line[1..] ==> c in line;
      AfterLineOf(line[1..], rest);
    }
  }

  lemma {:induction false} KeyOfKey(key: string, rest: string)
    requires forall c <- key :: IsKeyChar(c)
    requires rest != "" && !IsKeyChar(rest[0])
    ensures KeyOf(key + rest) == key
  {
    if key == "" {
      assert key + rest == rest;
    } else {
      assert key[0] in key;
      assert (key + rest)[1..] == key[1..] + rest;
      KeyOfKey(key[1..], rest);
    }
  }

  lemma EqualsSign(more: string)
    requires more != "" && !IsBlank(more[0])
    ensures SkipBlanks(" = " + more) == "= " + more && SkipBlanks(("= " + more)[1..]) == more
  {
    assert (" = " + more)[1..] == "= " + more;
    assert ("= " + more)[1..] == " " + more;
    assert (" " + more)[1..] == more;
  }

  /** A line is read if its value is, and refused if its value is. */
  lemma EntryRoundTrip(key: string, more: string, rest: string)
    requires key != "" && forall c <- key :: IsKeyChar(c)
    requires more != "" && !IsBlank(more[0])
    requires ReadValue(more).Some? ==> ReadValue(more).value.rest == "\n" + rest
    ensures ReadEntry(key + (" = " + more))
      == if ReadValue(more).None? then None else Some(Read(Entry(key, ReadValue(more).value.value), rest))
  {
    KeyOfKey(key, " = " + more);
    assert (key + (" = " + more))[|key|..] == " = " + more;
    EqualsSign(more);
    assert ("\n" + rest)[1..] == rest;
  }

  predicate IsKey(key: string) { key != "" && forall c <- key :: IsKeyChar(c) }

  predicate IsComment(line: string) { line != "" && line[0] == '#' && forall c <- line :: c != '\n' }

  function TextLine(key: string, text: string, isPrint: char -> bool, rest: string): string {
    key + (" = " + (Quote(text, isPrint) + ("\n" + rest)))
  }

  function TextsLine(key: string, texts: seq<string>, isPrint: char -> bool, rest: string): string {
    key + (" = " + ("[" + (Join(Quoted(texts, isPrint), ", ") + ("]" + ("\n" + rest)))))
  }

  lemma CommentRoundTrip(line: string, rest: string)
    requires IsComment(line)
    ensures ReadDocument(line + ("\n" + rest)) == ReadDocument(rest)
  {
    AfterLineOf(line, rest);
    assert (line + ("\n" + rest))[0] == '#';
  }

  lemma EntryThenRest(key: string, more: string, rest: string)
    requires IsKey(key) && more != "" && !IsBlank(more[0])
    requires ReadValue(more).Some? ==> ReadValue(more).value.rest == "\n" + rest
    ensures ReadDocument(key + (" = " + more)) == if ReadValue(more).None? || ReadDocument(rest).None? then None
      else Some([Entry(key, ReadValue(more).value.value)] + ReadDocument(rest).value)
  {
    EntryRoundTrip(key, more, rest);
    assert key[0] in key;
    assert (key + (" = " + more))[0] == key[0];
  }

  lemma TextLineRoundTrip(key: string, text: string, isPrint: char -> bool, rest: string)
    requires IsKey(key)
    ensures ReadDocument(TextLine(key, text, isPrint, rest)) == if !Writable(text) || ReadDocument(rest).None? then None
      else Some([Entry(key, Text(text))] + ReadDocument(rest).value)
  {
    QuoteThen(Escaped(text, isPrint), "\n" + rest);
    StringRoundTrip(text, isPrint, "\n" + rest);
    EntryThenRest(key, Quote(text, isPrint) + ("\n" + rest), rest);
  }

  lemma TextsLineRoundTrip(key: string, texts: seq<string>, isPrint: char -> bool, rest: string)
    requires IsKey(key)
    ensures ReadDocument(TextsLine(key, texts, isPrint, rest)) == if !AllWritable(texts) || ReadDocument(rest).None? then None
      else Some([Entry(key, Texts(texts))] + ReadDocument(rest).value)
  {
    var items := Join(Quoted(texts, isPrint), ", ") + ("]" + ("\n" + rest));
    ItemsRoundTrip(texts, isPrint, "\n" + rest);
    assert ("[" + items)[1..] == items;
    EntryThenRest(key, "[" + items, rest);
  }
}
