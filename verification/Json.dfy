/**
 JSON text as Go's encoding/json prints it, and as section 7 of RFC 8259 says to read it: strings and
 objects of named values, which is all the UI's runtime config is made of.
 */
module Json {
  import opened Options
  import opened Hex

  // ----- Strings -----

  /** Written as it stands. json.Marshal also escapes what HTML or JavaScript could trip over. */
  predicate IsPlain(c: char) {
    && ' ' <= c && c != '\"' && c != '\\'
    && c != '<' && c != '>' && c != '&' && c != '\U{2028}' && c != '\U{2029}'
  }

  function Escape(c: char): string {
    if IsPlain(c) then [c]
    else match c
      case '\"' => "\\\""
      case '\\' => "\\\\"
      case '\U{8}' => "\\b"
      case '\U{c}' => "\\f"
      case '\n' => "\\n"
      case '\r' => "\\r"
      case '\t' => "\\t"
      case _ => "\\u" + ToHex(c as nat, 4)
  }

  function Escaped(s: string): string {
    if s == "" then "" else Escape(s[0]) + Escaped(s[1..])
  }

  datatype Read<T> = Read(value: T, rest: string)

  function ShortEscape(c: char): Option<char> {
    match c
    case '\"' => Some('\"')
    case '\\' => Some('\\')
    case '/' => Some('/')
    case 'b' => Some('\U{8}')
    case 'f' => Some('\U{c}')
    case 'n' => Some('\n')
    case 'r' => Some('\r')
    case 't' => Some('\t')
    case _ => None
  }

  /** The four digits of a \u escape that stands at the head of `s`. */
  function ReadUnit(s: string): Option<nat> {
    if |s| >= 6 && s[0] == '\\' && s[1] == 'u' then FromHex(s[2..6]) else None
  }

  /** One character of a string: itself, a short escape, \uXXXX, or a surrogate pair of those. */
  function ReadChar(s: string): (r: Option<Read<char>>)
    ensures r.Some? ==> |r.value.rest| < |s|
  {
    if s == "" || s[0] < ' ' || s[0] == '\"' then None
    else if s[0] != '\\' then Some(Read(s[0], s[1..]))
    else if |s| < 2 then None
    else if s[1] != 'u' then
      var short := ShortEscape(s[1]);
      if short.Some? then Some(Read(short.value, s[2..])) else None
    else
      var unit := ReadUnit(s);
      if unit.None? then None
      else if unit.value < 0xD800 || 0xE000 <= unit.value < 0x1_0000 then Some(Read(unit.value as char, s[6..]))
      else
        var low := ReadUnit(s[6..]);
        if unit.value < 0xDC00 && low.Some? && 0xDC00 <= low.value < 0xE000
        then Some(Read((0x1_0000 + 0x400 * (unit.value - 0xD800) + (low.value - 0xDC00)) as char, s[12..]))
        else None
  }

  /** The rest of a string whose opening quote has been read. */
  function ReadString(s: string): (r: Option<Read<string>>)
    ensures r.Some? ==> |r.value.rest| < |s|
    decreases |s|
  {
    if s != "" && s[0] == '\"' then Some(Read("", s[1..]))
    else
      var c := ReadChar(s);
      if c.None? then None
      else
        var more := ReadString(c.value.rest);
        if more.None? then None else Some(Read([c.value.value] + more.value.value, more.value.rest))
  }

  lemma CharRoundTrip(c: char, rest: string)
    ensures ReadChar(Escape(c) + rest) == Some(Read(c, rest))
    ensures Escape(c)[0] != '\"'
  {
    var e := Escape(c) + rest;
    if IsPlain(c) {
      assert e[1..] == rest;
    } else if c in {'\"', '\\', '\U{8}', '\U{c}', '\n', '\r', '\t'} {
      assert |Escape(c)| == 2 && e[2..] == rest;
    } else {
      var digits := ToHex(c as nat, 4);
      assert Power(4) == 0x1_0000 by {
        assert Power(1) == 16 && Power(2) == 256 && Power(3) == 4096;
      }
      HexRoundTrip(c as nat, 4);
      assert Escape(c) == "\\u" + digits;
      assert e[2..6] == digits && e[6..] == rest;
    }
  }

  lemma ReadStringGoesOn(s: string, c: char, tail: string)
    requires s != "" && s[0] != '\"' && ReadChar(s) == Some(Read(c, tail)) && ReadString(tail).Some?
    ensures ReadString(s) == Some(Read([c] + ReadString(tail).value.value, ReadString(tail).value.rest))
  {
  }

  lemma FirstEscape(first: string, more: string, end: string)
    ensures first + more + "\"" + end == first + (more + "\"" + end)
  {
  }

  /** Every string is read back exactly, whatever characters it has and whatever follows it. */
  lemma {:induction false} StringRoundTrip(s: string, rest: string)
    ensures ReadString(Escaped(s) + "\"" + rest) == Some(Read(s, rest))
  {
    if s == "" {
      assert Escaped(s) + "\"" + rest == "\"" + rest;
      assert ("\"" + rest)[1..] == rest;
    } else {
      var e, tail := Escape(s[0]), Escaped(s[1..]) + "\"" + rest;
      FirstEscape(e, Escaped(s[1..]), rest);
      CharRoundTrip(s[0], tail);
      StringRoundTrip(s[1..], rest);
      ReadStringGoesOn(e + tail, s[0], tail);
      assert s == [s[0]] + s[1..];
    }
  }

  // ----- Objects -----

  datatype Value = Str(text: string) | Obj(fields: Fields)
  datatype Fields = Nil | Field(name: string, value: Value, more: Fields)

  function Print(v: Value): string {
    match v
    case Str(s) => "\"" + Escaped(s) + "\""
    case Obj(fs) => "{" + PrintFields(fs) + "}"
  }

  function PrintFields(fs: Fields): string {
    match fs
    case Nil => ""
    case Field(name, v, more) =>
      "\"" + Escaped(name) + "\":" + Print(v) + (if more.Nil? then "" else "," + PrintFields(more))
  }

  function ReadValue(s: string): (r: Option<Read<Value>>)
    ensures r.Some? ==> |r.value.rest| < |s|
    decreases |s|, 0
  {
    if s == "" then None
    else if s[0] == '\"' then
      var text := ReadString(s[1..]);
      if text.None? then None else Some(Read(Str(text.value.value), text.value.rest))
    else if s[0] != '{' then None
    else if |s| > 1 && s[1] == '}' then Some(Read(Obj(Nil), s[2..]))
    else
      var fields := ReadFields(s[1..]);
      if fields.None? then None else Some(Read(Obj(fields.value.value), fields.value.rest))
  }

  /** One field or more, up to and with the closing brace. */
  function ReadFields(s: string): (r: Option<Read<Fields>>)
    ensures r.Some? ==> |r.value.rest| < |s|
    decreases |s|, 1
  {
    if s == "" || s[0] != '\"' then None
    else
      var name := ReadString(s[1..]);
      if name.None? || name.value.rest == "" || name.value.rest[0] != ':' then None
      else
        var v := ReadValue(name.value.rest[1..]);
        if v.None? || v.value.rest == "" then None
        else if v.value.rest[0] == '}' then Some(Read(Field(name.value.value, v.value.value, Nil), v.value.rest[1..]))
        else if v.value.rest[0] != ',' then None
        else
          var more := ReadFields(v.value.rest[1..]);
          if more.None? then None
          else Some(Read(Field(name.value.value, v.value.value, more.value.value), more.value.rest))
  }

  lemma StrRoundTrip(text: string, rest: string)
    ensures ReadValue(Print(Str(text)) + rest) == Some(Read(Str(text), rest))
  {
    var all := Print(Str(text)) + rest;
    assert all[0] == '\"' && all[1..] == Escaped(text) + "\"" + rest;
    StringRoundTrip(text, rest);
  }

  lemma EmptyObjectRoundTrip(rest: string)
    ensures ReadValue(Print(Obj(Nil)) + rest) == Some(Read(Obj(Nil), rest))
  {
    var all := Print(Obj(Nil)) + rest;
    assert all == "{}" + rest;
    assert all[2..] == rest;
  }

  lemma BraceOff(fields: string, rest: string)
    requires fields != ""
    ensures var s := "{" + fields + "}" + rest;
      s[0] == '{' && s[1] == fields[0] && s[1..] == fields + "}" + rest
  {
  }

  lemma ReadObjectAt(fs: Fields, rest: string)
    requires fs.Field? && ReadFields(PrintFields(fs) + "}" + rest) == Some(Read(fs, rest))
    ensures ReadValue(Print(Obj(fs)) + rest) == Some(Read(Obj(fs), rest))
  {
    var text := PrintFields(fs);
    assert text[0] == '\"';
    BraceOff(text, rest);
  }

  /** Printing and reading are inverse on every value, nested to any depth. */
  lemma {:induction false} ValueRoundTrip(v: Value, rest: string)
    ensures ReadValue(Print(v) + rest) == Some(Read(v, rest))
    decreases v
  {
    match v
    case Str(text) => StrRoundTrip(text, rest);
    case Obj(Nil) => EmptyObjectRoundTrip(rest);
    case Obj(Field(name, value, more)) =>
      FieldsRoundTrip(v.fields, rest);
      ReadObjectAt(v.fields, rest);
  }

  lemma ReadFieldsAt(s: string, fs: Fields, value: string, after: string, rest: string)
    requires fs.Field? && s != "" && s[0] == '\"' && after != ""
    requires ReadString(s[1..]) == Some(Read(fs.name, ":" + value)) && ReadValue(value) == Some(Read(fs.value, after))
    requires if fs.more.Nil? then after == "}" + rest
             else after[0] == ',' && ReadFields(after[1..]) == Some(Read(fs.more, rest))
    ensures ReadFields(s) == Some(Read(fs, rest))
  {
    assert (":" + value)[1..] == value;
    assert fs.more.Nil? ==> after[1..] == rest;
  }

  /** What follows the first field's value. */
  function AfterValue(fs: Fields, rest: string): string
    requires fs.Field?
  {
    if fs.more.Nil? then "}" + rest else "," + (PrintFields(fs.more) + "}" + rest)
  }

  lemma Regroup(name: string, value: string, more: string, rest: string)
    ensures "\"" + name + "\":" + value + more + "}" + rest
      == "\"" + (name + "\"" + (":" + (value + (more + "}" + rest))))
  {
  }

  lemma Comma(more: string, rest: string)
    ensures "," + more + "}" + rest == "," + (more + "}" + rest) && "" + "}" + rest == "}" + rest
  {
  }

  lemma FirstField(fs: Fields, rest: string)
    requires fs.Field?
    ensures var s := PrintFields(fs) + "}" + rest;
      s[0] == '\"' && s[1..] == Escaped(fs.name) + "\"" + (":" + (Print(fs.value) + AfterValue(fs, rest)))
  {
    var name, value := Escaped(fs.name), Print(fs.value);
    var more := if fs.more.Nil? then "" else "," + PrintFields(fs.more);
    Regroup(name, value, more, rest);
    Comma(PrintFields(fs.more), rest);
    assert PrintFields(fs) + "}" + rest == "\"" + (name + "\"" + (":" + (value + AfterValue(fs, rest))));
  }

  lemma FirstName(fs: Fields, rest: string)
    requires fs.Field?
    ensures var s := PrintFields(fs) + "}" + rest;
      s[0] == '\"' && ReadString(s[1..]) == Some(Read(fs.name, ":" + (Print(fs.value) + AfterValue(fs, rest))))
  {
    FirstField(fs, rest);
    StringRoundTrip(fs.name, ":" + (Print(fs.value) + AfterValue(fs, rest)));
  }

  lemma {:induction false} FieldsRoundTrip(fs: Fields, rest: string)
    requires fs.Field?
    ensures ReadFields(PrintFields(fs) + "}" + rest) == Some(Read(fs, rest))
    decreases fs
  {
    var after := AfterValue(fs, rest);
    FirstName(fs, rest);
    ValueRoundTrip(fs.value, after);
    if fs.more.Field? {
      FieldsRoundTrip(fs.more, rest);
    }
    ReadFieldsAt(PrintFields(fs) + "}" + rest, fs, Print(fs.value) + after, after, rest);
  }
}
