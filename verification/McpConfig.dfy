/**
 The MCP server's settings: the comma-separated toolsets of the CR, printed as TOML
 (buildMCPConfigTOML in internal/controller/mcp_reconciler.go).
 */
module McpConfig {
  import opened Options
  import opened Strings
  import opened Toml

  const PORT := "8081"
  const DEFAULT_TOOLSETS := "core,config,helm,observability/metrics,observability/logs,openshift,ossm,netedge,tekton,kubevirt,kcp,cluster-diagnostics"
  const MANAGED := "# Managed by pulse-operator."
  const REVERTED := " Edits are reverted."
  const COMMENT := MANAGED + REVERTED

  // ----- strings.TrimSpace -----

  predicate IsSpace(c: char) {
    || c == ' ' || '\t' <= c <= '\r' || c == '\U{85}' || c == '\U{a0}' || c == '\U{1680}' || '\U{2000}' <= c <= '\U{200a}'
    || c == '\U{2028}' || c == '\U{2029}' || c == '\U{202f}' || c == '\U{205f}' || c == '\U{3000}'
  }

  function TrimLeft(s: string): string { if s != "" && IsSpace(s[0]) then TrimLeft(s[1..]) else s }

  function TrimRight(s: string): string {
    if s != "" && IsSpace(s[|s| - 1]) then TrimRight(s[..|s| - 1]) else s
  }

  function TrimSpace(s: string): string { TrimRight(TrimLeft(s)) }

  predicate AllSpaces(s: string) { forall c <- s :: IsSpace(c) }

  /** Neither end is a space. */
  predicate Trimmed(s: string) { s == "" || (!IsSpace(s[0]) && !IsSpace(s[|s| - 1])) }

  lemma {:induction false} TrimLeftSplits(s: string) returns (before: string)
    ensures s == before + TrimLeft(s) && AllSpaces(before)
    ensures TrimLeft(s) == "" || !IsSpace(TrimLeft(s)[0])
  {
    if s != "" && IsSpace(s[0]) {
      var more := TrimLeftSplits(s[1..]);
      before := [s[0]] + more;
    } else {
      before := "";
    }
  }

  lemma {:induction false} TrimRightSplits(s: string) returns (after: string)
    ensures s == TrimRight(s) + after && AllSpaces(after)
    ensures TrimRight(s) == "" || !IsSpace(TrimRight(s)[|TrimRight(s)| - 1])
  {
    if s != "" && IsSpace(s[|s| - 1]) {
      var more := TrimRightSplits(s[..|s| - 1]);
      after := more + [s[|s| - 1]];
      assert s == s[..|s| - 1] + [s[|s| - 1]];
    } else {
      after := "";
    }
  }

  /** Only spaces are taken, from the two ends, until neither end is one. */
  lemma TrimSpaceTakesTheEnds(s: string) returns (before: string, after: string)
    ensures s == before + TrimSpace(s) + after && AllSpaces(before) && AllSpaces(after) && Trimmed(TrimSpace(s))
  {
    before := TrimLeftSplits(s);
    after := TrimRightSplits(TrimLeft(s));
    var t := TrimSpace(s);
    assert TrimLeft(s) == t + after;
    if t != "" {
      assert TrimLeft(s)[0] == t[0];
    }
  }

  // ----- The toolsets -----

  /** Trimmed, without the empty ones, in order. */
  function NonEmptyTrimmed(pieces: seq<string>): seq<string> {
    if pieces == [] then []
    else
      var t := TrimSpace(pieces[0]);
      (if t == "" then [] else [t]) + NonEmptyTrimmed(pieces[1..])
  }

  function Toolsets(spec: string): seq<string> {
    NonEmptyTrimmed(Split(if spec == "" then DEFAULT_TOOLSETS else spec, ','))
  }

  lemma {:induction false} QuotedAppend(items: seq<string>, item: string, isPrint: char -> bool)
    ensures Quoted(items + [item], isPrint) == Quoted(items, isPrint) + [Quote(item, isPrint)]
  {
    if items == [] {
      assert items + [item] == [item];
    } else {
      assert (items + [item])[1..] == items[1..] + [item];
      QuotedAppend(items[1..], item, isPrint);
    }
  }

  lemma {:induction false} TrimmedAppend(pieces: seq<string>, piece: string)
    ensures NonEmptyTrimmed(pieces + [piece])
      == NonEmptyTrimmed(pieces) + if TrimSpace(piece) == "" then [] else [TrimSpace(piece)]
  {
    if pieces == [] {
      assert pieces + [piece] == [piece];
    } else {
      assert (pieces + [piece])[1..] == pieces[1..] + [piece];
      TrimmedAppend(pieces[1..], piece);
    }
  }

  /** Piece by piece: nothing is dropped, repeated or moved but what is only spaces. */
  lemma {:induction false} PieceByPiece(before: seq<string>, piece: string, after: seq<string>)
    ensures NonEmptyTrimmed(before + [piece] + after)
      == NonEmptyTrimmed(before) + (if TrimSpace(piece) == "" then [] else [TrimSpace(piece)]) + NonEmptyTrimmed(after)
    decreases |before|
  {
    if before == [] {
      assert [] + [piece] + after == [piece] + after;
      assert ([piece] + after)[1..] == after;
    } else {
      assert (before + [piece] + after)[1..] == before[1..] + [piece] + after;
      PieceByPiece(before[1..], piece, after);
    }
  }

  /** A setting written as comma-separated pieces stands for those pieces; an empty one for the default. */
  lemma ToolsetsOfPieces(pieces: seq<string>)
    requires pieces != [] && forall p <- pieces :: Without(p, ',')
    ensures Join(pieces, ",") != "" ==> Toolsets(Join(pieces, ",")) == NonEmptyTrimmed(pieces)
    ensures Toolsets("") == Toolsets(DEFAULT_TOOLSETS)
  {
    JoinThenSplit(pieces, ',');
    assert [','] == ",";
  }

  function Printed(toolsets: seq<string>, isPrint: char -> bool): string {
    Lines(COMMENT, "port", PORT, "toolsets", toolsets, isPrint)
  }

  function Lines(comment: string, key: string, text: string, listKey: string, list: seq<string>, isPrint: char -> bool): string {
    comment + ("\n" + TextLine(key, text, isPrint, TextsLine(listKey, list, isPrint, "")))
  }

  lemma LinesRoundTrip(comment: string, key: string, text: string, listKey: string, list: seq<string>, isPrint: char -> bool)
    requires IsComment(comment) && IsKey(key) && IsKey(listKey) && Writable(text)
    ensures ReadDocument(Lines(comment, key, text, listKey, list, isPrint))
      == if AllWritable(list) then Some([Entry(key, Text(text)), Entry(listKey, Texts(list))]) else None
  {
    var last := TextsLine(listKey, list, isPrint, "");
    var both := TextLine(key, text, isPrint, last);
    assert ReadDocument(last) == if AllWritable(list) then Some([Entry(listKey, Texts(list))]) else None by {
      assert ReadDocument("") == Some([]);
      TextsLineRoundTrip(listKey, list, isPrint, "");
      assert [Entry(listKey, Texts(list))] + [] == [Entry(listKey, Texts(list))];
    }
    TextLineRoundTrip(key, text, isPrint, last);
    assert ReadDocument(both).Some? ==> ReadDocument(both).value == [Entry(key, Text(text)), Entry(listKey, Texts(list))];
    CommentRoundTrip(comment, both);
  }

  /** The source's one format string is these lines. */
  lemma PrintedText(comment: string, q: string, items: string)
    ensures comment + "\nport = " + q + "\ntoolsets = [" + items + "]\n"
      == comment + ("\n" + ("port" + (" = " + (q + ("\n" + ("toolsets" + (" = " + ("[" + (items + ("]" + ("\n" + "")))))))))))
  {
    assert "\nport = " == "\n" + ("port" + " = ");
    assert "\ntoolsets = [" == "\n" + ("toolsets" + (" = " + "["));
    assert "]\n" == "]" + ("\n" + "");
  }

  method QuoteToolsets(toolsets: string, isPrint: char -> bool) returns (quoted: seq<string>)
    ensures quoted == Quoted(NonEmptyTrimmed(Split(toolsets, ',')), isPrint)
  {
    var pieces := Split(toolsets, ',');
    quoted := [];
    ghost var done: seq<string> := [];
    for i := 0 to |pieces|
      invariant done == NonEmptyTrimmed(pieces[..i]) && quoted == Quoted(done, isPrint)
    {
      assert pieces[..i + 1] == pieces[..i] + [pieces[i]];
      TrimmedAppend(pieces[..i], pieces[i]);
      var t := TrimSpace(pieces[i]);
      if t != "" {
        QuotedAppend(done, t, isPrint);
        quoted := quoted + [Quote(t, isPrint)];
        done := done + [t];
      }
    }
    assert pieces[..|pieces|] == pieces;
  }

  method BuildMCPConfigTOML(spec: string, isPrint: char -> bool) returns (toml: string)
    ensures toml == Printed(Toolsets(spec), isPrint)
    ensures ReadDocument(toml) == if AllWritable(Toolsets(spec)) then
      Some([Entry("port", Text(PORT)), Entry("toolsets", Texts(Toolsets(spec)))]) else None
  {
    var quoted := QuoteToolsets(if spec == "" then DEFAULT_TOOLSETS else spec, isPrint);
    toml := COMMENT + "\nport = " + Quote(PORT, isPrint) + "\ntoolsets = [" + Join(quoted, ", ") + "]\n";
    PrintedText(COMMENT, Quote(PORT, isPrint), Join(quoted, ", "));
    ConfigRoundTrip(Toolsets(spec), isPrint);
  }

  lemma Words()
    ensures IsKey("port") && IsKey("toolsets") && Writable(PORT)
  {
  }

  lemma CommentIsOne()
    ensures IsComment(COMMENT)
  {
    OneLine();
    assert MANAGED[0] == '#';
    Concatenated(MANAGED, REVERTED);
  }

  lemma OneLine()
    ensures (forall c <- MANAGED :: c != '\n') && forall c <- REVERTED :: c != '\n'
  {
  }

  lemma Concatenated(head: string, tail: string)
    requires IsComment(head) && forall c <- tail :: c != '\n'
    ensures IsComment(head + tail)
  {
  }

  /**
   Reading the file back gives the port and exactly the toolsets, in order, quotes and backslashes
   included; it fails exactly when a toolset has a control character that TOML has no such escape for.
   */
  lemma ConfigRoundTrip(toolsets: seq<string>, isPrint: char -> bool)
    ensures ReadDocument(Printed(toolsets, isPrint)) == if AllWritable(toolsets) then
      Some([Entry("port", Text(PORT)), Entry("toolsets", Texts(toolsets))]) else None
  {
    Words();
    CommentIsOne();
    LinesRoundTrip(COMMENT, "port", PORT, "toolsets", toolsets, isPrint);
  }

  predicate IsPrintableAscii(s: string) { forall i | 0 <= i < |s| :: ' ' <= s[i] <= '~' }

  lemma {:induction false} PiecesAreWithin(pieces: seq<string>)
    ensures (forall p <- pieces :: IsPrintableAscii(p)) ==> AllWritable(NonEmptyTrimmed(pieces))
    ensures forall t <- NonEmptyTrimmed(pieces) :: t != "" && Trimmed(t)
  {
    if pieces != [] {
      PiecesAreWithin(pieces[1..]);
      var before, after := TrimSpaceTakesTheEnds(pieces[0]);
      assert forall c :: c in TrimSpace(pieces[0]) ==> c in pieces[0];
      assert forall p :: p in pieces[1..] ==> p in pieces;
      assert pieces[0] in pieces;
      assert IsPrintableAscii(pieces[0]) ==> Writable(TrimSpace(pieces[0]));
    }
  }

  lemma {:induction false} SplitStaysWithin(s: string)
    requires IsPrintableAscii(s)
    ensures forall p <- Split(s, ',') :: IsPrintableAscii(p)
    decreases |s|
  {
    var i := IndexOf(s, ',');
    if i < |s| {
      SplitStaysWithin(s[i + 1..]);
    }
  }

  /** So printable ASCII always comes back. */
  lemma PrintableAsciiComesBack(spec: string, isPrint: char -> bool)
    requires spec != "" && IsPrintableAscii(spec)
    ensures ReadDocument(Printed(Toolsets(spec), isPrint))
      == Some([Entry("port", Text(PORT)), Entry("toolsets", Texts(Toolsets(spec)))])
  {
    SplitStaysWithin(spec);
    PiecesAreWithin(Split(spec, ','));
    ConfigRoundTrip(Toolsets(spec), isPrint);
  }

  /** A bell inside a name is written \a, which leaves the server without a readable file. */
  lemma BellSpoilsTheFile(isPrint: char -> bool)
    ensures Toolsets("a\U{7}b") == ["a\U{7}b"] && ReadDocument(Printed(Toolsets("a\U{7}b"), isPrint)) == None
  {
    var s := "a\U{7}b";
    IndexOfIs(s, ',', 3);
    assert TrimLeft(s) == s && TrimRight(s) == s;
    assert Split(s, ',') == [s] && NonEmptyTrimmed([s]) == [s];
    assert s[1] == '\U{7}' && s[1] in s;
    assert !Writable(s) && s in [s];
    ConfigRoundTrip([s], isPrint);
  }
}
