/**
 * What the text of `mkjson_array_internal` is, stated independently of the
 * record-by-record layout: the compact form joins the items by ", ", the
 * pretty form puts each on its own indented line; the count ends at the
 * first record of type 0 and keys matter only in object mode. Also the
 * capacity checks as they are written, with the inputs on which each lets
 * a byte land one past the buffer.
 */
module MkJsonArrayFacts {
  import opened CStrings
  import opened JsonEscape
  import opened MkJsonTypes
  import opened MkJsonArray
  import MkJsonVarargs

  // ---------------------------------------------------------------- joining

  /** Strings joined by a separator: the first, then the separator and the
      next, and so on. */
  function JoinBy(sep: string, ts: seq<string>): string
    decreases |ts|
  {
    if ts == [] then "" else if |ts| == 1 then ts[0] else ts[0] + sep + JoinBy(sep, ts[1..])
  }

  lemma {:induction false} JoinBySnoc(sep: string, ts: seq<string>, t: string)
    ensures JoinBy(sep, ts + [t]) == JoinBy(sep, ts) + (if ts == [] then "" else sep) + t
    decreases |ts|
  {
    if |ts| == 1 {
      assert ts + [t] == [ts[0], t];
      assert [ts[0], t][1..] == [t];
    } else if |ts| > 1 {
      assert (ts + [t])[1..] == ts[1..] + [t];
      JoinBySnoc(sep, ts[1..], t);
    }
  }

  /** The same strings, each after the indent. */
  function IndentEach(nested: string, ts: seq<string>): (r: seq<string>)
    ensures |r| == |ts| && forall i :: 0 <= i < |ts| ==> r[i] == nested + ts[i]
  {
    seq(|ts|, i requires 0 <= i < |ts| => nested + ts[i])
  }

  /** The compact layout is the join of `mkjson`: ", " between the items. */
  lemma {:induction false} CompactLayoutIsJoined(slots: seq<Option<string>>, nested: string)
    ensures Layout(slots, false, nested) == MkJsonVarargs.Joined(slots)
  {
    if slots != [] {
      CompactLayoutIsJoined(slots[..|slots| - 1], nested);
    }
  }

  /** The pretty layout: every item on a line of its own after the nested
      indent, the lines ended by "," but the last. */
  lemma {:induction false} PrettyLayoutIsLines(slots: seq<Option<string>>, nested: string)
    ensures Layout(slots, true, nested) == JoinBy(",\n", IndentEach(nested, MkJsonVarargs.Valids(slots)))
  {
    if slots != [] {
      var init := slots[..|slots| - 1];
      PrettyLayoutIsLines(init, nested);
      MkJsonVarargs.HasSomeMeansValids(init);
      var ts := MkJsonVarargs.Valids(init);
      match slots[|slots| - 1]
      case None =>
        assert MkJsonVarargs.Valids(slots) == ts + [] == ts;
      case Some(t) =>
        assert MkJsonVarargs.Valids(slots) == ts + [t];
        assert IndentEach(nested, ts + [t]) == IndentEach(nested, ts) + [nested + t];
        JoinBySnoc(",\n", IndentEach(nested, ts), nested + t);
    }
  }

  /** Records that are all skipped lay out to nothing. */
  lemma {:induction false} LayoutOfSkipped(slots: seq<Option<string>>, pretty: bool, nested: string)
    requires forall i :: 0 <= i < |slots| ==> slots[i].None?
    ensures Layout(slots, pretty, nested) == ""
  {
    if slots != [] {
      LayoutOfSkipped(slots[..|slots| - 1], pretty, nested);
    }
  }

  // ---------------------------------------------------------------- the whole text

  /** `mkjson_array` (no indent): the bracket, the items of the records that
      are not skipped joined by ", ", the bracket. */
  lemma CompactArray(otype: int, args: Option<seq<Arg>>, indentSize: int, depth: nat)
    requires ValidArgs(otype, args) && indentSize <= 0
    ensures ArrayJson(otype, args, indentSize, depth) ==
      [OpenBracket(otype)] +
      MkJsonVarargs.JoinList(MkJsonVarargs.Valids(ItemSlots(otype, Entries(args), false))) +
      [CloseBracket(otype)]
  {
    var slots := ItemSlots(otype, Entries(args), false);
    assert ArrayJson(otype, args, indentSize, depth) ==
      [OpenBracket(otype)] + Layout(slots, false, Indent(indentSize, depth + 1)) + [CloseBracket(otype)];
    CompactLayoutIsJoined(slots, Indent(indentSize, depth + 1));
    MkJsonVarargs.JoinedIsJoinList(slots);
  }

  /** `mkjson_array_pretty` with at least one record: a newline after the
      opening bracket, each item on its own line indented by
      `indent_size * (depth + 1)` blanks with "," ending every line but the
      last, and the closing bracket on a line indented by
      `indent_size * depth` blanks. */
  lemma PrettyArray(otype: int, args: Option<seq<Arg>>, indentSize: int, depth: nat)
    requires ValidArgs(otype, args) && indentSize > 0 && ArgCount(args) > 0
    ensures ArrayJson(otype, args, indentSize, depth) ==
      [OpenBracket(otype)] + "\n" +
      JoinBy(",\n", IndentEach(Spaces(indentSize * (depth + 1)), MkJsonVarargs.Valids(ItemSlots(otype, Entries(args), true)))) +
      "\n" + Spaces(indentSize * depth) + [CloseBracket(otype)]
  {
    var nested := Spaces(indentSize * (depth + 1));
    PrettyLayoutIsLines(ItemSlots(otype, Entries(args), true), nested);
    assert Indent(indentSize, depth + 1) == nested;
  }

  /** No records (or a NULL array): the empty object or array, in both forms. */
  lemma EmptyArray(otype: int, args: Option<seq<Arg>>, indentSize: int, depth: nat)
    requires ValidArgs(otype, args) && ArgCount(args) == 0
    ensures ArrayJson(otype, args, indentSize, depth) == [OpenBracket(otype), CloseBracket(otype)]
  {
    assert ItemSlots(otype, Entries(args), indentSize > 0) == [];
  }

  /** Records that are all skipped still count for the pretty form: the
      brackets are parted by an empty line and the closing indent. */
  lemma AllSkippedPretty(otype: int, args: Option<seq<Arg>>, indentSize: int, depth: nat)
    requires ValidArgs(otype, args) && indentSize > 0 && ArgCount(args) > 0
    requires forall i :: 0 <= i < ArgCount(args) ==> args.value[i].typ < 0
    ensures ArrayJson(otype, args, indentSize, depth) ==
      [OpenBracket(otype)] + "\n\n" + Spaces(indentSize * depth) + [CloseBracket(otype)]
  {
    var e := Entries(args);
    var slots := ItemSlots(otype, e, true);
    forall i | 0 <= i < |slots|
      ensures slots[i].None?
    {
      assert e[i] == args.value[i];
    }
    LayoutOfSkipped(slots, true, Indent(indentSize, depth + 1));
  }

  /** The count depends only on the type codes up to the first 0. */
  lemma ZeroIndexByTypes(s: seq<Arg>, t: seq<Arg>)
    requires exists i :: 0 <= i < |s| && s[i].typ == 0
    requires ZeroIndex(s) < |t| && forall j :: 0 <= j <= ZeroIndex(s) ==> t[j].typ == s[j].typ
    ensures exists i :: 0 <= i < |t| && t[i].typ == 0
    ensures ZeroIndex(t) == ZeroIndex(s)
  {
    assert t[ZeroIndex(s)].typ == 0;
  }

  /** Records after the terminator are never read. */
  lemma StopsAtTerminator(otype: int, args: seq<Arg>, more: seq<Arg>, indentSize: int, depth: nat)
    requires ValidArgs(otype, Some(args))
    ensures ValidArgs(otype, Some(args + more))
    ensures ArrayJson(otype, Some(args + more), indentSize, depth) == ArrayJson(otype, Some(args), indentSize, depth)
  {
    var n := ZeroIndex(args);
    ZeroIndexByTypes(args, args + more);
    assert (args + more)[..n] == args[..n];
  }

  /** In array mode the keys are never read: records that differ only in
      their keys give the same text. */
  lemma ArrayIgnoresKeys(args: seq<Arg>, other: seq<Arg>, indentSize: int, depth: nat)
    requires ValidArgs(MKJSON_ARR, Some(args)) && |other| == |args|
    requires forall i :: 0 <= i < |args| ==> other[i].typ == args[i].typ && other[i].value == args[i].value
    ensures ValidArgs(MKJSON_ARR, Some(other))
    ensures ArrayJson(MKJSON_ARR, Some(other), indentSize, depth) == ArrayJson(MKJSON_ARR, Some(args), indentSize, depth)
  {
    ZeroIndexByTypes(args, other);
    var n := ZeroIndex(args);
    var pretty := indentSize > 0;
    var e, f := args[..n], other[..n];
    assert forall i :: 0 <= i < n ==> Printable(MKJSON_ARR, f[i]) by {
      forall i | 0 <= i < n
        ensures Printable(MKJSON_ARR, f[i])
      {
        assert f[i] == other[i] && e[i] == args[i];
      }
    }
    forall i | 0 <= i < n
      ensures SlotOf(MKJSON_ARR, f[i], pretty) == SlotOf(MKJSON_ARR, e[i], pretty)
    {
      assert f[i] == other[i] && e[i] == args[i];
    }
    assert ItemSlots(MKJSON_ARR, f, pretty) == ItemSlots(MKJSON_ARR, e, pretty);
  }

  // ---------------------------------------------------------------- against mkjson

  /** A record both builders print alike in array mode: a value or ignore
      code, and no NULL string (`mkjson` prints `null`, this builder `"null"`). */
  predicate SharedRecord(a: Arg) {
    (IsValueType(a.typ) || IsIgnoreType(a.typ)) && (IsStringType(a.typ) ==> a.value.Text? && a.value.str.Some?)
  }

  lemma SharedSlot(a: Arg)
    requires Printable(MKJSON_ARR, a) && SharedRecord(a)
    ensures WellTyped(a)
    ensures MkJsonVarargs.Slot(MkJsonVarargs.ChunkOf(MKJSON_ARR, a)) == SlotOf(MKJSON_ARR, a, false)
  {
    TypeCodeSigns(a.typ);
  }

  lemma SharedSlots(e: seq<Arg>)
    requires forall i :: 0 <= i < |e| ==> Printable(MKJSON_ARR, e[i]) && SharedRecord(e[i])
    ensures forall i :: 0 <= i < |e| ==> WellTyped(e[i])
    ensures !MkJsonVarargs.AnyFailed(MkJsonVarargs.Chunks(MKJSON_ARR, e))
    ensures MkJsonVarargs.Slots(MkJsonVarargs.Chunks(MKJSON_ARR, e)) == ItemSlots(MKJSON_ARR, e, false)
  {
    forall i | 0 <= i < |e|
      ensures WellTyped(e[i]) && !MkJsonVarargs.ChunkOf(MKJSON_ARR, e[i]).Failed?
      ensures MkJsonVarargs.Slot(MkJsonVarargs.ChunkOf(MKJSON_ARR, e[i])) == SlotOf(MKJSON_ARR, e[i], false)
    {
      SharedSlot(e[i]);
    }
  }

  /** What `mkjson` makes of the first `n` such records, by the slots of
      this builder. */
  lemma SharedMkJson(args: seq<Arg>, n: nat)
    requires n <= |args|
    requires forall i :: 0 <= i < n ==> Printable(MKJSON_ARR, args[i]) && SharedRecord(args[i])
    ensures forall i :: 0 <= i < n ==> WellTyped(args[i])
    ensures MkJsonVarargs.MkJsonSpec(MKJSON_ARR, n, args) ==
      Some([OpenBracket(MKJSON_ARR)] + MkJsonVarargs.Joined(ItemSlots(MKJSON_ARR, args[..n], false)) + [CloseBracket(MKJSON_ARR)])
  {
    var e := args[..n];
    assert forall i :: 0 <= i < n ==> e[i] == args[i];
    SharedSlots(e);
  }

  /** On such records the compact array text is what `mkjson` makes of the
      same groups. */
  lemma CompactArrayIsMkJson(args: seq<Arg>)
    requires ValidArgs(MKJSON_ARR, Some(args))
    requires forall i :: 0 <= i < ZeroIndex(args) ==> SharedRecord(args[i])
    ensures forall i :: 0 <= i < ZeroIndex(args) ==> WellTyped(args[i])
    ensures MkJsonVarargs.MkJsonSpec(MKJSON_ARR, ZeroIndex(args), args) == Some(ArrayJson(MKJSON_ARR, Some(args), 0, 0))
  {
    SharedMkJson(args, ZeroIndex(args));
    CompactArray(MKJSON_ARR, Some(args), 0, 0);
    MkJsonVarargs.JoinedIsJoinList(ItemSlots(MKJSON_ARR, Entries(Some(args)), false));
  }

  // ---------------------------------------------------------------- examples

  const OBJECT_RECORDS := [
    Arg(MKJSON_INT, Some("a"), Integer(1)),
    Arg(-MKJSON_INT, Some("z"), Integer(0)),
    Arg(MKJSON_BOOL, Some("b"), Integer(1)),
    Arg(0, None, NoPayload)]

  lemma ObjectRecordsCount()
    ensures ValidArgs(MKJSON_OBJ, Some(OBJECT_RECORDS)) && ArgCount(Some(OBJECT_RECORDS)) == 3
  {
    var s := OBJECT_RECORDS;
    assert s[1..][1..][1..][0].typ == 0;
    assert ZeroIndex(s) == 3;
  }

  lemma ObjectRecordSlots()
    ensures forall i :: 0 <= i < 3 ==> Printable(MKJSON_OBJ, OBJECT_RECORDS[..3][i])
    ensures ItemSlots(MKJSON_OBJ, OBJECT_RECORDS[..3], false) == [Some("\"a\":1"), None, Some("\"b\":true")]
  {
    var s := OBJECT_RECORDS;
    assert s[..3][0] == s[0] && s[..3][1] == s[1] && s[..3][2] == s[2];
    EscapeSingle('a');
    EscapeSingle('b');
    assert IntToDecimal(1) == "1";
    assert Scalar(MKJSON_INT, Integer(1)) == "1" && Scalar(MKJSON_BOOL, Integer(1)) == "true";
    assert ItemValue(s[0]) == "1" && ItemValue(s[2]) == "true";
    assert Item(MKJSON_OBJ, s[0], false) == "\"a\":1";
    assert Item(MKJSON_OBJ, s[2], false) == "\"b\":true";
    var slots := ItemSlots(MKJSON_OBJ, s[..3], false);
    assert slots[0] == Some("\"a\":1") && slots[1] == None && slots[2] == Some("\"b\":true");
  }

  lemma ObjectRecordItems()
    ensures ValidArgs(MKJSON_OBJ, Some(OBJECT_RECORDS)) && ArgCount(Some(OBJECT_RECORDS)) == 3
    ensures MkJsonVarargs.Valids(ItemSlots(MKJSON_OBJ, Entries(Some(OBJECT_RECORDS)), false)) == ["\"a\":1", "\"b\":true"]
  {
    ObjectRecordsCount();
    ObjectRecordSlots();
    var x, y := "\"a\":1", "\"b\":true";
    var slots := [Some(x), None, Some(y)];
    assert slots[..2] == [Some(x), None] && slots[..2][..1] == [Some(x)] && [Some(x)][..0] == [];
    assert MkJsonVarargs.Valids([Some(x)]) == [x];
    assert MkJsonVarargs.Valids([Some(x), None]) == [x];
    assert MkJsonVarargs.Valids(slots) == [x, y];
  }

  /** A compact object with an ignored entry: `{"a":1, "b":true}`. */
  lemma CompactObjectExample()
    ensures ValidArgs(MKJSON_OBJ, Some(OBJECT_RECORDS))
    ensures ArrayJson(MKJSON_OBJ, Some(OBJECT_RECORDS), 0, 0) == "{" + "\"a\":1" + ", " + "\"b\":true" + "}"
  {
    ObjectRecordItems();
    CompactArray(MKJSON_OBJ, Some(OBJECT_RECORDS), 0, 0);
    var ts := ["\"a\":1", "\"b\":true"];
    assert ts[1..] == ["\"b\":true"];
    assert MkJsonVarargs.JoinList(ts) == "\"a\":1" + ", " + "\"b\":true";
    assert [OpenBracket(MKJSON_OBJ)] == "{" && [CloseBracket(MKJSON_OBJ)] == "}";
  }

  const ARRAY_RECORDS := [
    Arg(MKJSON_INT, None, Integer(1)),
    Arg(MKJSON_STRING, None, Text(Some("x"))),
    Arg(0, None, NoPayload)]

  lemma ArrayRecordsCount()
    ensures ValidArgs(MKJSON_ARR, Some(ARRAY_RECORDS)) && ArgCount(Some(ARRAY_RECORDS)) == 2
  {
    var s := ARRAY_RECORDS;
    assert s[1..][1..][0].typ == 0;
    assert ZeroIndex(s) == 2;
  }

  lemma ArrayRecordSlots()
    ensures forall i :: 0 <= i < 2 ==> Printable(MKJSON_ARR, ARRAY_RECORDS[..2][i])
    ensures ItemSlots(MKJSON_ARR, ARRAY_RECORDS[..2], true) == [Some("1"), Some("\"x\"")]
  {
    var s := ARRAY_RECORDS;
    assert s[..2][0] == s[0] && s[..2][1] == s[1];
    EscapeSingle('x');
    assert IntToDecimal(1) == "1";
    assert Scalar(MKJSON_INT, Integer(1)) == "1" && Escape("x") == "x";
    assert ItemValue(s[0]) == "1" && ItemValue(s[1]) == "\"x\"";
    assert Item(MKJSON_ARR, s[0], true) == "1" && Item(MKJSON_ARR, s[1], true) == "\"x\"";
    var slots := ItemSlots(MKJSON_ARR, s[..2], true);
    assert slots[0] == Some("1") && slots[1] == Some("\"x\"");
  }

  lemma ArrayRecordItems()
    ensures ValidArgs(MKJSON_ARR, Some(ARRAY_RECORDS)) && ArgCount(Some(ARRAY_RECORDS)) == 2
    ensures MkJsonVarargs.Valids(ItemSlots(MKJSON_ARR, Entries(Some(ARRAY_RECORDS)), true)) == ["1", "\"x\""]
  {
    ArrayRecordsCount();
    ArrayRecordSlots();
    var slots := [Some("1"), Some("\"x\"")];
    assert slots[..1] == [Some("1")] && [Some("1")][..0] == [];
    assert MkJsonVarargs.Valids([Some("1")]) == ["1"];
    assert MkJsonVarargs.Valids(slots) == ["1", "\"x\""];
  }

  lemma PrettyLinesExample()
    ensures JoinBy(",\n", IndentEach(Spaces(2), ["1", "\"x\""])) == "  1" + ",\n" + "  \"x\""
  {
    assert Spaces(2) == "  ";
    var ls := IndentEach("  ", ["1", "\"x\""]);
    assert ls[0] == "  1" && ls[1] == "  \"x\"";
    assert ls == ["  1", "  \"x\""];
    assert ls[1..] == ["  \"x\""];
  }

  /** A pretty array with an indent of 2: `[`, `  1,`, `  "x"`, `]` on four lines. */
  lemma PrettyArrayExample()
    ensures ValidArgs(MKJSON_ARR, Some(ARRAY_RECORDS))
    ensures ArrayJson(MKJSON_ARR, Some(ARRAY_RECORDS), 2, 0) == "[" + "\n" + "  1" + ",\n" + "  \"x\"" + "\n" + "]"
  {
    ArrayRecordItems();
    PrettyArray(MKJSON_ARR, Some(ARRAY_RECORDS), 2, 0);
    PrettyLinesExample();
    assert 2 * (0 + 1) == 2 && 2 * 0 == 0;
    assert Spaces(0) == "";
    assert [OpenBracket(MKJSON_ARR)] == "[" && [CloseBracket(MKJSON_ARR)] == "]";
  }

  // ---------------------------------------------------------------- the checks as written

  /** The comma check as written: the comma and the newline and the nested
      indent (pretty) or the blank, without the NUL the second `strcpy`
      writes after the indent. */
  function CommaSpaceAsWritten(pretty: bool, nested: string): nat {
    if pretty then 1 + 1 + |nested| else 2
  }

  /** The first-indent check as written: the indent without its NUL. */
  function IndentSpaceAsWritten(nested: string): nat {
    |nested|
  }

  /** The closing check as written: the newline, the indent and the bracket
      without the final NUL, and no check at all (room for nothing) outside
      the pretty form with records. */
  function ClosingSpaceAsWritten(ownLine: bool, indent: string): nat {
    if ownLine then 1 + |indent| + 1 else 0
  }

  /** A string of blanks escapes to itself. */
  lemma BlankQuoted(n: nat)
    ensures Quoted(Some(Spaces(n))) == "\"" + Spaces(n) + "\"" && |Quoted(Some(Spaces(n)))| == n + 2
  {
    EscapeIdentity(Spaces(n));
  }

  const INDENT_RECORDS := [Arg(MKJSON_INT, None, Integer(1)), Arg(0, None, NoPayload)]

  /** `mkjson_array_pretty(MKJSON_ARR, args, 254)` with one record: after
      `[` and the newline (2 bytes) the first-indent check lets 254 more
      bytes through a buffer of 256 without growing it, and the `strcpy` of
      the indent writes its NUL at index 256; the corrected check grows it. */
  lemma FirstIndentOverrun()
    ensures ValidArgs(MKJSON_ARR, Some(INDENT_RECORDS)) && ArgCount(Some(INDENT_RECORDS)) == 1
    ensures var nested := Indent(254, 1);
      var before := [OpenBracket(MKJSON_ARR)] + "\n";
      ArrayJson(MKJSON_ARR, Some(INDENT_RECORDS), 254, 0)[..|before| + |nested|] == before + nested &&
      Grown(INITIAL_CAPACITY, |before|, IndentSpaceAsWritten(nested)) == INITIAL_CAPACITY &&
      |before| + |nested| == INITIAL_CAPACITY &&
      Grown(INITIAL_CAPACITY, |before|, IndentSpace(nested)) > |before| + |nested|
  {
    var s := INDENT_RECORDS;
    assert s[1..][0].typ == 0;
    assert ZeroIndex(s) == 1;
    var nested := Indent(254, 1);
    var slots := ItemSlots(MKJSON_ARR, s[..1], true);
    assert slots[..0] == [];
    assert Layout(slots, true, nested) == nested + Item(MKJSON_ARR, s[0], true);
  }

  /** Records whose first item leaves 253 bytes written: `[`, the newline,
      a one-blank indent and a quoted string of 248 blanks. */
  function CommaRecords(): seq<Arg> {
    [Arg(MKJSON_STRING, None, Text(Some(Spaces(248)))), Arg(MKJSON_INT, None, Integer(1)), Arg(0, None, NoPayload)]
  }

  /** With an indent of 1, the comma check before the second item sees 253
      bytes and asks room for 3 in a buffer of 256 that no earlier check
      grew, so the NUL after the one-blank indent lands at index 256; the
      corrected check grows the buffer. */
  lemma CommaOverrun()
    ensures var nested := Indent(1, 1);
      var first := Quoted(Some(Spaces(248)));
      var written := |[OpenBracket(MKJSON_ARR)] + "\n" + nested + first|;
      written == 253 &&
      Grown(INITIAL_CAPACITY, 1, 1) == INITIAL_CAPACITY &&
      Grown(INITIAL_CAPACITY, 2, IndentSpaceAsWritten(nested)) == INITIAL_CAPACITY &&
      Grown(INITIAL_CAPACITY, 3, |first| + 2) == INITIAL_CAPACITY &&
      Grown(INITIAL_CAPACITY, written, CommaSpaceAsWritten(true, nested)) == INITIAL_CAPACITY &&
      written + |",\n" + nested| == INITIAL_CAPACITY &&
      Grown(INITIAL_CAPACITY, written, CommaSpace(true, nested)) > written + |",\n" + nested|
  {
    BlankQuoted(248);
  }

  /** With an indent of 1 and one quoted string of 249 blanks, the pretty
      text is exactly 256 bytes, every check as written passes without
      growing the buffer, and the terminating NUL goes to index 256;
      the corrected closing check grows it. */
  lemma ClosingOverrun()
    ensures var args := [Arg(MKJSON_STRING, None, Text(Some(Spaces(249)))), Arg(0, None, NoPayload)];
      var item := Quoted(Some(Spaces(249)));
      var written := |[OpenBracket(MKJSON_ARR)] + "\n" + Indent(1, 1) + item|;
      ValidArgs(MKJSON_ARR, Some(args)) &&
      written == 254 &&
      Grown(INITIAL_CAPACITY, 3, |item| + 2) == INITIAL_CAPACITY &&
      Grown(INITIAL_CAPACITY, written, ClosingSpaceAsWritten(true, Indent(1, 0))) == INITIAL_CAPACITY &&
      |ArrayJson(MKJSON_ARR, Some(args), 1, 0)| == INITIAL_CAPACITY &&
      Grown(INITIAL_CAPACITY, written, ClosingSpace(true, Indent(1, 0))) > INITIAL_CAPACITY
  {
    var args := [Arg(MKJSON_STRING, None, Text(Some(Spaces(249)))), Arg(0, None, NoPayload)];
    assert args[1..][0].typ == 0;
    assert ZeroIndex(args) == 1;
    BlankQuoted(249);
    var slots := ItemSlots(MKJSON_ARR, args[..1], true);
    assert slots[..0] == [];
    assert Layout(slots, true, Indent(1, 1)) == Indent(1, 1) + Item(MKJSON_ARR, args[0], true);
  }

  /** A raw JSON value of 253 blanks and a record of a positive code that
      is no value type, which prints an empty item. */
  const CLOSE_RECORDS := [Arg(MKJSON_JSON, None, Text(Some(Spaces(253)))), Arg('x' as int, None, NoPayload), Arg(0, None, NoPayload)]

  lemma CloseRecordsCount()
    ensures ValidArgs(MKJSON_ARR, Some(CLOSE_RECORDS)) && Entries(Some(CLOSE_RECORDS)) == CLOSE_RECORDS[..2]
  {
    var s := CLOSE_RECORDS;
    assert s[1..][1..][0].typ == 0;
    assert ZeroIndex(s) == 2;
  }

  lemma CloseRecordSlots()
    ensures forall i :: 0 <= i < 2 ==> Printable(MKJSON_ARR, CLOSE_RECORDS[..2][i])
    ensures ItemSlots(MKJSON_ARR, CLOSE_RECORDS[..2], false) == [Some(Spaces(253)), Some("")]
  {
    var s := CLOSE_RECORDS;
    assert s[..2][0] == s[0] && s[..2][1] == s[1];
    assert Scalar(MKJSON_JSON, Text(Some(Spaces(253)))) == Spaces(253);
    assert ItemValue(s[0]) == Spaces(253) && Item(MKJSON_ARR, s[0], false) == Spaces(253);
    assert Item(MKJSON_ARR, s[1], false) == "";
    var slots := ItemSlots(MKJSON_ARR, s[..2], false);
    assert slots[0] == Some(Spaces(253)) && slots[1] == Some("");
  }

  lemma CloseLayout(raw: string)
    ensures Layout([Some(raw), Some("")], false, "") == raw + ", "
  {
    var slots := [Some(raw), Some("")];
    assert slots[..1] == [Some(raw)] && [Some(raw)][..0] == [];
    assert Layout([Some(raw)], false, "") == raw;
    assert MkJsonVarargs.HasSome([Some(raw)]) by {
      assert [Some(raw)][0].Some?;
    }
  }

  /** A compact array of raw JSON of 253 bytes and a record of a positive
      code that is no value type: its separator ", " fills the buffer of
      256 exactly, no chunk follows, and the closing bracket, which the code
      writes without a check, lands at index 256; the corrected check grows
      the buffer. */
  lemma CompactCloseOverrun()
    ensures ValidArgs(MKJSON_ARR, Some(CLOSE_RECORDS))
    ensures ArrayJson(MKJSON_ARR, Some(CLOSE_RECORDS), 0, 0) == "[" + Spaces(253) + ", " + "]"
    ensures Grown(INITIAL_CAPACITY, 1, 253 + 2) == INITIAL_CAPACITY &&
      Grown(INITIAL_CAPACITY, 1 + 253, CommaSpaceAsWritten(false, "")) == INITIAL_CAPACITY &&
      Grown(INITIAL_CAPACITY, 1 + 253 + 2, ClosingSpaceAsWritten(false, "")) == INITIAL_CAPACITY &&
      1 + 253 + 2 == INITIAL_CAPACITY &&
      Grown(INITIAL_CAPACITY, 1 + 253 + 2, ClosingSpace(false, "")) > INITIAL_CAPACITY
  {
    CloseRecordsCount();
    CloseRecordSlots();
    CloseLayout(Spaces(253));
    assert Indent(0, 1) == "";
  }
}
