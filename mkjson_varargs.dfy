/**
 * The variadic builder `mkjson(otype, count, ...)`. Each of the `count`
 * argument groups (type, key in object mode, value) becomes a chunk: a
 * failure (NULL key in object mode, unknown type code), an ignored entry
 * (an MKJSON_IGN_* code, whose value is consumed and dropped) or a valid
 * text. Without failure the valid chunks are joined by ", " between the
 * brackets.
 */
module MkJsonVarargs {
  import opened CStrings
  import opened JsonEscape
  import opened MkJsonTypes

  datatype Chunk = Failed | Ignored | Valid(text: string)

  /** `"<escaped key>": ` in object mode, nothing in array mode. */
  function KeyPrefix(otype: int, key: Option<CString>): string
    requires otype == MKJSON_OBJ ==> key.Some?
  {
    if otype == MKJSON_OBJ then "\"" + Escape(key.value) + "\": " else ""
  }

  /** The value text `mkjson` prints; a NULL string is `null` without quotes. */
  function VarValue(a: Arg): string
    requires IsValueType(a.typ) && Fits(a.typ, a.value)
  {
    if IsStringType(a.typ) then
      if a.value.str.None? then "null" else Quoted(a.value.str)
    else Scalar(a.typ, a.value)
  }

  /** A group `mkjson` rejects: a NULL key in object mode, or a type code
      that is neither a value code nor an ignore code. */
  predicate Rejected(otype: int, a: Arg) {
    (otype == MKJSON_OBJ && a.key.None?) || (!IsValueType(a.typ) && !IsIgnoreType(a.typ))
  }

  /** The chunk one argument group gives. The key is read, and a NULL one
      rejected, before the type is looked at, even for ignore codes. */
  function ChunkOf(otype: int, a: Arg): Chunk
    requires WellTyped(a)
  {
    if otype == MKJSON_OBJ && a.key.None? then Failed
    else if IsIgnoreType(a.typ) then Ignored
    else if IsValueType(a.typ) then Valid(KeyPrefix(otype, a.key) + VarValue(a))
    else Failed
  }

  /** A group fails exactly when it is rejected, is ignored exactly for an
      ignore code with its key present, and is valid with the key prefix and
      the value text otherwise. */
  lemma ChunkOfCases(otype: int, a: Arg)
    requires WellTyped(a)
    ensures var c := ChunkOf(otype, a);
      (c.Failed? <==> Rejected(otype, a)) &&
      (c.Ignored? <==> !(otype == MKJSON_OBJ && a.key.None?) && IsIgnoreType(a.typ)) &&
      (c.Valid? ==> c.text == KeyPrefix(otype, a.key) + VarValue(a))
  {
    TypeCodeSigns(a.typ);
  }

  /** The chunks of a list of argument groups. */
  function Chunks(otype: int, args: seq<Arg>): (cs: seq<Chunk>)
    requires forall i :: 0 <= i < |args| ==> WellTyped(args[i])
    ensures |cs| == |args| && forall i :: 0 <= i < |args| ==> cs[i] == ChunkOf(otype, args[i])
  {
    seq(|args|, i requires 0 <= i < |args| => ChunkOf(otype, args[i]))
  }

  predicate AnyFailed(cs: seq<Chunk>) {
    exists i :: 0 <= i < |cs| && cs[i].Failed?
  }

  /** `chunks[i]`: the text of a valid chunk, NULL otherwise. */
  function Slot(c: Chunk): Option<string> {
    if c.Valid? then Some(c.text) else None
  }

  function Slots(cs: seq<Chunk>): (slots: seq<Option<string>>)
    ensures |slots| == |cs| && forall i :: 0 <= i < |cs| ==> slots[i] == Slot(cs[i])
  {
    seq(|cs|, i requires 0 <= i < |cs| => Slot(cs[i]))
  }

  // ---------------------------------------------------------------- joining

  predicate HasSome(slots: seq<Option<string>>) {
    exists i :: 0 <= i < |slots| && slots[i].Some?
  }

  /** The number of valid chunks (`goodchunks`). */
  function Good(slots: seq<Option<string>>): nat {
    if slots == [] then 0
    else Good(slots[..|slots| - 1]) + (if slots[|slots| - 1].Some? then 1 else 0)
  }

  /** The summed `strlen` of the valid chunks. */
  function SumLen(slots: seq<Option<string>>): nat {
    if slots == [] then 0
    else
      SumLen(slots[..|slots| - 1]) +
      (match slots[|slots| - 1] case Some(t) => |t| case None => 0)
  }

  /** The valid chunks in order, NULL slots dropped. */
  function Valids(slots: seq<Option<string>>): seq<string> {
    if slots == [] then []
    else
      Valids(slots[..|slots| - 1]) +
      (match slots[|slots| - 1] case Some(t) => [t] case None => [])
  }

  /** The valid chunks joined by ", ", built left to right as the merge loop
      builds it: a separator before every valid chunk but the first. */
  function Joined(slots: seq<Option<string>>): string {
    if slots == [] then ""
    else
      var init := slots[..|slots| - 1];
      match slots[|slots| - 1]
      case None => Joined(init)
      case Some(t) => Joined(init) + (if HasSome(init) then ", " else "") + t
  }

  /** An independent statement of joining: the first string, then ", " and the next, and so on. */
  function JoinList(ts: seq<string>): string
    decreases |ts|
  {
    if ts == [] then "" else if |ts| == 1 then ts[0] else ts[0] + ", " + JoinList(ts[1..])
  }

  lemma {:induction false} JoinListSnoc(ts: seq<string>, t: string)
    ensures JoinList(ts + [t]) == JoinList(ts) + (if ts == [] then "" else ", ") + t
    decreases |ts|
  {
    if |ts| == 1 {
      assert ts + [t] == [ts[0], t];
      assert [ts[0], t][1..] == [t];
    } else if |ts| > 1 {
      assert (ts + [t])[1..] == ts[1..] + [t];
      JoinListSnoc(ts[1..], t);
    }
  }

  lemma {:induction false} HasSomeMeansValids(slots: seq<Option<string>>)
    ensures HasSome(slots) <==> Valids(slots) != []
  {
    if slots != [] {
      var init := slots[..|slots| - 1];
      HasSomeMeansValids(init);
      if HasSome(init) {
        var i :| 0 <= i < |init| && init[i].Some?;
        assert slots[i].Some?;
      }
      if HasSome(slots) {
        var i :| 0 <= i < |slots| && slots[i].Some?;
        if i < |init| {
          assert init[i].Some?;
        }
      }
    }
  }

  /** The merge joins exactly the valid chunks, in order, by ", ": the
      ignored entries drop out without a trace. */
  lemma {:induction false} JoinedIsJoinList(slots: seq<Option<string>>)
    ensures Joined(slots) == JoinList(Valids(slots))
  {
    if slots != [] {
      var init := slots[..|slots| - 1];
      JoinedIsJoinList(init);
      HasSomeMeansValids(init);
      if slots[|slots| - 1].None? {
        assert Joined(slots) == Joined(init);
        assert Valids(slots) == Valids(init) + [] == Valids(init);
      } else {
        var t := slots[|slots| - 1].value;
        assert Valids(slots) == Valids(init) + [t];
        JoinListSnoc(Valids(init), t);
      }
    }
  }

  /** The length the merge needs: the chunk lengths plus two bytes per
      separator, one separator fewer than there are valid chunks. */
  lemma {:induction false} JoinedLength(slots: seq<Option<string>>)
    ensures |Joined(slots)| == SumLen(slots) + (if Good(slots) == 0 then 0 else 2 * (Good(slots) - 1))
    ensures HasSome(slots) <==> Good(slots) > 0
  {
    if slots != [] {
      var init := slots[..|slots| - 1];
      JoinedLength(init);
      if HasSome(init) {
        var i :| 0 <= i < |init| && init[i].Some?;
        assert slots[i].Some?;
      }
      if HasSome(slots) && slots[|slots| - 1].None? {
        var i :| 0 <= i < |slots| && slots[i].Some?;
        assert init[i].Some?;
      }
    }
  }

  /** `len` as `mkjson` computes it: chunk lengths, two brackets, and two
      bytes for each of `goodchunks - 1` separators with `goodchunks` at least 1. */
  function AllocatedLength(slots: seq<Option<string>>): nat {
    var good := if Good(slots) == 0 then 1 else Good(slots);
    SumLen(slots) + 2 + (good - 1) * 2
  }

  // ---------------------------------------------------------------- the result

  predicate IsContainer(otype: int) {
    otype == MKJSON_OBJ || otype == MKJSON_ARR
  }

  /** What `mkjson` returns: NULL (None) for a negative count, an unknown
      container type or any failing argument group; else the valid chunks
      joined by ", " between the brackets. */
  function MkJsonSpec(otype: int, count: int, args: seq<Arg>): Option<string>
    requires count < 0 || (count <= |args| && forall i :: 0 <= i < count ==> WellTyped(args[i]))
  {
    if count < 0 || !IsContainer(otype) then None
    else
      var cs := Chunks(otype, args[..count]);
      if AnyFailed(cs) then None
      else Some([OpenBracket(otype)] + Joined(Slots(cs)) + [CloseBracket(otype)])
  }

  /** The NULL results, both ways: `mkjson` fails exactly for a negative
      count, a container type other than ARR and OBJ, a NULL key among the
      first `count` groups in object mode, or an unknown type code there. */
  lemma MkJsonNullCases(otype: int, count: int, args: seq<Arg>)
    requires count < 0 || (count <= |args| && forall i :: 0 <= i < count ==> WellTyped(args[i]))
    ensures MkJsonSpec(otype, count, args).None? <==>
      count < 0 || !IsContainer(otype) ||
      exists i :: 0 <= i < count && Rejected(otype, args[i])
  {
    if count >= 0 && IsContainer(otype) {
      var cs := Chunks(otype, args[..count]);
      if AnyFailed(cs) {
        var i :| 0 <= i < |cs| && cs[i].Failed?;
        assert args[..count][i] == args[i];
      }
      if exists i :: 0 <= i < count && Rejected(otype, args[i]) {
        var i :| 0 <= i < count && Rejected(otype, args[i]);
        assert args[..count][i] == args[i];
        assert cs[i].Failed?;
      }
    }
  }

  /** A successful result is the bracketed join of the valid chunks, exactly
      as long as the buffer `mkjson` sizes for it, and in object mode every
      valid chunk begins with its quoted, escaped key and ": ". */
  lemma MkJsonShape(otype: int, count: int, args: seq<Arg>)
    requires count < 0 || (count <= |args| && forall i :: 0 <= i < count ==> WellTyped(args[i]))
    requires MkJsonSpec(otype, count, args).Some?
    ensures var r := MkJsonSpec(otype, count, args).value;
      var slots := Slots(Chunks(otype, args[..count]));
      r == [OpenBracket(otype)] + JoinList(Valids(slots)) + [CloseBracket(otype)] &&
      |r| == AllocatedLength(slots)
  {
    var slots := Slots(Chunks(otype, args[..count]));
    JoinedIsJoinList(slots);
    JoinedLength(slots);
  }

  /** No arguments give an empty object or array. */
  lemma MkJsonEmpty(otype: int, args: seq<Arg>)
    requires IsContainer(otype)
    ensures MkJsonSpec(otype, 0, args) == Some([OpenBracket(otype), CloseBracket(otype)])
  {
    var cs := Chunks(otype, args[..0]);
    assert cs == [] && !AnyFailed(cs);
    assert Slots(cs) == [];
    assert [OpenBracket(otype)] + Joined([]) + [CloseBracket(otype)] == [OpenBracket(otype), CloseBracket(otype)];
  }

  /** An `int` prints in decimal after the key prefix. */
  lemma IntChunk(otype: int, key: Option<CString>, n: int)
    requires otype == MKJSON_OBJ ==> key.Some?
    requires INT_MIN <= n <= INT_MAX
    ensures ChunkOf(otype, Arg(MKJSON_INT, key, Integer(n))) == Valid(KeyPrefix(otype, key) + IntToDecimal(n))
  {
    assert IsValueType(MKJSON_INT) && !IsIgnoreType(MKJSON_INT) && !IsStringType(MKJSON_INT);
  }

  /** A boolean prints as `true` for any non-zero `int` and `false` for 0. */
  lemma BoolChunk(otype: int, key: Option<CString>, n: int)
    requires otype == MKJSON_OBJ ==> key.Some?
    requires INT_MIN <= n <= INT_MAX
    ensures ChunkOf(otype, Arg(MKJSON_BOOL, key, Integer(n))) == Valid(KeyPrefix(otype, key) + (if n != 0 then "true" else "false"))
  {
    assert IsValueType(MKJSON_BOOL) && !IsIgnoreType(MKJSON_BOOL) && !IsStringType(MKJSON_BOOL);
  }

  /** A string is quoted and escaped; a NULL one prints as `null` without quotes. */
  lemma StringChunk(otype: int, key: Option<CString>, str: Option<CString>)
    requires otype == MKJSON_OBJ ==> key.Some?
    ensures ChunkOf(otype, Arg(MKJSON_STRING, key, Text(str))) ==
      Valid(KeyPrefix(otype, key) + (if str.None? then "null" else "\"" + Escape(str.value) + "\""))
  {
    assert IsValueType(MKJSON_STRING) && !IsIgnoreType(MKJSON_STRING) && IsStringType(MKJSON_STRING);
  }

  /** An ignore code yields no chunk, whatever value it consumes. */
  lemma IgnoredChunk(otype: int, a: Arg)
    requires otype == MKJSON_OBJ ==> a.key.Some?
    requires IsIgnoreType(a.typ)
    ensures WellTyped(a) && ChunkOf(otype, a) == Ignored
  {
    TypeCodeSigns(a.typ);
  }

  lemma JoinedTwo(x: string, y: string)
    ensures Joined([Some(x), Some(y)]) == x + ", " + y
  {
    var sl := [Some(x), Some(y)];
    assert sl[..1] == [Some(x)] && sl[..1][..0] == [];
    assert !HasSome([]);
    assert Joined([Some(x)]) == "" + "" + x == x;
    assert [Some(x)][0].Some?;
  }

  lemma JoinedWithGap(x: string, y: string)
    ensures Joined([Some(x), None, Some(y)]) == x + ", " + y
  {
    var sl := [Some(x), None, Some(y)];
    assert sl[..2] == [Some(x), None] && sl[..2][..1] == [Some(x)] && sl[..2][..1][..0] == [];
    assert !HasSome([]);
    assert Joined([Some(x)]) == "" + "" + x == x;
    assert Joined([Some(x), None]) == x;
    assert [Some(x), None][0].Some?;
  }

  lemma PlainKeyPrefix(k: char)
    requires Plain(k)
    ensures KeyPrefix(MKJSON_OBJ, Some([k])) == ['"', k, '"', ':', ' ']
  {
    EscapeSingle(k);
  }

  const OBJECT_EXAMPLE := [Arg(MKJSON_INT, Some("a"), Integer(1)), Arg(MKJSON_BOOL, Some("b"), Integer(0))]
  const ARRAY_EXAMPLE := [Arg(MKJSON_STRING, None, Text(Some("x\n"))), Arg(-MKJSON_NULL, None, NoPayload), Arg(MKJSON_STRING, None, Text(None))]

  lemma ObjectExampleChunks()
    ensures forall i :: 0 <= i < 2 ==> WellTyped(OBJECT_EXAMPLE[i])
    ensures ChunkOf(MKJSON_OBJ, OBJECT_EXAMPLE[0]) == Valid("\"a\": 1")
    ensures ChunkOf(MKJSON_OBJ, OBJECT_EXAMPLE[1]) == Valid("\"b\": false")
  {
    PlainKeyPrefix('a');
    PlainKeyPrefix('b');
    assert IntToDecimal(1) == "1";
    IntChunk(MKJSON_OBJ, Some("a"), 1);
    BoolChunk(MKJSON_OBJ, Some("b"), 0);
  }

  lemma ObjectExampleSlots()
    ensures forall i :: 0 <= i < 2 ==> WellTyped(OBJECT_EXAMPLE[i])
    ensures var cs := Chunks(MKJSON_OBJ, OBJECT_EXAMPLE);
      !AnyFailed(cs) && Slots(cs) == [Some("\"a\": 1"), Some("\"b\": false")]
  {
    ObjectExampleChunks();
    assert Chunks(MKJSON_OBJ, OBJECT_EXAMPLE) == [Valid("\"a\": 1"), Valid("\"b\": false")];
  }

  lemma ObjectExampleJoined()
    ensures forall i :: 0 <= i < 2 ==> WellTyped(OBJECT_EXAMPLE[i])
    ensures var cs := Chunks(MKJSON_OBJ, OBJECT_EXAMPLE[..2]);
      !AnyFailed(cs) && Joined(Slots(cs)) == "\"a\": 1" + ", " + "\"b\": false"
  {
    ObjectExampleSlots();
    assert OBJECT_EXAMPLE[..2] == OBJECT_EXAMPLE;
    JoinedTwo("\"a\": 1", "\"b\": false");
  }

  /** An object of an integer and a boolean: `{"a": 1, "b": false}`. */
  lemma MkJsonObjectExample()
    ensures MkJsonSpec(MKJSON_OBJ, 2, OBJECT_EXAMPLE) == Some("{" + "\"a\": 1" + ", " + "\"b\": false" + "}")
  {
    ObjectExampleJoined();
    var x, y := "\"a\": 1", "\"b\": false";
    assert [OpenBracket(MKJSON_OBJ)] == "{" && [CloseBracket(MKJSON_OBJ)] == "}";
    assert "{" + (x + ", " + y) + "}" == "{" + x + ", " + y + "}";
  }

  lemma ArrayExampleChunks()
    ensures forall i :: 0 <= i < 3 ==> WellTyped(ARRAY_EXAMPLE[i])
    ensures Chunks(MKJSON_ARR, ARRAY_EXAMPLE) == [Valid("\"x\\n\""), Ignored, Valid("null")]
  {
    var x := "x\n";
    assert x[..1] == "x" && "x"[..0] == [];
    assert Escape(x) == "x\\n";
    StringChunk(MKJSON_ARR, None, Some(x));
    StringChunk(MKJSON_ARR, None, None);
    IgnoredChunk(MKJSON_ARR, ARRAY_EXAMPLE[1]);
    var cs := Chunks(MKJSON_ARR, ARRAY_EXAMPLE);
    var want := [Valid("\"x\\n\""), Ignored, Valid("null")];
    assert cs[0] == want[0] && cs[1] == want[1] && cs[2] == want[2];
    assert |cs| == |want| && forall i :: 0 <= i < 3 ==> cs[i] == want[i];
  }

  lemma ArrayExampleSlots()
    ensures forall i :: 0 <= i < 3 ==> WellTyped(ARRAY_EXAMPLE[i])
    ensures var cs := Chunks(MKJSON_ARR, ARRAY_EXAMPLE);
      !AnyFailed(cs) && Slots(cs) == [Some("\"x\\n\""), None, Some("null")]
  {
    ArrayExampleChunks();
    var cs: seq<Chunk> := [Valid("\"x\\n\""), Ignored, Valid("null")];
    assert Slots(cs) == [Some("\"x\\n\""), None, Some("null")];
  }

  lemma ArrayExampleJoined()
    ensures forall i :: 0 <= i < 3 ==> WellTyped(ARRAY_EXAMPLE[i])
    ensures var cs := Chunks(MKJSON_ARR, ARRAY_EXAMPLE[..3]);
      !AnyFailed(cs) && Joined(Slots(cs)) == "\"x\\n\"" + ", " + "null"
  {
    ArrayExampleSlots();
    assert ARRAY_EXAMPLE[..3] == ARRAY_EXAMPLE;
    JoinedWithGap("\"x\\n\"", "null");
  }

  /** An array with an escaped string, an ignored entry and a NULL string
      (printed as `null` without quotes): `["x\n", null]`. */
  lemma MkJsonArrayExample()
    ensures MkJsonSpec(MKJSON_ARR, 3, ARRAY_EXAMPLE) == Some("[" + "\"x\\n\"" + ", " + "null" + "]")
  {
    ArrayExampleJoined();
    var x, y := "\"x\\n\"", "null";
    assert [OpenBracket(MKJSON_ARR)] == "[" && [CloseBracket(MKJSON_ARR)] == "]";
    assert "[" + (x + ", " + y) + "]" == "[" + x + ", " + y + "]";
  }

  /** An object entry without a key and a container type that is neither ARR nor OBJ give NULL. */
  lemma MkJsonRejectionExamples()
    ensures MkJsonSpec(MKJSON_OBJ, 1, [Arg(MKJSON_NULL, None, NoPayload)]) == None
    ensures MkJsonSpec(MKJSON_OBJ, 1, [Arg(-MKJSON_INT, None, Integer(0))]) == None
    ensures MkJsonSpec(2, 0, []) == None
  {
    var c := [Arg(MKJSON_NULL, None, NoPayload)];
    assert Chunks(MKJSON_OBJ, c[..1])[0].Failed?;
    var d := [Arg(-MKJSON_INT, None, Integer(0))];
    assert Chunks(MKJSON_OBJ, d[..1])[0].Failed?;
  }

  // ---------------------------------------------------------------- the merge as written

  /** The separator test of the merge loop as written: not before the
      first chunk, only after a valid chunk, and either before a valid chunk
      or before an ignored one that is not the last. */
  predicate SeparatorAsWritten(slots: seq<Option<string>>, i: nat)
    requires i < |slots|
  {
    i != 0 && slots[i - 1].Some? && (slots[i].Some? || i != |slots| - 1)
  }

  /** What the merge loop concatenates after `json + 1` in its first `n` rounds. */
  function MergedAsWritten(slots: seq<Option<string>>, n: nat): string
    requires n <= |slots|
  {
    if n == 0 then ""
    else
      MergedAsWritten(slots, n - 1) +
      (if SeparatorAsWritten(slots, n - 1) then ", " else "") +
      (match slots[n - 1] case Some(t) => t case None => "")
  }

  /** A separator has been written after the last valid chunk and no chunk has followed it yet. */
  predicate Pending(slots: seq<Option<string>>, n: nat)
    requires n <= |slots|
  {
    if n == 0 then false
    else if slots[n - 1].Some? then false
    else Pending(slots, n - 1) || SeparatorAsWritten(slots, n - 1)
  }

  /** The input shape that leaves a separator dangling: the last valid
      chunk followed by two or more ignored entries. */
  predicate TrailingIgnored(slots: seq<Option<string>>) {
    |slots| >= 3 && slots[|slots| - 1].None? && slots[|slots| - 2].None? && HasSome(slots[..|slots| - 2])
  }

  lemma {:induction false} PendingBeforeEnd(slots: seq<Option<string>>, m: nat)
    requires m < |slots|
    ensures Pending(slots, m) <==> m > 0 && slots[m - 1].None? && HasSome(slots[..m])
  {
    if m > 0 && slots[m - 1].None? {
      var i := m - 1;
      PendingBeforeEnd(slots, i);
      if HasSome(slots[..m]) {
        var j :| 0 <= j < m && slots[..m][j].Some?;
        assert j < i && slots[..i][j].Some?;
      }
      if HasSome(slots[..i]) {
        var j :| 0 <= j < i && slots[..i][j].Some?;
        assert slots[..m][j].Some?;
      }
      if i > 0 && slots[i - 1].Some? {
        assert slots[..m][i - 1].Some?;
      }
    }
  }

  /** After every round the merged text is the correct join plus at most one pending separator. */
  lemma {:induction false} MergedAsWrittenShape(slots: seq<Option<string>>, n: nat)
    requires n <= |slots|
    ensures MergedAsWritten(slots, n) == Joined(slots[..n]) + (if Pending(slots, n) then ", " else "")
  {
    if n > 0 {
      var i := n - 1;
      MergedAsWrittenShape(slots, i);
      assert slots[..n][..i] == slots[..i];
      if slots[i].Some? {
        PendingBeforeEnd(slots, i);
        if HasSome(slots[..i]) && !(i > 0 && slots[i - 1].Some?) {
          assert i > 0 by {
            var j :| 0 <= j < i && slots[..i][j].Some?;
          }
        }
        if i > 0 && slots[i - 1].Some? {
          assert slots[..i][i - 1].Some?;
        }
      }
    }
  }

  /** The dangling separator survives to the end exactly for the trailing-ignored shape. */
  lemma PendingAtEnd(slots: seq<Option<string>>)
    ensures Pending(slots, |slots|) <==> TrailingIgnored(slots)
  {
    var n := |slots|;
    if n > 0 && slots[n - 1].None? {
      var i := n - 1;
      PendingBeforeEnd(slots, i);
      if i > 0 && slots[i - 1].None? {
        if HasSome(slots[..i]) {
          var j :| 0 <= j < i && slots[..i][j].Some?;
          assert j < i - 1 && slots[..i - 1][j].Some?;
        }
        if HasSome(slots[..i - 1]) {
          var j :| 0 <= j < i - 1 && slots[..i - 1][j].Some?;
          assert slots[..i][j].Some?;
        }
      }
    }
  }

  /** The merge as written equals the join except for one trailing ", "
      on the trailing-ignored shape. */
  lemma MergeAsWritten(slots: seq<Option<string>>)
    ensures MergedAsWritten(slots, |slots|) == Joined(slots) + (if TrailingIgnored(slots) then ", " else "")
  {
    MergedAsWrittenShape(slots, |slots|);
    PendingAtEnd(slots);
    assert slots[..|slots|] == slots;
  }

  /** On that shape the `strcat`s write past the `len + 1` bytes `mkjson`
      allocates: the merged text and its terminator need `1 + |merged| + 1`
      bytes. */
  lemma MergeOverrunsAllocation(slots: seq<Option<string>>)
    requires TrailingIgnored(slots)
    ensures 1 + |MergedAsWritten(slots, |slots|)| + 1 > AllocatedLength(slots) + 1
  {
    MergeAsWritten(slots);
    JoinedLength(slots);
  }

  /** `mkjson(MKJSON_ARR, 3, MKJSON_INT, 1, MKJSON_IGN_INT, 0, MKJSON_IGN_INT, 0)`
      has the chunks "1", NULL, NULL ... */
  lemma TrailingIgnoredArgs()
    ensures Slots(Chunks(MKJSON_ARR, [Arg(MKJSON_INT, None, Integer(1)), Arg(-MKJSON_INT, None, Integer(0)), Arg(-MKJSON_INT, None, Integer(0))]))
      == [Some("1"), None, None]
  {
    var args := [Arg(MKJSON_INT, None, Integer(1)), Arg(-MKJSON_INT, None, Integer(0)), Arg(-MKJSON_INT, None, Integer(0))];
    assert IntToDecimal(1) == "1";
    IntChunk(MKJSON_ARR, None, 1);
    IgnoredChunk(MKJSON_ARR, args[1]);
    IgnoredChunk(MKJSON_ARR, args[2]);
    var cs := Chunks(MKJSON_ARR, args);
    assert cs[0] == Valid("1");
    assert cs[1] == Ignored && cs[2] == Ignored;
    var slots := Slots(cs);
    assert slots[0] == Some("1") && slots[1] == None && slots[2] == None;
  }

  /** ... so `len` is 3, yet the merge writes "1, " and its NUL from `json + 1`. */
  lemma TrailingIgnoredCounterexample()
    ensures var slots := [Some("1"), None, None];
      TrailingIgnored(slots) && MergedAsWritten(slots, 3) == "1, " && AllocatedLength(slots) == 3
  {
    var slots: seq<Option<string>> := [Some("1"), None, None];
    assert slots[..2] == [Some("1"), None] && slots[..1] == [Some("1")] && slots[..1][..0] == [];
    assert slots[..2][..1] == slots[..1];
    assert slots[..1][0].Some?;
    assert MergedAsWritten(slots, 1) == "1";
    assert MergedAsWritten(slots, 2) == "1, ";
    assert Good(slots[..1]) == 1 && SumLen(slots[..1]) == 1;
  }

  /** The merged text only grows from round to round. */
  lemma {:induction false} MergedAsWrittenGrows(slots: seq<Option<string>>, i: nat, j: nat)
    requires i <= j <= |slots|
    ensures |MergedAsWritten(slots, i)| <= |MergedAsWritten(slots, j)|
    decreases j
  {
    if i < j {
      MergedAsWrittenGrows(slots, i, j - 1);
    }
  }

  // ---------------------------------------------------------------- the C function

  /** One round of the chunk loop: the key check, the prefix built from the
      escaped key, and the switch on the type code. */
  method BuildChunk(otype: int, a: Arg) returns (c: Chunk)
    requires WellTyped(a)
    ensures c == ChunkOf(otype, a)
  {
    if otype == MKJSON_OBJ && a.key.None? {
      return Failed;
    }
    var prefix := "";
    if otype == MKJSON_OBJ {
      var escapedKey := JsonEscapeString(a.key);
      prefix := "\"" + escapedKey + "\": ";
    }
    TypeCodeSigns(a.typ);
    if IsIgnoreType(a.typ) {
      c := Ignored;
    } else if IsStringType(a.typ) {
      if a.value.str.None? {
        c := Valid(prefix + "null");
      } else {
        var escaped := JsonEscapeString(a.value.str);
        c := Valid(prefix + "\"" + escaped + "\"");
      }
    } else if IsValueType(a.typ) {
      c := Valid(prefix + Scalar(a.typ, a.value));
    } else {
      c := Failed;
    }
  }

  /** The length loop: the summed `strlen` of the non-NULL chunks. */
  method ChunkLengths(chunks: array<Option<string>>) returns (len: nat)
    ensures len == SumLen(chunks[..])
  {
    len := 0;
    var i := 0;
    while i < chunks.Length
      invariant 0 <= i <= chunks.Length
      invariant len == SumLen(chunks[..i])
    {
      assert chunks[..i + 1][..i] == chunks[..i];
      if chunks[i].Some? {
        len := len + |chunks[i].value|;
      }
      i := i + 1;
    }
    assert chunks[..i] == chunks[..];
  }

  /** `strcat(json, s)` on text that starts after `json[0]`: `s` goes
      right after the `text` held in `json[1..pos)`. */
  method StrCat(json: array<char>, pos: nat, s: string, ghost text: string)
    requires 1 <= pos && pos + |s| < json.Length && json[1..pos] == text
    modifies json
    ensures json[1..pos + |s|] == text + s
  {
    StrCpy(json, pos, s);
    assert json[1..pos + |s|] == json[..pos + |s|][1..];
  }

  /** One round of the merge loop: the separator, when the rule as written
      asks for one, and the chunk, each `strcat`ed at the end of the text. */
  method MergeRound(json: array<char>, chunks: array<Option<string>>, i: nat, pos: nat) returns (next: nat)
    requires i < chunks.Length
    requires 1 + |MergedAsWritten(chunks[..], i + 1)| < json.Length
    requires pos == 1 + |MergedAsWritten(chunks[..], i)|
    requires json[1..pos] == MergedAsWritten(chunks[..], i)
    modifies json
    ensures next == 1 + |MergedAsWritten(chunks[..], i + 1)| && json[1..next] == MergedAsWritten(chunks[..], i + 1)
  {
    ghost var slots := chunks[..];
    ghost var before := MergedAsWritten(slots, i);
    ghost var sep := if SeparatorAsWritten(slots, i) then ", " else "";
    ghost var piece := match slots[i] case Some(t) => t case None => "";
    assert MergedAsWritten(slots, i + 1) == before + sep + piece;
    next := pos;
    if i != 0 && chunks[i - 1].Some? && (chunks[i].Some? || i != chunks.Length - 1) {
      StrCat(json, next, ", ", before);
      next := next + 2;
    }
    assert json[1..next] == before + sep;
    if chunks[i].Some? {
      var t := chunks[i].value;
      assert piece == t;
      StrCat(json, next, t, before + sep);
      next := next + |t|;
    } else {
      assert before + sep + piece == before + sep;
    }
    assert json[1..next] == before + sep + piece;
  }

  /** `json[0]` and `json[len - 1]`: the brackets around the merged text. */
  method PutBrackets(json: array<char>, len: nat, otype: int, ghost text: string)
    requires 2 <= len < json.Length && json[1..len - 1] == text
    modifies json
    ensures json[..len] == [OpenBracket(otype)] + text + [CloseBracket(otype)]
  {
    json[0] := OpenBracket(otype);
    json[len - 1] := CloseBracket(otype);
    assert json[1..len - 1] == text;
    assert json[..len] == [json[0]] + json[1..len - 1] + [json[len - 1]];
  }

  /** The merge loop, then the two brackets. */
  method Merge(otype: int, chunks: array<Option<string>>, len: nat) returns (json: array<char>)
    requires len == AllocatedLength(chunks[..])
    requires !TrailingIgnored(chunks[..])
    ensures json.Length == len + 1
    ensures json[..len] == [OpenBracket(otype)] + Joined(chunks[..]) + [CloseBracket(otype)]
  {
    ghost var slots := chunks[..];
    var count := chunks.Length;
    JoinedLength(slots);
    MergeAsWritten(slots);
    assert slots[..count] == slots;
    json := new char[len + 1](_ => '\0');
    var pos := 1;
    var i := 0;
    while i < count
      invariant 0 <= i <= count
      invariant pos == 1 + |MergedAsWritten(slots, i)| <= len - 1
      invariant json[1..pos] == MergedAsWritten(slots, i)
    {
      MergedAsWrittenGrows(slots, i + 1, count);
      pos := MergeRound(json, chunks, i, pos);
      i := i + 1;
    }
    PutBrackets(json, len, otype, Joined(slots));
  }

  /** `chunks[i]` of one round that did not fail: the text of a valid
      chunk, NULL for an ignored one; `goodchunks` counts the valid one. */
  method StoreChunk(chunks: array<Option<string>>, i: nat, c: Chunk, ghost slots: seq<Option<string>>) returns (added: nat)
    requires i < chunks.Length && i < |slots| && chunks[..i] == slots[..i] && slots[i] == Slot(c)
    modifies chunks
    ensures chunks[..i + 1] == slots[..i + 1]
    ensures Good(slots[..i + 1]) == Good(slots[..i]) + added
  {
    assert slots[..i + 1][..i] == slots[..i];
    if c.Valid? {
      chunks[i] := Some(c.text);
      added := 1;
    } else {
      chunks[i] := None;
      added := 0;
    }
    assert chunks[..i + 1] == chunks[..i] + [chunks[i]];
  }

  /** The chunk loop: one chunk per group until the first failure;
      `goodchunks` counts the valid ones. */
  method BuildChunks(otype: int, count: nat, args: seq<Arg>) returns (chunks: array<Option<string>>, goodchunks: nat, failure: bool)
    requires count <= |args| && forall i :: 0 <= i < count ==> WellTyped(args[i])
    ensures chunks.Length == count
    ensures failure <==> AnyFailed(Chunks(otype, args[..count]))
    ensures !failure ==> chunks[..] == Slots(Chunks(otype, args[..count])) && goodchunks == Good(chunks[..])
  {
    ghost var cs := Chunks(otype, args[..count]);
    ghost var slots := Slots(cs);
    chunks := new Option<string>[count](_ => None);
    goodchunks := 0;
    failure := false;
    var i := 0;
    while i < count
      invariant 0 <= i <= count
      invariant chunks[..i] == slots[..i]
      invariant goodchunks == Good(slots[..i])
      invariant forall j :: 0 <= j < i ==> !cs[j].Failed?
    {
      assert args[i] == args[..count][i];
      var c := BuildChunk(otype, args[i]);
      assert c == cs[i];
      if c.Failed? {
        failure := true;
        return;
      }
      var added := StoreChunk(chunks, i, c, slots);
      goodchunks := goodchunks + added;
      i := i + 1;
    }
    assert chunks[..count] == chunks[..];
    assert slots[..count] == slots;
  }

  /**
   * `mkjson`. The chunk loop stops at the first failing group; then `len`
   * is summed, `json` is `calloc`ed with `len + 1` bytes, the chunks are
   * `strcat`ed after `json[0]` with the separator rule as written, and the
   * brackets go to `json[0]` and `json[len - 1]`. The precondition excludes
   * the trailing-ignored shape, on which the merge overruns `json`.
   */
  method MkJson(otype: int, count: int, args: seq<Arg>) returns (json: Option<string>)
    requires count < 0 || (count <= |args| && forall i :: 0 <= i < count ==> WellTyped(args[i]))
    requires count >= 0 && IsContainer(otype) && !AnyFailed(Chunks(otype, args[..count])) ==>
      !TrailingIgnored(Slots(Chunks(otype, args[..count])))
    ensures json == MkJsonSpec(otype, count, args)
  {
    if count < 0 || (otype != MKJSON_OBJ && otype != MKJSON_ARR) {
      return None;
    }
    var chunks, goodchunks, failure := BuildChunks(otype, count, args);
    if failure {
      return None;
    }
    var len := ChunkLengths(chunks);
    if goodchunks == 0 {
      goodchunks := 1;
    }
    len := len + 2 + (goodchunks - 1) * 2;
    var buf := Merge(otype, chunks, len);
    json := Some(buf[..len]);
  }
}
