/**
 * The array-driven builder `mkjson_array_internal` behind `mkjson_array`
 * and `mkjson_array_pretty`: the arguments are read from an array of
 * `mkjson_arg` records ended by one of type 0, and the text is appended to a
 * heap buffer of 256 bytes that is doubled whenever a write would not fit.
 * Entries of negative type are skipped. The compact form separates items by
 * ", " and writes object items as `"key":value`; the pretty form
 * (`indent_size > 0`) puts every item on its own line, indented by
 * `indent_size * (depth + 1)` blanks, writes `"key": value`, and puts the
 * closing bracket on a line indented by `indent_size * depth` blanks.
 */
module MkJsonArray {
  import opened CStrings
  import opened JsonEscape
  import opened MkJsonTypes
  import MkJsonVarargs

  // ---------------------------------------------------------------- the buffer

  /** The first capacity of the output buffer: `malloc(256)`. */
  const INITIAL_CAPACITY: nat := 256

  /** The capacity after `while (len + need > capacity) capacity *= 2`. */
  function Grown(capacity: nat, len: nat, need: nat): (c: nat)
    requires capacity > 0
    ensures c >= capacity && len + need <= c
    decreases len + need - capacity
  {
    if len + need <= capacity then capacity else Grown(2 * capacity, len, need)
  }

  /** Doubling stops at the first capacity that fits: either nothing grew,
      or half the new capacity was still too small. */
  lemma {:induction false} GrownIsFirstFit(capacity: nat, len: nat, need: nat)
    requires capacity > 0
    ensures Grown(capacity, len, need) == capacity || len + need > Grown(capacity, len, need) / 2
    decreases len + need - capacity
  {
    if len + need > capacity && len + need > 2 * capacity {
      GrownIsFirstFit(2 * capacity, len, need);
    }
  }

  /** The growing output buffer: `json` with its `len` and `capacity`. */
  class JsonBuffer {
    var data: array<char>
    var len: nat

    ghost predicate Valid()
      reads this
    {
      len <= data.Length && data.Length > 0
    }

    /** `json[0..len)`: the text written so far. */
    function Contents(): string
      reads this, data
      requires Valid()
    {
      data[..len]
    }

    constructor (capacity: nat)
      requires capacity > 0
      ensures Valid() && fresh(data)
      ensures data.Length == capacity && Contents() == []
    {
      data := new char[capacity](_ => '\0');
      len := 0;
    }

    /** The capacity check before a write of `need` bytes: the capacity is
        doubled until `len + need` fits, the contents moving along with
        each `realloc`. */
    method Reserve(need: nat)
      requires Valid()
      modifies this
      ensures Valid() && len == old(len) && Contents() == old(Contents())
      ensures data.Length == Grown(old(data.Length), len, need)
      ensures data == old(data) || fresh(data)
    {
      var capacity := data.Length;
      while len + need > capacity
        invariant capacity > 0 && Grown(capacity, len, need) == Grown(data.Length, len, need)
        decreases len + need - capacity
      {
        capacity := 2 * capacity;
      }
      if capacity != data.Length {
        var grown := new char[capacity](_ => '\0');
        var i := 0;
        while i < len
          invariant 0 <= i <= len
          invariant grown[..i] == data[..i]
          modifies grown
        {
          grown[i] := data[i];
          i := i + 1;
        }
        data := grown;
      }
    }

    /** `json[len++] = c`. */
    method PutChar(c: char)
      requires Valid() && len < data.Length
      modifies this, data
      ensures Valid() && data == old(data) && len == old(len) + 1
      ensures Contents() == old(Contents()) + [c]
    {
      data[len] := c;
      assert data[..len + 1] == old(data[..len]) + [c];
      len := len + 1;
    }

    /** `strcpy(json + len, s); len += strlen(s)`: the NUL after `s` is
        written too, so it needs `|s| + 1` bytes. */
    method Append(s: string)
      requires Valid() && len + |s| < data.Length
      modifies this, data
      ensures Valid() && data == old(data) && len == old(len) + |s|
      ensures Contents() == old(Contents()) + s
    {
      StrCpy(data, len, s);
      len := len + |s|;
    }

    /** `json[len] = '\0'`. */
    method Terminate()
      requires Valid() && len < data.Length
      modifies data
      ensures Contents() == old(Contents()) && data[len] == '\0'
    {
      data[len] := '\0';
    }
  }

  // ---------------------------------------------------------------- the arguments

  /** An argument array: NULL, or records ended by one of type 0. */
  predicate Terminated(args: Option<seq<Arg>>) {
    args.Some? ==> exists i :: 0 <= i < |args.value| && args.value[i].typ == 0
  }

  /** The index of the first record of type 0. */
  function ZeroIndex(s: seq<Arg>): (n: nat)
    requires exists i :: 0 <= i < |s| && s[i].typ == 0
    ensures n < |s| && s[n].typ == 0
    ensures forall j :: 0 <= j < n ==> s[j].typ != 0
  {
    if s[0].typ == 0 then 0
    else
      var i :| 0 <= i < |s| && s[i].typ == 0;
      assert s[1..][i - 1].typ == 0;
      1 + ZeroIndex(s[1..])
  }

  /** `count`: the records before the terminator, 0 for a NULL array. */
  function ArgCount(args: Option<seq<Arg>>): nat
    requires Terminated(args)
  {
    if args.None? then 0 else ZeroIndex(args.value)
  }

  /** The records the loop visits. */
  function Entries(args: Option<seq<Arg>>): (e: seq<Arg>)
    requires Terminated(args)
    ensures |e| == ArgCount(args)
  {
    if args.None? then [] else args.value[..ArgCount(args)]
  }

  /** What the builder needs of a record of a value type: a payload of
      that type, and a key in object mode (`"%s"` of a NULL key is
      undefined). */
  predicate Printable(otype: int, a: Arg) {
    IsValueType(a.typ) ==> Fits(a.typ, a.value) && (otype == MKJSON_OBJ ==> a.key.Some?)
  }

  predicate ValidArgs(otype: int, args: Option<seq<Arg>>) {
    Terminated(args) && forall i :: 0 <= i < ArgCount(args) ==> Printable(otype, args.value[i])
  }

  // ---------------------------------------------------------------- the text

  /** The value as this builder prints it; a NULL string gives `"null"`
      with the quotes (the escaper's text for NULL, quoted). */
  function ItemValue(a: Arg): string
    requires IsValueType(a.typ) && Fits(a.typ, a.value)
  {
    if IsStringType(a.typ) then Quoted(a.value.str) else Scalar(a.typ, a.value)
  }

  /** One item: `"key":value` (with a blank after the colon when pretty) in
      object mode, the value alone otherwise; nothing for a positive code
      that is not a value type (the `default` case makes no chunk). */
  function Item(otype: int, a: Arg, pretty: bool): string
    requires Printable(otype, a)
  {
    if !IsValueType(a.typ) then ""
    else (if otype == MKJSON_OBJ then "\"" + Escape(a.key.value) + "\":" + (if pretty then " " else "") else "") + ItemValue(a)
  }

  /** The item of one record, `None` for a skipped one (`type < 0`). */
  function SlotOf(otype: int, a: Arg, pretty: bool): Option<string>
    requires Printable(otype, a)
  {
    if a.typ < 0 then None else Some(Item(otype, a, pretty))
  }

  /** The items of the visited records, record by record. */
  function ItemSlots(otype: int, entries: seq<Arg>, pretty: bool): (slots: seq<Option<string>>)
    requires forall i :: 0 <= i < |entries| ==> Printable(otype, entries[i])
    ensures |slots| == |entries|
    ensures forall i :: 0 <= i < |entries| ==> slots[i] == SlotOf(otype, entries[i], pretty)
  {
    seq(|entries|, i requires 0 <= i < |entries| => SlotOf(otype, entries[i], pretty))
  }

  /** What goes before an item: the nested indent before the first one when
      pretty, and a comma followed by a newline and the nested indent (pretty)
      or by a blank (compact) before every other one. */
  function Separator(first: bool, pretty: bool, nested: string): string {
    if first then (if pretty then nested else "")
    else "," + (if pretty then "\n" + nested else " ")
  }

  /** The items laid out in order, each after its separator; a skipped
      record leaves no trace, and the first item is the first record that
      is not skipped. */
  function Layout(slots: seq<Option<string>>, pretty: bool, nested: string): string {
    if slots == [] then ""
    else
      var init := slots[..|slots| - 1];
      Layout(init, pretty, nested) +
      match slots[|slots| - 1]
      case None => ""
      case Some(t) => Separator(!MkJsonVarargs.HasSome(init), pretty, nested) + t
  }

  function Indent(indentSize: int, depth: nat): string {
    if indentSize > 0 then Spaces(indentSize * depth) else ""
  }

  /** What `mkjson_array_internal(otype, args, indent_size, depth)` returns. */
  function ArrayJson(otype: int, args: Option<seq<Arg>>, indentSize: int, depth: nat): string
    requires ValidArgs(otype, args)
  {
    var pretty := indentSize > 0;
    var ownLine := pretty && ArgCount(args) > 0;
    [OpenBracket(otype)] + (if ownLine then "\n" else "") +
    Layout(ItemSlots(otype, Entries(args), pretty), pretty, Indent(indentSize, depth + 1)) +
    (if ownLine then "\n" + Indent(indentSize, depth) else "") + [CloseBracket(otype)]
  }

  /** What record `i` adds to the layout. */
  function Piece(slots: seq<Option<string>>, i: nat, pretty: bool, nested: string): string
    requires i < |slots|
  {
    match slots[i]
    case None => ""
    case Some(t) => Separator(!MkJsonVarargs.HasSome(slots[..i]), pretty, nested) + t
  }

  lemma LayoutStep(head: string, slots: seq<Option<string>>, i: nat, pretty: bool, nested: string)
    requires i < |slots|
    ensures Layout(slots[..i + 1], pretty, nested) == Layout(slots[..i], pretty, nested) + Piece(slots, i, pretty, nested)
    ensures head + Layout(slots[..i + 1], pretty, nested) == (head + Layout(slots[..i], pretty, nested)) + Piece(slots, i, pretty, nested)
    ensures MkJsonVarargs.HasSome(slots[..i + 1]) <==> MkJsonVarargs.HasSome(slots[..i]) || slots[i].Some?
  {
    assert slots[..i + 1][..i] == slots[..i];
    if MkJsonVarargs.HasSome(slots[..i]) {
      var j :| 0 <= j < i && slots[..i][j].Some?;
      assert slots[..i + 1][j].Some?;
    }
    if MkJsonVarargs.HasSome(slots[..i + 1]) && slots[i].None? {
      var j :| 0 <= j < i + 1 && slots[..i + 1][j].Some?;
      assert slots[..i][j].Some?;
    }
  }

  // ---------------------------------------------------------------- the C functions

  /** The counting loop: records up to the first of type 0. */
  method CountArgs(args: Option<seq<Arg>>) returns (count: nat)
    requires Terminated(args)
    ensures count == ArgCount(args)
  {
    count := 0;
    if args.Some? {
      var s := args.value;
      while s[count].typ != 0
        invariant count <= ZeroIndex(s)
        decreases ZeroIndex(s) - count
      {
        count := count + 1;
      }
    }
  }

  /** The formatting of one item, with the key and a string value passed
      through `json_escape_string`. */
  method BuildItem(otype: int, a: Arg, pretty: bool) returns (chunk: string)
    requires Printable(otype, a) && IsValueType(a.typ)
    ensures chunk == Item(otype, a, pretty)
  {
    var keyEscaped := "";
    if otype == MKJSON_OBJ && a.key.Some? {
      keyEscaped := JsonEscapeString(a.key);
    }
    var value: string;
    if IsStringType(a.typ) {
      var escaped := JsonEscapeString(a.value.str);
      value := "\"" + escaped + "\"";
    } else {
      value := Scalar(a.typ, a.value);
    }
    if otype == MKJSON_OBJ {
      chunk := "\"" + keyEscaped + "\":" + (if pretty then " " else "") + value;
    } else {
      chunk := value;
    }
  }

  // ---------------------------------------------------------------- capacity checks

  /** The bytes the separator before a later item writes: the comma, then
      the newline and the nested indent (each `strcpy` followed by its NUL)
      or a blank. */
  function CommaSpace(pretty: bool, nested: string): nat {
    if pretty then 1 + 1 + |nested| + 1 else 2
  }

  /** The bytes the indent before the first item writes: the indent and
      the NUL of its `strcpy`. */
  function IndentSpace(nested: string): nat {
    |nested| + 1
  }

  /** The bytes the end writes: the newline and the indent when the
      closing bracket has a line of its own, then the bracket and the
      terminating NUL. */
  function ClosingSpace(ownLine: bool, indent: string): nat {
    if ownLine then 1 + |indent| + 1 + 1 else 2
  }

  /** The separator before an item, each write after a capacity check. */
  method PutSeparator(buf: JsonBuffer, first: bool, pretty: bool, nested: string)
    requires buf.Valid()
    modifies buf, buf.data
    ensures buf.Valid() && buf.Contents() == old(buf.Contents()) + Separator(first, pretty, nested)
    ensures buf.data == old(buf.data) || fresh(buf.data)
  {
    if !first {
      PutComma(buf, pretty, nested);
    } else if pretty {
      buf.Reserve(IndentSpace(nested));
      buf.Append(nested);
    }
  }

  /** The separator before a later item: a comma, then a newline and the
      nested indent (pretty) or a blank (compact). */
  method PutComma(buf: JsonBuffer, pretty: bool, nested: string)
    requires buf.Valid()
    modifies buf, buf.data
    ensures buf.Valid() && buf.Contents() == old(buf.Contents()) + Separator(false, pretty, nested)
    ensures buf.data == old(buf.data) || fresh(buf.data)
  {
    buf.Reserve(CommaSpace(pretty, nested));
    buf.PutChar(',');
    if pretty {
      buf.Append("\n");
      buf.Append(nested);
    } else {
      buf.PutChar(' ');
    }
  }

  /** What a record that is not skipped writes: the separator, then its
      chunk if it has one (a positive code that is not a value type leaves
      `chunk` NULL). */
  method PutChunk(buf: JsonBuffer, first: bool, pretty: bool, nested: string, chunk: Option<string>)
    requires buf.Valid()
    modifies buf, buf.data
    ensures buf.Valid()
    ensures buf.Contents() == old(buf.Contents()) + Separator(first, pretty, nested) + OrEmpty(chunk)
    ensures buf.data == old(buf.data) || fresh(buf.data)
  {
    PutSeparator(buf, first, pretty, nested);
    if chunk.Some? {
      buf.Reserve(|chunk.value| + 2);
      buf.Append(chunk.value);
    }
  }

  function OrEmpty(s: Option<string>): string {
    match s
    case None => ""
    case Some(t) => t
  }

  /** The chunk of a record that is not skipped, NULL for a positive code
      that is not a value type. */
  method FormatChunk(otype: int, a: Arg, pretty: bool) returns (chunk: Option<string>)
    requires a.typ >= 0 && Printable(otype, a)
    ensures SlotOf(otype, a, pretty) == Some(OrEmpty(chunk))
  {
    chunk := None;
    if IsValueType(a.typ) {
      var t := BuildItem(otype, a, pretty);
      chunk := Some(t);
    }
  }

  /** One round of the argument loop for the record whose item is
      `slots[i]`: nothing when it is skipped, else its separator and
      chunk. */
  method VisitArg(buf: JsonBuffer, ghost slots: seq<Option<string>>, i: nat,
                  skipped: bool, chunk: Option<string>, first: bool, pretty: bool, nested: string)
    requires i < |slots| && slots[i] == (if skipped then None else Some(OrEmpty(chunk)))
    requires first <==> !MkJsonVarargs.HasSome(slots[..i])
    requires buf.Valid()
    modifies buf, buf.data
    ensures buf.Valid()
    ensures buf.data == old(buf.data) || fresh(buf.data)
    ensures buf.Contents() == old(buf.Contents()) + Piece(slots, i, pretty, nested)
  {
    if !skipped {
      assert Piece(slots, i, pretty, nested) == Separator(first, pretty, nested) + OrEmpty(chunk);
      PutChunk(buf, first, pretty, nested, chunk);
    } else {
      assert Piece(slots, i, pretty, nested) == [];
      assert buf.Contents() == buf.Contents() + [];
    }
  }

  /** One round of the argument loop: a skipped record (`type < 0`)
      writes nothing; any other its separator and its chunk. */
  method VisitRecord(buf: JsonBuffer, otype: int, a: Arg, ghost slots: seq<Option<string>>, i: nat,
                     first: bool, pretty: bool, nested: string)
    requires Printable(otype, a) && i < |slots| && slots[i] == SlotOf(otype, a, pretty)
    requires first <==> !MkJsonVarargs.HasSome(slots[..i])
    requires buf.Valid()
    modifies buf, buf.data
    ensures buf.Valid()
    ensures buf.data == old(buf.data) || fresh(buf.data)
    ensures buf.Contents() == old(buf.Contents()) + Piece(slots, i, pretty, nested)
  {
    var chunk := None;
    if a.typ >= 0 {
      chunk := FormatChunk(otype, a, pretty);
    }
    VisitArg(buf, slots, i, a.typ < 0, chunk, first, pretty, nested);
  }

  /** The argument loop: one separator and chunk per record of the first
      `count` that is not skipped. */
  method PutItems(buf: JsonBuffer, otype: int, args: seq<Arg>, count: nat, pretty: bool, nested: string)
    requires buf.Valid()
    requires count <= |args| && forall i :: 0 <= i < count ==> Printable(otype, args[i])
    modifies buf, buf.data
    ensures buf.Valid()
    ensures buf.Contents() == old(buf.Contents()) + Layout(ItemSlots(otype, args[..count], pretty), pretty, nested)
    ensures buf.data == old(buf.data) || fresh(buf.data)
  {
    ghost var slots := ItemSlots(otype, args[..count], pretty);
    ghost var head := buf.Contents();
    var first := true;
    var i := 0;
    while i < count
      invariant 0 <= i <= count
      invariant buf.Valid()
      invariant buf.data == old(buf.data) || fresh(buf.data)
      invariant buf.Contents() == head + Layout(slots[..i], pretty, nested)
      invariant first <==> !MkJsonVarargs.HasSome(slots[..i])
    {
      var a := args[i];
      assert args[..count][i] == a && Printable(otype, a);
      assert slots[i] == SlotOf(otype, a, pretty);
      VisitRecord(buf, otype, a, slots, i, first, pretty, nested);
      LayoutStep(head, slots, i, pretty, nested);
      first := first && a.typ < 0;
      i := i + 1;
    }
    assert slots[..count] == slots;
  }

  /** The opening bracket, and the newline after it when the items go on
      lines of their own. */
  method PutOpening(buf: JsonBuffer, otype: int, ownLine: bool)
    requires buf.Valid() && buf.Contents() == [] && buf.data.Length == INITIAL_CAPACITY
    modifies buf, buf.data
    ensures buf.Valid()
    ensures buf.data == old(buf.data) || fresh(buf.data)
    ensures buf.Contents() == [OpenBracket(otype)] + (if ownLine then "\n" else "")
  {
    buf.PutChar(OpenBracket(otype));
    if ownLine {
      buf.Reserve(1);
      buf.PutChar('\n');
    }
  }

  /** The end: the newline and the indent when the closing bracket has a
      line of its own, after one capacity check, then the bracket and the
      terminating NUL. */
  method PutClosing(buf: JsonBuffer, otype: int, ownLine: bool, indent: string)
    requires buf.Valid()
    modifies buf, buf.data
    ensures buf.Valid()
    ensures buf.data == old(buf.data) || fresh(buf.data)
    ensures buf.Contents() == old(buf.Contents()) + (if ownLine then "\n" + indent else "") + [CloseBracket(otype)]
    ensures buf.len < buf.data.Length && buf.data[buf.len] == '\0'
  {
    ghost var before := buf.Contents();
    buf.Reserve(ClosingSpace(ownLine, indent));
    if ownLine {
      buf.Append("\n");
      buf.Append(indent);
    }
    assert buf.Contents() == before + (if ownLine then "\n" + indent else "");
    buf.PutChar(CloseBracket(otype));
    buf.Terminate();
  }

  /**
   * `mkjson_array_internal`: the opening bracket (and a newline when pretty
   * and `count > 0`), the items, the newline and indent before the closing
   * bracket when pretty and `count > 0`, the closing bracket and the NUL.
   * With the corrected reservations every write stays within the buffer.
   */
  method MkJsonArrayInternal(otype: int, args: Option<seq<Arg>>, indentSize: int, depth: nat) returns (json: string)
    requires ValidArgs(otype, args)
    ensures json == ArrayJson(otype, args, indentSize, depth)
  {
    var pretty := indentSize > 0;
    var indent := Indent(indentSize, depth);
    var nested := Indent(indentSize, depth + 1);
    var count := CountArgs(args);

    var buf := new JsonBuffer(INITIAL_CAPACITY);
    var ownLine := pretty && count > 0;
    PutOpening(buf, otype, ownLine);
    ghost var head := buf.Contents();
    if args.Some? {
      PutItems(buf, otype, args.value, count, pretty, nested);
    }
    ghost var items := Layout(ItemSlots(otype, Entries(args), pretty), pretty, nested);
    assert buf.Contents() == head + items;
    PutClosing(buf, otype, ownLine, indent);
    json := buf.Contents();
  }

  /** `mkjson_array(otype, args)`: the compact form. */
  method MkJsonArrayCompact(otype: int, args: Option<seq<Arg>>) returns (json: string)
    requires ValidArgs(otype, args)
    ensures json == ArrayJson(otype, args, 0, 0)
  {
    json := MkJsonArrayInternal(otype, args, 0, 0);
  }

  /** `mkjson_array_pretty(otype, args, indent_size)`: the pretty form at depth 0. */
  method MkJsonArrayPretty(otype: int, args: Option<seq<Arg>>, indentSize: int) returns (json: string)
    requires ValidArgs(otype, args)
    ensures json == ArrayJson(otype, args, indentSize, 0)
  {
    json := MkJsonArrayInternal(otype, args, indentSize, 0);
  }
}
