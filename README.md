# uhubctl 1.5 and mkjson in Dafny

This project models the deterministic core of uhubctl 1.5, a tool that
switches the power of single ports of USB hubs, and of mkjson, the small
JSON serialiser that comes with it. Properties of that model are proved.

The uhubctl side has four parts:

- **hub classification** (`is_smart_hub`, module `UsbHub`): decodes a hub
  class descriptor (USB 2.0 section 11.23.2.1, Table 11-13) into a port
  count, 0 or an error;
- **the hub catalog** (`usb_find_hubs`, module `HubCatalog`):
  - a class `HubTable` whose `hubs` array and `hubCount` stand for the
    global `hubs[MAX_HUBS]` and `hub_count`;
  - the vendor string `"vvvv:pppp"` and the location string
    `"bus-p1.p2..."`;
  - the `-l` and `-n` filters, the capacity of 64 entries and the
    access-error return code;
- **option decoding** for `-p` (port mask) and `-a` (action), in module
  `HubOptions`;
- **the power loop** at the end of `main` (module `PowerControl`): a
  method that returns the control transfers it sends, proved equal to a
  plan function. Reference definitions state properties of that plan:
  - how often each transfer is sent;
  - which transfers may be sent at all;
  - the order they are sent in.

The mkjson side has three parts:

- **string escaping** (`json_escaped_len`, `json_escape_string`, module
  `JsonEscape`): the escapes of section 7 of RFC 8259. A reading-back
  function `Unescape` is the partner of the escaper.
- **the variadic builder** `mkjson` (module `MkJsonVarargs`): the chunk
  list, ignored entries, the separator merge and the brackets.
- **the array builder** `mkjson_array` / `mkjson_array_pretty` (modules
  `MkJsonArray` and `MkJsonArrayFacts`):
  - a class `JsonBuffer` whose `data` array is reallocated by doubling;
  - the compact and the pretty layout, each proved equal to a join of the
    items.

`MkJsonTypes` holds the encodings of `mkjson.h`, and `CStrings` holds models
of the C library routines the code relies on:

- `tolower` and `strcasecmp`;
- `%d` and `%04x`, with their round trips;
- `strcpy`.

What libusb returns becomes an input:

- a `Device` value carries its class, vendor and product IDs, bus number,
  port path, and the outcome of opening it and of the descriptor transfer;
- the power loop takes `canOpen(i)`, whether hub `i` could be opened;
- it also takes `status(i, k, port)`, the wPortStatus word read in phase
  `k` (0 = off, 1 = on).

Later uhubctl releases add features that 1.5 does not have:

- USB2/USB3 dual-hub pairing;
- container IDs;
- attached-device search;
- level and exact filters;
- a catalog of 128 hubs;
- refusing to act on several hubs at once.

The model follows the 1.5 code:

- `MAX_HUBS` is 64 (uhubctl.c:114);
- several hubs with an action only print a warning (uhubctl.c:493-498);
- port counts are not range-checked: a 1..6 byte descriptor counts as a
  hub with that many ports, and any `bNbrPorts` is taken as given;
- under the default options (`opt_internal` 0, so a minimum current of 1)
  an internal per-port hub classifies as -1 (uhubctl.c:215-216), which
  clears `perm_ok` (uhubctl.c:316-318); a machine with only internal smart
  hubs therefore makes the scan return LIBUSB_ERROR_ACCESS
  (uhubctl.c:353-355), although the comment at uhubctl.c:176 describes -1
  as an access error.

## Model

| member | source | states |
|---|---|---|
| UsbHub.IsSmartHub | uhubctl.c:178-225 | A device whose class is not hub gives 0, an open failure gives the open's error code, a failed descriptor transfer gives the transfer's error code, and a per-port hub with `bHubContrCurrent` below a positive minimum gives exactly -1. The result is negative exactly when open or transfer failed, or when a per-port hub has `bHubContrCurrent` below a positive minimum. It is positive exactly when a 7-byte-or-longer descriptor is per-port switched with a nonzero `bNbrPorts` (then it is `bNbrPorts`), or when a shorter, nonempty transfer came back (then it is that length). |
| UsbHub.GangedOrUnprotectedIsNotSmart | uhubctl.c:202-218 | Any LPSM other than 01 or any OCPM other than 01 (in bits D1..D0 and D4..D3) gives 0 for every minimum current. |
| UsbHub.InternalAllowedGivesPortCount | uhubctl.c:202-212 | With internal hubs allowed (minimum 0), every per-port descriptor yields its `bNbrPorts`. |
| UsbHub.OnlyMaskedBitsMatter | uhubctl.c:203-208 | Only the LPSM and OCPM bits of `wHubCharacteristics` decide per-port switching. |
| UsbHub.PerPortExamples | uhubctl.c:88-95 | Characteristics 0x09, 0xE9 and 0x0D are per-port; 0x00, 0x02, 0x11 and 0x01 are not. |
| CStrings.EqualIgnoreCaseIsLowerEquality | uhubctl.c:344-347 | The `strcasecmp` test is equality after lower-casing both strings. |
| CStrings.DecimalRoundTrip | uhubctl.c:334-340 | The `%d` text of a natural number reads back as that number. |
| CStrings.IntRoundTrip | mkjson.c:296-304 | The `%d` text of any integer, with its sign, reads back as that integer. |
| CStrings.Hex4RoundTrip | uhubctl.c:326-331 | The `%04x` text of a 16-bit value reads back as that value. |
| CStrings.StrCpy | mkjson.c:601-604 | `strcpy` writes the string and a NUL after it, exactly `|s| + 1` bytes: the bytes before it and the bytes after the NUL are unchanged, and the prefix then reads as old prefix plus string. |
| HubCatalog.VendorStringFormat | uhubctl.c:326-331 | The vendor string has 9 characters: four lowercase hex digits of the VID, `:`, and four of the PID, which read back as VID and PID. |
| HubCatalog.VendorStringInjective | uhubctl.c:326-331 | Distinct VID:PID pairs give distinct vendor strings. |
| HubCatalog.BuildLocation | uhubctl.c:333-341 | The `sprintf`/`strcat` loop builds the location string: the decimal bus, then `-` and the first port, then `.` and each later port. |
| HubCatalog.LocationRoundTrip | uhubctl.c:333-341 | Parsing a location string gives back its bus and its whole port chain. |
| HubCatalog.LocationInjective | uhubctl.c:333-341 | Two devices have the same location string exactly when bus and port chain are equal. |
| HubCatalog.LocationExamples | uhubctl.c:333-341 | Bus 3 with chain [1, 4] gives "3-1.4", and bus 2 with no chain gives "2". |
| HubCatalog.LocationMultiDigitExample | uhubctl.c:333-341 | Bus 1 with chain [2, 10, 3] gives "1-2.10.3". |
| HubCatalog.LocationFits | uhubctl.c:333-341 | A byte bus with at most 7 byte ports gives at most 31 characters, so the location fits `location[32]` with its NUL. |
| HubCatalog.ScanKeepsFirstQualifying | uhubctl.c:310-351 | The catalog holds the first 64 of the devices that classify positive and pass both filters, in device-list order (reference `Qualifying`). |
| HubCatalog.ScanPermission | uhubctl.c:307-319 | `perm_ok` stays set exactly when no device classified negative. |
| HubCatalog.ScanInvariant | uhubctl.c:320-350 | The catalog never exceeds 64 entries, and only grows. Each new entry has `nports > 0`, matches the location exactly and the vendor as a prefix (both ignoring case), and is the entry of some scanned device. |
| HubCatalog.StepKeeps | uhubctl.c:316-350 | One device either leaves the catalog unchanged (a filtered-out slot is reused) or appends its own entry, and only with room left, a positive classification and both filters passing. |
| HubCatalog.ReturnCodeMeaning | uhubctl.c:353-356 | The result is LIBUSB_ERROR_ACCESS exactly when some classification was negative and nothing was kept; otherwise it is the number of kept hubs. |
| HubCatalog.HubTable.constructor | uhubctl.c:114-116 | The table starts empty with a fresh array of 64 slots. |
| HubCatalog.HubTable.FindHubs | uhubctl.c:303-357 | After the device loop, `hubs[0..hub_count)` is the scan's catalog and the result is its return code. |
| HubCatalog.HubTable.VisitDevice | uhubctl.c:311-351 | One turn of the device loop updates table and `perm_ok` as one scan step. |
| HubCatalog.HubTable.Consider | uhubctl.c:320-350 | A smart hub's entry is written to the next slot and kept exactly when it passes the filters. |
| HubOptions.LowMask | uhubctl.c:512 | `(1 << n) - 1` holds exactly the bits below `n`. |
| HubOptions.PortBit | uhubctl.c:398-406 | A port character sets a bit below 31. |
| HubOptions.PortMaskBits | uhubctl.c:398-406 | A bit is in the parsed `-p` mask exactly when some character of the list names it (character c sets bit c-'1'). |
| HubOptions.DigitListWithinAllPorts | uhubctl.c:398-406 | A list of digits 1..9 stays within ALL_HUB_PORTS (0x1FF). |
| HubOptions.ParsePorts | uhubctl.c:391-407 | `-p all` in any case, or an empty list, keeps the current mask; any other list replaces it by its parsed mask. |
| HubOptions.NamesExclusive | uhubctl.c:408-418 | No `-a` word names two actions. |
| HubOptions.DigitNamesExact | uhubctl.c:408-418 | A digit matches case-insensitively only itself. |
| HubOptions.DecodeAction | uhubctl.c:408-418 | off/0, on/1 and cycle/2 (any case) select POWER_OFF, POWER_ON and POWER_CYCLE; the action changes only for one of these words. |
| HubOptions.DecodeActionName | uhubctl.c:408-418 | Each action's word and its digit decode back to that action. |
| HubOptions.DecodeActionIgnoresCase | uhubctl.c:408-418 | Decoding is the same for two spellings that differ only in case. |
| PowerControl.PhasesPlanTwo | uhubctl.c:514-518 | The off phase runs before the on phase; off is dropped for POWER_ON and on for POWER_OFF. |
| PowerControl.CopiesCount | uhubctl.c:529-546 | The `repeat--` loop sends its transfer exactly `repeat` times and nothing else. |
| PowerControl.PortPlanCount | uhubctl.c:522-546 | One port sends only transfers for that port, each as often as the reference count says. |
| PowerControl.PhasePlanCount | uhubctl.c:522-528 | One phase sends each transfer as often as the reference count for its port. |
| PowerControl.HubPlanCount | uhubctl.c:505-528 | A hub sends nothing for POWER_KEEP or when it cannot be opened; otherwise it sends what its off and on phases send. |
| PowerControl.PlanCount | uhubctl.c:500-560 | Every transfer is sent exactly as often as the order-free reference `ExpectedCount` says. That means: port-power requests with type 0x23 and value 8 only, ports 1..nports inside `((1<<nports)-1) & opt_ports`, only when the power bit (0x0100) differs from the phase's target, `opt_repeat` times for an off request to a port showing more than its power bit, and once otherwise. |
| PowerControl.PlanRequests | uhubctl.c:500-546 | POWER_KEEP sends nothing. Every transfer goes to an opened hub, to a selected port in range, with request type 0x23 and PORT_POWER. A ClearPortFeature only goes to a powered port, under an action other than ON; a SetPortFeature only to an unpowered port, under an action other than OFF. |
| PowerControl.PhasePlanOrdered | uhubctl.c:522-528 | Within a phase, ports are visited in increasing order. |
| PowerControl.HubPlanOrdered | uhubctl.c:514-528 | A hub's transfers come all together, off phase first. |
| PowerControl.PlanOrdered | uhubctl.c:500-528 | Hubs are served in catalog order; within a hub every ClearPortFeature precedes every SetPortFeature; within one request kind, ports increase. |
| PowerControl.PowerHubs | uhubctl.c:493-560 | The hub loop sends exactly the plan of the catalog, and warns exactly when more than one hub is to be changed. |
| PowerControl.PowerStep | uhubctl.c:501-556 | One turn of the hub loop appends that hub's plan. |
| PowerControl.PowerHub | uhubctl.c:512-555 | For an opened hub, both phase turns append the two-phase plan for the ports `((1<<nports)-1) & opt_ports`. |
| PowerControl.PhaseStep | uhubctl.c:514-528 | One phase turn appends that phase's plan when the action runs it, and nothing otherwise. |
| PowerControl.PowerPhase | uhubctl.c:519-528 | The port loop of a phase appends the plan of ports 1..nports. |
| PowerControl.PowerPort | uhubctl.c:523-546 | One port appends its skip-or-repeat plan. |
| PowerControl.RunMain | uhubctl.c:469-560 | The catalog is the scan's result. A return code <= 0 exits with 1 and sends nothing; otherwise it exits with 0, warns as predicted, and sends exactly the plan. |
| MkJsonTypes.TypeCodesAreLetters | mkjson.h:20-33 | Each value-type code is the character code of its letter. |
| MkJsonTypes.TypeListsEnumerate | mkjson.h:20-46 | The value-type and ignore-type predicates enumerate exactly the enumeration's two lists. |
| MkJsonTypes.ValueTypesDistinctPositive | mkjson.h:22-33 | The twelve value codes are positive and pairwise distinct. |
| MkJsonTypes.TypeCodeSigns | mkjson.h:20-46 | Ignore codes are negative and value codes positive, so `type < 0` picks the ignore types, 0 is neither type and can end an argument array, and no code is both. |
| MkJsonTypes.IgnoreCodesAreNegations | mkjson.h:36-45 | The ignore codes are exactly the negated value codes other than the two SCI codes. |
| MkJsonTypes.ScalarRendering | mkjson.c:282-337 | Raw JSON is printed as is (NULL as `null`). An integer prints as decimal text that reads back as the number. A boolean prints `true` exactly when nonzero; MKJSON_NULL prints `null`; a float prints its formatted text. |
| JsonEscape.EscapeChar | mkjson.c:66-84 | A quote, backslash, \b, \f, \n, \r or \t takes 2 characters; any other control character takes 6; everything else takes 1. These are the increments of the length count. |
| JsonEscape.JsonEscapedLen | mkjson.c:59-87 | The counted length equals the length of the escaped string, and is 4 for NULL. |
| JsonEscape.PutEscaped | mkjson.c:103-121 | One case of the switch writes that character's escape after what was written before. |
| JsonEscape.JsonEscapeString | mkjson.c:90-126 | The buffer ends up holding the escaped string, and NULL gives "null". |
| JsonEscape.EscapeRoundTrip | mkjson.c:90-126 | Reading an escaped string back gives the original string. |
| JsonEscape.EscapeInjective | mkjson.c:90-126 | Distinct strings escape to distinct strings. |
| JsonEscape.EscapeHasNoControl | mkjson.c:103-121 | The escaped string contains no character below 0x20. |
| JsonEscape.EscapeIdentity | mkjson.c:103-121 | A string is left unchanged exactly when none of its characters is a control character, a quote or a backslash. |
| JsonEscape.EscapeLength | mkjson.c:59-87 | Escaping never shortens, and it lengthens whenever such a character occurs. |
| JsonEscape.EscapeShortTable | mkjson.c:105-117 | The seven two-character escapes are `\"`, `\\`, `\b`, `\f`, `\n`, `\r` and `\t`. |
| JsonEscape.EscapeHexTable | mkjson.c:118-121 | 0x01 becomes `\u0001` and 0x1F becomes `\u001f`; plain characters are copied. |
| MkJsonVarargs.ChunkOfCases | mkjson.c:156-354 | A chunk fails exactly when a NULL key is met in object mode or the code is unknown. It is ignored exactly when the code is an ignore code (keys checked first). Otherwise it is the key prefix followed by the value text. |
| MkJsonVarargs.JoinedIsJoinList | mkjson.c:377-389 | The merge writes the valid chunks joined by ", ", whatever the ignored entries between them. |
| MkJsonVarargs.JoinedLength | mkjson.c:363-370 | The merged text's length is the chunks' total plus 2 per separator, as the allocation computes. |
| MkJsonVarargs.MkJsonNullCases | mkjson.c:145-396 | The result is NULL exactly when `count < 0`, `otype` is neither OBJ nor ARR, or a chunk failed. |
| MkJsonVarargs.MkJsonShape | mkjson.c:363-393 | A result is the opening bracket, the valid chunks joined by ", ", and the matching bracket, and has exactly the allocated length. |
| MkJsonVarargs.MkJsonEmpty | mkjson.c:363-393 | No arguments give `{}` or `[]`. |
| MkJsonVarargs.IntChunk | mkjson.c:296-304 | An int entry is its key prefix and its decimal text. |
| MkJsonVarargs.BoolChunk | mkjson.c:329-332 | A bool entry is its key prefix and `true` or `false`. |
| MkJsonVarargs.StringChunk | mkjson.c:251-279 | A string entry is its key prefix and the quoted escaped string, or `null` for NULL. |
| MkJsonVarargs.IgnoredChunk | mkjson.c:202-249 | An ignore code consumes its argument and gives no chunk. |
| MkJsonVarargs.PlainKeyPrefix | mkjson.c:174-199 | An object entry starts with the quoted escaped key, a colon and a blank. |
| MkJsonVarargs.JoinedTwo | mkjson.c:377-389 | Two valid chunks are joined by ", ". |
| MkJsonVarargs.JoinedWithGap | mkjson.c:377-389 | An ignored entry between two chunks adds no separator of its own. |
| MkJsonVarargs.MkJsonObjectExample | mkjson.c:130-404 | An object of int 1 and bool false gives `{"a": 1, "b": false}`. |
| MkJsonVarargs.MkJsonArrayExample | mkjson.c:130-404 | An array of a string with a newline, an ignored int and a null gives `["x\n", null]`. |
| MkJsonVarargs.MkJsonRejectionExamples | mkjson.c:145-169 | NULL keys in object mode, also for an ignored entry, reject; an `otype` of 2 rejects. |
| MkJsonVarargs.MergedAsWrittenShape | mkjson.c:377-389 | After `n` rounds the as-written merge holds the corrected join of the first `n` entries plus one stray ", " exactly when a separator is pending (`Pending`). |
| MkJsonVarargs.PendingBeforeEnd | mkjson.c:377-389 | Before the last round (`n` below the number of entries) a separator is pending exactly when entry `n - 1` is ignored and a valid chunk came before it. |
| MkJsonVarargs.PendingAtEnd | mkjson.c:377-389 | After the last round, where the `i != count - 1` test drops the separator before a final ignored entry, a separator is pending exactly when the last valid chunk is followed by two or more ignored entries. |
| MkJsonVarargs.MergeAsWritten | mkjson.c:377-389 | The as-written merge is the join plus a stray ", " exactly when the last valid chunk is followed by two or more ignored entries. |
| MkJsonVarargs.MergeOverrunsAllocation | mkjson.c:363-389 | In that case the merged text no longer fits the allocated buffer. |
| MkJsonVarargs.TrailingIgnoredArgs | mkjson.c:202-304 | The arguments int 1, ignored int, ignored int give the slots 1, none, none. |
| MkJsonVarargs.TrailingIgnoredCounterexample | mkjson.c:363-389 | For those slots the code writes "1, " into a 3+1 byte allocation. |
| MkJsonVarargs.MergedAsWrittenGrows | mkjson.c:377-389 | The as-written merge only grows from one round to the next. |
| MkJsonVarargs.BuildChunk | mkjson.c:158-345 | One turn of the chunk loop builds the chunk the specification gives. |
| MkJsonVarargs.ChunkLengths | mkjson.c:363-367 | The length loop adds up the lengths of the chunks that are not NULL. |
| MkJsonVarargs.StrCat | mkjson.c:384-388 | `strcat(json + 1, s)` appends `s` to the text after the first byte. |
| MkJsonVarargs.MergeRound | mkjson.c:378-389 | One merge round moves the buffer from the merge after `i` rounds to the merge after `i + 1` rounds. |
| MkJsonVarargs.PutBrackets | mkjson.c:392-393 | The brackets are written around the merged text. |
| MkJsonVarargs.Merge | mkjson.c:373-393 | The allocated buffer of `len + 1` bytes ends up holding bracket, joined chunks, bracket. |
| MkJsonVarargs.StoreChunk | mkjson.c:349-353 | Storing one chunk extends the chunk array and counts it into `goodchunks` when valid. |
| MkJsonVarargs.BuildChunks | mkjson.c:156-354 | The chunk loop fails exactly when some chunk fails; otherwise it holds the chunk of every argument and `goodchunks` counts the valid ones. |
| MkJsonVarargs.MkJson | mkjson.c:130-404 | `mkjson` returns exactly the specification's result: NULL in the rejection cases, else bracket, chunks joined by ", ", bracket. |
| MkJsonArray.Grown | mkjson.c:590-599 | The doubling loop ends with a capacity no smaller than before that fits the write. |
| MkJsonArray.GrownIsFirstFit | mkjson.c:590-599 | Doubling stops at the first capacity that fits: either nothing was doubled, or half the result did not fit. |
| MkJsonArray.JsonBuffer.constructor | mkjson.c:547-552 | The buffer starts empty with the requested capacity. |
| MkJsonArray.JsonBuffer.Reserve | mkjson.c:590-599 | Growing keeps the text and `len`, and the capacity becomes the first doubling that fits the write. |
| MkJsonArray.JsonBuffer.PutChar | mkjson.c:600 | `json[len++] = c` appends one character. |
| MkJsonArray.JsonBuffer.Append | mkjson.c:601-606 | `strcpy` at `len` plus `len += strlen` appends a string. |
| MkJsonArray.JsonBuffer.Terminate | mkjson.c:780 | The NUL goes right after the text and leaves the text alone. |
| MkJsonArray.ZeroIndex | mkjson.c:456-461 | The count is the index of the first record with type 0: that record has type 0 and none before it does. |
| MkJsonArray.CountArgs | mkjson.c:456-461 | The counting loop stops at the first record of type 0 (0 for a NULL array). |
| MkJsonArray.BuildItem | mkjson.c:628-740 | The chunk of a value record is the specification's item: `"key":` (`": "` when pretty) in object mode, then the value's text. |
| MkJsonArray.PutSeparator | mkjson.c:587-624 | Before a later item it appends `", "` (compact) or `","`, a newline and the nested indent (pretty); before the first pretty item it appends the indent alone. |
| MkJsonArray.PutComma | mkjson.c:588-608 | Before a later item it appends `","` followed by a newline and the nested indent (pretty) or by a blank (compact). |
| MkJsonArray.PutChunk | mkjson.c:587-756 | A record that is not skipped appends its separator and then its chunk. |
| MkJsonArray.FormatChunk | mkjson.c:636-740 | The formatted chunk is the item, and a positive code that is no value type gives an empty item (NULL chunk). |
| MkJsonArray.VisitArg | mkjson.c:585-756 | One loop turn appends the piece of layout of its record: nothing when skipped. |
| MkJsonArray.VisitRecord | mkjson.c:578-757 | One loop turn, from record to chunk, appends that piece of layout. |
| MkJsonArray.PutItems | mkjson.c:577-757 | The argument loop appends the layout of all counted records. |
| MkJsonArray.PutOpening | mkjson.c:547-573 | The buffer starts with the opening bracket, followed by a newline when pretty with records. |
| MkJsonArray.PutClosing | mkjson.c:760-780 | The end appends newline and indent (pretty with records) and the closing bracket, then a NUL inside the buffer. |
| MkJsonArray.MkJsonArrayInternal | mkjson.c:422-789 | The returned text is the specification's array JSON. |
| MkJsonArray.MkJsonArrayCompact | mkjson.c:410-413 | `mkjson_array` is the text with indent size 0 and depth 0. |
| MkJsonArray.MkJsonArrayPretty | mkjson.c:416-419 | `mkjson_array_pretty` is the text with the given indent size at depth 0. |
| MkJsonArrayFacts.CompactLayoutIsJoined | mkjson.c:585-756 | In compact form the items are the non-skipped records joined by ", ". |
| MkJsonArrayFacts.PrettyLayoutIsLines | mkjson.c:585-756 | In pretty form the items are the non-skipped records, each indented, joined by "," and a newline. |
| MkJsonArrayFacts.LayoutOfSkipped | mkjson.c:585 | Skipped records write nothing. |
| MkJsonArrayFacts.CompactArray | mkjson.c:557-780 | A compact result is bracket, items joined by ", ", bracket, with keys as `"k":value`. |
| MkJsonArrayFacts.PrettyArray | mkjson.c:425-780 | With records, a pretty result is: bracket, newline, items indented by `indent_size*(depth+1)` and joined by "," and a newline, then newline, `indent_size*depth` spaces, bracket. |
| MkJsonArrayFacts.EmptyArray | mkjson.c:456-780 | No records give `{}` or `[]` in both forms. |
| MkJsonArrayFacts.AllSkippedPretty | mkjson.c:561-777 | Pretty records that are all skipped still give bracket, two newlines, the closing indent and bracket, because the code tests `count > 0`. |
| MkJsonArrayFacts.StopsAtTerminator | mkjson.c:456-461 | Records after the first type-0 record change nothing. |
| MkJsonArrayFacts.ArrayIgnoresKeys | mkjson.c:628 | In array mode the keys are never read: any keys give the same text. |
| MkJsonArrayFacts.SharedSlots | mkjson.c:638-736 | For array records that satisfy `Printable` and `SharedRecord` (every code is a value or ignore code, and no string value is NULL), both builders make the same item of each record. Outside that condition they differ: a NULL string is `null` in `mkjson` and `"null"` in the array builder, and a positive code without a case makes `mkjson` fail but gives the array builder an empty item. |
| MkJsonArrayFacts.SharedMkJson | mkjson.c:130-404 | `mkjson` over such records gives bracket, their items joined, bracket. |
| MkJsonArrayFacts.CompactArrayIsMkJson | mkjson.c:130-789 | For records that satisfy `SharedRecord` (every code is a value or ignore code, and no string value is NULL), a compact `mkjson_array` of array records equals `mkjson` given the same records up to the terminator. The two differ on a NULL string: `mkjson` prints `null`, the array builder prints `"null"`. |
| MkJsonArrayFacts.CompactObjectExample | mkjson.c:422-789 | Records int a=1, ignored, bool b=true give `{"a":1, "b":true}`. |
| MkJsonArrayFacts.PrettyArrayExample | mkjson.c:422-789 | Indent size 2 turns `[1, "x"]` into lines "  1," and "  \"x\"" between lines holding only the brackets. |
| MkJsonArrayFacts.FirstIndentOverrun | mkjson.c:609-624 | The as-written first-indent check leaves a 256-byte buffer in place when the indent fills it exactly, so the NUL of `strcpy` lands at index 256; the corrected check grows the buffer. |
| MkJsonArrayFacts.CommaOverrun | mkjson.c:588-608 | The same happens for the pretty separator: the as-written check reserves no byte for the NUL after the nested indent. |
| MkJsonArrayFacts.ClosingOverrun | mkjson.c:760-780 | In pretty form the as-written closing check leaves the final NUL at index 256; the corrected check grows the buffer. |
| MkJsonArrayFacts.CompactCloseOverrun | mkjson.c:738-780 | In compact form a record with no chunk after a separator that filled the buffer leaves bracket and NUL outside it; the corrected check grows the buffer. |

## Left out

- libusb: `libusb_init`/`exit`, the device list, `libusb_open`/`close`, control transfers, `libusb_get_bus_number` and `libusb_get_port_path` are foreign calls. Their results are inputs (`Device`, `canOpen`, `status`), and the transfers sent are the output of the power loop.
- `libusb_get_device_descriptor` failing (uhubctl.c:312-314, 188) is not modelled: a device's class is always known.
- Error words from `get_port_status`, which the loop would bit-test (uhubctl.c:247-249, 524), are not modelled: a status is a 16-bit word.
- The result of each power transfer and its `perror` are not modelled: a failing transfer is still counted as sent.
- Timing: `usleep(opt_wait * 1000)` and `sleep(opt_delay)` are left out, with no effect on the transfers.
- Printed output: `printf`/`fprintf` messages, `print_usage` and the status printer `hub_port_status` are left out. The warning for several hubs is a boolean result.
- Option parsing: `getopt_long`, the `atoi` of `-d`, `-r` and `-w`, and the `strncpy` of `-l`, `-n` and `-i` are left out. The filter values and options are inputs.
- HubOptions.ParsePorts: requires every character of a port list to be a shift that C defines ('1' or above, and below '1' + 31). The code only prints a message for other characters and then shifts by an undefined amount.
- PowerControl.RunMain: requires every classification to be below 31, since `(1 << nports) - 1` overflows a C `int` beyond that. Port masks are sets of bit positions rather than 32-bit words.
- Floating-point values (`MKJSON_DOUBLE`, `LDOUBLE`, `SCI_*`) carry the text `printf` would make of them. Float formatting itself is not modelled.
- Memory: failed `malloc`/`calloc`/`realloc` returns and every `free`, including those of the `*_FREE` variants, are left out. The `*_FREE` types behave like their plain counterparts.
- `allsprintf` (mkjson.c:18-56) is modelled as string concatenation.
- The block at mkjson.c:463-544 converts the array into variadic form and then only frees the result. It has no effect and is not modelled.
- MkJsonVarargs.MkJson: requires that the last valid chunk is not followed by two or more ignored entries. For that input the code writes past its allocation (see Findings).
- MkJsonVarargs.MkJson: requires each argument's value to have the C type its code reads (`WellTyped`). A mismatch is undefined behaviour of `va_arg`.
- MkJsonArray.MkJsonArrayInternal: requires a non-NULL key for every value record in object mode (`Printable`). Passing NULL to `"%s"` is undefined behaviour.
- MkJsonArray.MkJsonArrayInternal: requires `ValidArgs`: the records end with a record of type 0 (`Terminated`), and every value record before it carries a payload of the C type its code reads (`Fits`: text for the string and JSON codes, an `int`-range integer for MKJSON_INT and MKJSON_BOOL, a `long long`-range integer for MKJSON_LLINT, a formatted number for the float codes). `Terminated` is needed because the counting loop (mkjson.c:456-461) walks the array until a type-0 record and reads past an array that has none. `Fits` drops no real input: the switch (mkjson.c:638-736) reads the union member its code names (`int_val`, `llint_val`, `str_val`, ...), and `Payload` stands for that member's value.
- MkJsonArray.Indent: `indent_size * depth` is computed on unbounded integers, not C `int`.
- MkJsonArray.JsonBuffer.Reserve, MkJsonArray.MkJsonArrayInternal, MkJsonVarargs.MkJson: the buffer lengths `len`, `capacity` and `chunk_len` of `mkjson_array_internal` (mkjson.c:548-549, 582) and `len` of `mkjson` (mkjson.c:132) are C `int`s but are unbounded here, so the model does not capture `capacity *= 2` or a length sum overflowing past 2^31 - 1.
- CStrings.StrCpy, MkJsonVarargs.StrCat, MkJsonArray.JsonBuffer.Append: copy the whole of `s`, where C's `strcpy`, `strcat` and `strlen` stop at the first NUL. They agree for NUL-free text. Keys, string values and float text are `CString`s (NUL-free by type), and the other texts are built from those, digits, blanks and punctuation, but NUL-freeness of the assembled chunks is not carried in their types.
- MkJsonArray.PutSeparator, MkJsonArray.PutComma, MkJsonArray.PutClosing: pass `Reserve` the corrected byte counts (CommaSpace in PutComma, IndentSpace in PutSeparator, ClosingSpace in PutClosing), which include the NUL bytes the code writes. `Reserve` itself grows the buffer as the code does. The corrected counts change only when the buffer grows, never the text produced. The as-written counts are the Findings below.

## Findings

| source | as written | input that shows it | evidently intended | confidence | as-written member | corrected member |
|---|---|---|---|---|---|---|
| mkjson.c:384 | a separator is written after a valid chunk when the next entry is ignored and not the last one | `mkjson(MKJSON_ARR, 3, MKJSON_INT, 1, MKJSON_IGN_INT, 0, MKJSON_IGN_INT, 0)` merges "1, " into a buffer allocated for "[1]" | separators only between two valid chunks | not executed | MkJsonVarargs.TrailingIgnoredCounterexample | MkJsonVarargs.JoinedLength |
| mkjson.c:611-623 | the first-item check reserves `strlen(nested_indent)` bytes, without the NUL `strcpy` writes | `mkjson_array_pretty(MKJSON_ARR, {int 1, end}, 254)`: the 254-blank indent after "[\n" fills 256 bytes and the NUL lands at index 256 | reserve the indent plus its NUL | not executed | MkJsonArrayFacts.FirstIndentOverrun | MkJsonArray.PutSeparator |
| mkjson.c:589-605 | the pretty separator check reserves 1 + newline + indent bytes, without the NUL of the second `strcpy` | indent size 1, a first string of 248 blanks, then a second record: the separator ends at byte 256 and its NUL lands at index 256 | reserve the separator plus its NUL | not executed | MkJsonArrayFacts.CommaOverrun | MkJsonArray.PutComma |
| mkjson.c:762-780 | the pretty closing check reserves newline + indent + bracket, without the final NUL | indent size 1 and one string of 249 blanks: the text is 256 bytes long and `json[len] = '\0'` writes index 256 | reserve the NUL as well | not executed | MkJsonArrayFacts.ClosingOverrun | MkJsonArray.PutClosing |
| mkjson.c:738-780 | the compact closing bracket and NUL are written with no check; only a chunk's check keeps 2 bytes free | raw JSON of 253 blanks, then a record whose positive code has no case: ", " fills 256 bytes and the bracket lands at index 256 | check room for bracket and NUL | not executed | MkJsonArrayFacts.CompactCloseOverrun | MkJsonArray.PutClosing |
