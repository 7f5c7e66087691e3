# PEAK trace dialects, modelled and verified in Dafny

This project models the core of `peaktrace`, a reader for the text trace files that PEAK-System
tools write for CAN and LIN buses. Line by line:

- The first line of a trace names its file version (`;$FILEVERSION=2.1`). Older CAN files use a
  `;###` header instead, which means version 1.0. The version selects a grammar from a registry:
  CAN 1.0, 1.1, 1.2, 1.3, 2.0, 2.1, and LIN 1.0, 1.1.
- Every later line is either skipped (a `;` comment or a blank line) or split on whitespace.
  Its grammar turns the tokens into a record, a dictionary of named fields. A scalar field holds one
  token. `DATA` and `ERROR` can hold token lists, and `EVENT` holds the trailing tokens joined by spaces.
- `is_msg` says whether a record is an ordinary message, as opposed to an error, status, event or
  remote-request record.
- `expand` flattens each list field `K` into columns `K00`, `K01`, …. `keys` gives the column header
  of each grammar, expanded or not.
- A front end picks the CAN or LIN reader from the file name's suffix. The top-level script's
  `strip` removes empty and `-` fields and trims the `)` from the record number.
- `pdcan.py` adds pure helpers:
  - `Id` formats identifiers as hexadecimal;
  - `hextoint` reads a row of hex bytes as little- and big-endian integers;
  - `get_signal` extracts a bit field;
  - `CanCsv.header` gives the converter's CSV columns;
  - `CanCsv.type_*` list the message types.

## Modules

| file | module | models |
|---|---|---|
| `errors.dfy` | `Errors` | the exceptions the code raises, as an `Error` datatype, plus `Result` and `Option` |
| `text.dfy` | `Text` | `str.split()`, `' '.join`, decimal text and `{i:02d}` |
| `message.dfy` | `Message` | records (`map<string, Value>`), `dict(zip(keys, values))`, islice windows, `expand` as a loop, the expanded header |
| `header.dfy` | `Header` | the regular expression `(?<=^;\$FILEVERSION=)\S+` |
| `cantrace.dfy` | `CanTrace` | the CAN registry, `fileversion`, the six `parse`/`is_msg`/`keys` grammars |
| `lintrace.dfy` | `LinTrace` | the LIN registry, `fileversion`, `LinTrace10.parse`, `is_msg`, `int()` of the length field |
| `reader.dfy` | `Reader` | the `__iter__` line filter and the loop over a file's lines |
| `pdcan.dfy` | `PdCan` | `Id`, `hextoint`, `get_signal`, `CanCsv.header`, `CanCsv.type_*` |
| `peaktrace.dfy` | `PeakTrace` | `Path(...).suffix`, `casefold`, both `PeakTrace` front ends, `strip` |

Raised exceptions become `Failure` values:

| error | raised as |
|---|---|
| `MissingKey(k)` | `KeyError` |
| `Exhausted` | `StopIteration` from `next` on an empty iterator, inside `parse` |
| `GeneratorStopped` | `RuntimeError('generator raised StopIteration')`: what `Exhausted` becomes when it leaves the generator `__iter__` |
| `EmptyIndexed` | `IndexError` |
| `InvalidLiteral(s)` | `ValueError` from `int` or `bytes.fromhex` |
| `NegativeCount` | `ValueError('negative shift count')` from `>>` |
| `StopOutOfRange` | the `ValueError` of `islice` for a stop outside `0 <= x <= sys.maxsize` |
| `NotAString(k)` | `AttributeError` from `rstrip` on a list |
| `VersionNotFound`, `UnsupportedVersion(v)`, `ExtensionNotSupported(s)` | the `ValueError`s of the readers and front ends |

Files are not opened:
- A reader receives the file's first line and its remaining lines as strings.
- A generator that stops at its first exception becomes the pair `(records, error)`.

## Model

| member | source | states |
|---|---|---|
| `Text.Split` | src/peaktrace/cantrace.py:66 | `line.split()` yields only non-empty tokens free of whitespace |
| `Text.SplitJoin` | src/peaktrace/cantrace.py:141 | splitting a space-joined list of tokens gives the tokens back, so `EVENT` text loses nothing |
| `Text.SplitEmpty` | src/peaktrace/cantrace.py:66-69 | a line has no tokens exactly when it is all whitespace |
| `Text.Pad2Value` | src/peaktrace/cantrace.py:56 | `{i:02d}` has at least two digits and reads back as `i` |
| `Text.Pad2Injective` | src/peaktrace/cantrace.py:56 | different positions never get the same two-digit suffix |
| `Text.DecimalInjective` | peaktrace/pdcan.py:146 | different data columns `D{i}` never get the same number |
| `Header.TaggedVersionSound` | src/peaktrace/cantrace.py:78 | a found version is a whitespace-free token right after `;$FILEVERSION=`, ended by whitespace or the end of the line |
| `Header.TaggedVersionComplete` | src/peaktrace/cantrace.py:78 | every tag followed by a token and then whitespace or the end of the line yields exactly that token |
| `Header.TaggedVersionAbsent` | src/peaktrace/cantrace.py:78 | the search fails exactly when the tag is missing or whitespace follows it directly |
| `Errors.Message` | src/peaktrace/cantrace.py:18 | the text of the three `ValueError`s of version and file-type detection; `Lookup`, `OpenSpec`, `LinTrace.FileVersion` and both front ends state it for the error they raise |
| `CanTrace.Lookup` | src/peaktrace/cantrace.py:12-18 | the registry accepts exactly the six CAN versions; any other version is `Version … not supported` |
| `CanTrace.LookupVersionName` | src/peaktrace/cantrace.py:8-10 | each grammar is registered under its own version string |
| `CanTrace.FileVersion` | src/peaktrace/cantrace.py:73-86 | `fileversion` on the first line; its outcomes are stated by `CanTrace.OpenSpec` |
| `CanTrace.Open` | src/peaktrace/cantrace.py:12-25 | `CanTrace(filename)`: the version read, then the registry lookup; stated by `CanTrace.OpenSpec` |
| `CanTrace.OpenSpec` | src/peaktrace/cantrace.py:73-86 | opening uses the tagged version, else `1.0` for a `;###` header, else fails with `File version not found`; the opened grammar carries the version read |
| `Message.Zip` | src/peaktrace/cantrace.py:131-134 | `dict(zip(keys, values))` holds exactly the first `min(len)` keys, each bound to its token |
| `CanTrace.WithoutPlaceholders` | src/peaktrace/cantrace.py:137-140 | the `ERROR` list of a 1.0 error frame keeps every token except `--`, and only those, each as often as it occurs in the window |
| `CanTrace.WithoutPlaceholdersNone` | src/peaktrace/cantrace.py:137-140 | with no `--` placeholder the window is kept whole |
| `CanTrace.WithoutPlaceholdersAppend` | src/peaktrace/cantrace.py:137-140 | the filter keeps the order of the bytes: filtering a concatenation is concatenating the filtered parts |
| `CanTrace.Parse10` | src/peaktrace/cantrace.py:127-150 | `CanTrace10.parse`; stated by `Parse10Accepts`, `Parse10Shape` and `Parse10Lossless` |
| `CanTrace.Parse10Accepts` | src/peaktrace/cantrace.py:127-150 | 1.0 parses exactly the lines with an `ID`, and, unless it is `FFFFFFFF`, a fifth token; otherwise `KeyError` or exhaustion |
| `CanTrace.Parse10Shape` | src/peaktrace/cantrace.py:127-150 | a 1.0 record holds the lead tokens; an error frame gets the eight-token `ERROR` window without `--` and the joined rest as `EVENT`; otherwise `ERROR` = the tokens after the word `ERROR`, or `DATA` = all remaining tokens |
| `CanTrace.Parse10Lossless` | src/peaktrace/cantrace.py:127-150 | a 1.0 record's fields in header order are the line minus the dropped `--` placeholders and the word `ERROR`, and the whole line when neither occurs |
| `CanTrace.Tokens10Whole` | src/peaktrace/cantrace.py:136-148 | the tokens 1.0 stores, after the four lead tokens, are the rest of the line when nothing is dropped |
| `CanTrace.TypedLeads` | src/peaktrace/cantrace.py:180-231 | the 1.1, 1.2 and 1.3 leads have distinct names with `TYPE` at position 2, 3 and 3 |
| `CanTrace.ParseTyped` | src/peaktrace/cantrace.py:175-242 | the shared body of the 1.1, 1.2 and 1.3 `parse`, given the version's lead; stated by `ParseTypedAccepts`, `ParseTypedShape` and `TypedRecordLossless` |
| `CanTrace.ParseTypedAccepts` | src/peaktrace/cantrace.py:175-191 | 1.1 to 1.3 parse exactly the lines that reach `TYPE`; otherwise `KeyError('TYPE')` |
| `CanTrace.ParseTypedShape` | src/peaktrace/cantrace.py:175-191 | an `Rx`/`Tx` record holds the rest as `DATA`; any other holds the next four tokens as `ERROR` and the joined rest as `EVENT`, with no other fields |
| `CanTrace.TypedRecordLossless` | src/peaktrace/cantrace.py:206-242 | a 1.1 to 1.3 record's fields in header order are exactly the line's tokens |
| `CanTrace.Parse20` | src/peaktrace/cantrace.py:260-280 | `CanTrace20.parse`; stated by `Parse20Accepts`, `Parse20Shape` and `Record20Lossless` |
| `CanTrace.Parse20Accepts` | src/peaktrace/cantrace.py:260-280 | 2.0 parses exactly the lines that reach `TYPE` and, for `ST`/`ER`/`EC`, a `DIRECTION` token |
| `CanTrace.Parse20Shape` | src/peaktrace/cantrace.py:260-280 | a status or error record holds `DIRECTION` and the rest as `ERROR`; others hold `ID`, `DIRECTION`, `LENGTH` as far as present and the rest as `DATA` |
| `CanTrace.Record20Lossless` | src/peaktrace/cantrace.py:260-280 | a 2.0 record's fields in header order are exactly the line's tokens |
| `CanTrace.Parse21` | src/peaktrace/cantrace.py:300-325 | `CanTrace21.parse`; stated by `Parse21Accepts`, `Parse21Shape` and `Record21Lossless` |
| `CanTrace.Parse21Accepts` | src/peaktrace/cantrace.py:300-325 | 2.1 parses exactly the lines that reach `TYPE` |
| `CanTrace.Parse21Shape` | src/peaktrace/cantrace.py:300-325 | an `EV` record holds the joined rest as `EVENT`; others hold the four frame columns and the rest as `ERROR` (`ST`/`ER`/`EC`) or `DATA` |
| `CanTrace.Record21Lossless` | src/peaktrace/cantrace.py:300-325 | a 2.1 record's fields in header order are exactly the line's tokens |
| `CanTrace.Parse` | src/peaktrace/cantrace.py:12-25 | the `parse` of the grammar registered for a version; stated by `ParseAccepts`, `ParseShape` and `ParseLossless` |
| `CanTrace.ParseAccepts` | src/peaktrace/cantrace.py:127-325 | for every version, parsing succeeds exactly on the accepted lines and fails with the exception the code raises |
| `CanTrace.ParseShape` | src/peaktrace/cantrace.py:127-325 | every parsed record has its version's shape and only the names of its header |
| `CanTrace.ParseLossless` | src/peaktrace/cantrace.py:175-325 | from 1.1 on, a record's fields in header order are exactly the line's tokens |
| `CanTrace.IsMsg10AsWritten` | src/peaktrace/cantrace.py:152-161 | the 1.x `is_msg` as written, with the `IndexError` of `data[0]`; stated by `IsMsg10Agrees`, `TypedIsMsg` and `EmptyFrameFails` |
| `CanTrace.IsMsg10` | src/peaktrace/cantrace.py:152-161 | the corrected 1.x `is_msg`, which counts a frame with no data bytes as a message; stated by `Shape10IsMsg`, `TypedIsMsg` and `ParsedIsMsg` |
| `CanTrace.IsMsg20` | src/peaktrace/cantrace.py:282-284 | `CanTrace20.is_msg`, with the `KeyError` of a missing `TYPE`; stated by `Shape20IsMsg` |
| `CanTrace.IsMsg21` | src/peaktrace/cantrace.py:327-332 | `CanTrace21.is_msg`; stated by `Shape21IsMsg` |
| `CanTrace.IsMsg` | src/peaktrace/cantrace.py:12-25 | the `is_msg` of the grammar registered for a version, with the corrected 1.x rule `IsMsg10` in place of the code's, which raises `IndexError` on an empty `DATA` (see Findings); stated by `ParsedIsMsg` |
| `CanTrace.IsMsg10Agrees` | src/peaktrace/cantrace.py:152-161 | the 1.x `is_msg` as written fails exactly on a record with no truthy `ERROR` and an empty `DATA`, and agrees with the corrected one elsewhere |
| `CanTrace.Shape10IsMsg` | src/peaktrace/cantrace.py:152-161 | on a 1.0 record `is_msg` never fails and is false exactly when the record holds error tokens or its first data token is `RTR` |
| `CanTrace.TypedIsMsg` | src/peaktrace/cantrace.py:152-161 | on a 1.1 to 1.3 record `is_msg` is false for non-`Rx`/`Tx` records with error tokens and for `RTR` frames; as written it fails on an `Rx`/`Tx` frame with no data |
| `CanTrace.Shape20IsMsg` | src/peaktrace/cantrace.py:282-284 | a 2.0 record is a message exactly when its `TYPE` is not `ST`, `ER`, `EC` or `RR` |
| `CanTrace.Shape21IsMsg` | src/peaktrace/cantrace.py:327-332 | a 2.1 record is a message exactly when its `TYPE` is none of `EV`, `ST`, `ER`, `EC`, `RR` |
| `CanTrace.ParsedIsMsg` | src/peaktrace/cantrace.py:152-332 | `is_msg` on any parsed record equals a classification of the line's tokens |
| `CanTrace.EmptyFrameFails` | src/peaktrace/cantrace.py:157-158 | the 1.1 line `1) 0.1 Rx 0100 0` parses, makes the as-written `is_msg` raise `IndexError`, and is a message under the corrected one |
| `CanTrace.ParsedLists` | src/peaktrace/cantrace.py:127-325 | in every parsed record only `DATA` and `ERROR` hold lists, and no name collides with an expanded column |
| `CanTrace.KeyData` | src/peaktrace/cantrace.py:92-98 | `_key_data`; stated by `KeysDistinct`, `ColumnInHeader` and `ColumnsInHeader` |
| `CanTrace.KeyError` | src/peaktrace/cantrace.py:100-106 | `_key_error`; stated by `KeysDistinct`, `ColumnInHeader` and `ColumnsInHeader` |
| `CanTrace.Keys` | src/peaktrace/cantrace.py:118-125 | each grammar's `keys`; stated by `KeysDistinct`, `KeysReadOrder`, `KeysOmitReversed`, `KeysOmitReserved` and `KeyNotColumn` |
| `CanTrace.KeysDistinct` | src/peaktrace/cantrace.py:92-125 | no grammar's header repeats a column, expanded or not, and its length is the sum of its parts |
| `CanTrace.KeysReadOrder` | src/peaktrace/cantrace.py:165-173 | for 1.0, 1.1, 1.2 and 2.0 the unexpanded header names exactly the fields parse produces, in order |
| `CanTrace.KeysOmitReversed` | src/peaktrace/cantrace.py:225-234 | 1.3 inherits the 1.2 header, which lacks the `REVERSED` field 1.3 parse stores |
| `CanTrace.KeysOmitReserved` | src/peaktrace/cantrace.py:288-316 | the 2.1 header lacks the `RESERVED` field 2.1 parse stores |
| `CanTrace.KeyNotColumn` | src/peaktrace/cantrace.py:249-258 | a name not ending in a digit is in the header exactly when it is a lead or trailing name |
| `CanTrace.ColumnsInHeader` | src/peaktrace/cantrace.py:93-106 | when lists fit `DATA_MAX` and `ERROR_MAX`, every column of an expanded record is in the expanded header |
| `CanTrace.ColumnInHeader` | src/peaktrace/cantrace.py:93-106 | `DATAii` below `DATA_MAX` and `ERRORii` below `ERROR_MAX` are columns of the expanded header |
| `Message.HeaderDistinct` | src/peaktrace/cantrace.py:93-106 | two blocks of numbered columns between distinct digit-free names never repeat a column |
| `Message.KeyInjective` | src/peaktrace/cantrace.py:56 | a column `f'{key}{i:02d}'` determines its key and position when keys do not end in a digit |
| `Message.PutItems` | src/peaktrace/cantrace.py:55-56 | the inner loop adds exactly the columns `K00`… holding the items in order, and leaves every other key as it was |
| `Message.ExpandKey` | src/peaktrace/cantrace.py:51-56 | one outer step replaces list field `key` by its columns and keeps the expansion invariant |
| `Message.Expand` | src/peaktrace/cantrace.py:47-58 | on a collision-free record the result keeps each scalar, replaces each list `K` by `K00`, `K01`, … in order, and has no other key |
| `Message.ExpansionFlat` | src/peaktrace/cantrace.py:47-58 | an expansion holds only strings and none of the original list keys |
| `Message.ExpansionUnique` | src/peaktrace/cantrace.py:47-58 | the expansion of a record is unique, whatever order the loop takes |
| `Message.ExpandIdempotent` | src/peaktrace/cantrace.py:47-58 | expanding an expansion changes nothing |
| `Message.ExpandCollapse` | src/peaktrace/cantrace.py:47-58 | re-collecting `K00`, `K01`, … of an expansion gives back the list `K`, in order |
| `LinTrace.FileVersion` | lintrace.py:55-65 | the LIN header must carry the tag; there is no `;###` fallback |
| `LinTrace.Lookup` | lintrace.py:12-18 | the LIN registry accepts exactly `1.0` and `1.1` |
| `LinTrace.Open` | lintrace.py:12-25 | `LinTrace(filename)`: the version read, then the registry lookup; stated by `LinTrace.OpenSpec` |
| `LinTrace.OpenSpec` | lintrace.py:12-18 | a LIN trace opens exactly when its tag names a registered version, and fails with the code's errors otherwise |
| `LinTrace.ParseInt` | lintrace.py:83 | `int()` of the `LENGTH` token, with its `ValueError`, including the one for more than 4300 digits; stated by `ParseIntText`, `ParseIntChars` and `UnscoredDigits` |
| `LinTrace.ParseIntText` | lintrace.py:83 | `int()` reads back every decimal integer text of at most 4300 digits and refuses every longer one with `ValueError` |
| `LinTrace.ParseIntChars` | lintrace.py:83 | `int()` accepts only digits, `_` and a leading sign |
| `LinTrace.UnscoredDigits` | lintrace.py:83 | removing underscores leaves a plain digit string unchanged |
| `LinTrace.Parse` | lintrace.py:73-94 | `LinTrace10.parse`, inherited by 1.1; stated by `ParseAccepts`, `ParseShape`, `ParsedData` and `ParseLossless` |
| `LinTrace.ParseAccepts` | lintrace.py:73-94 | parse succeeds exactly with five lead tokens and an `int` `LENGTH` between 0 and `sys.maxsize`; otherwise `KeyError`, the `ValueError` of `int`, or the `ValueError` of `islice` |
| `LinTrace.LengthBeyondMaxSize` | lintrace.py:84 | a `LENGTH` of `9223372036854775808`, one above `sys.maxsize`, is read by `int()` and refused by `islice` |
| `LinTrace.ParseShape` | lintrace.py:73-94 | the record holds the lead, `DATA` = up to `LENGTH` tokens, then `CHECKSUM` and `TYPE` as far as present, and `ERROR` only when tokens remain |
| `LinTrace.ParsedData` | lintrace.py:83-84 | `DATA` is the `LENGTH` tokens after the lead, or all of them when the line is shorter |
| `LinTrace.ParseLossless` | lintrace.py:73-94 | a LIN record's fields in header order are exactly the line's tokens |
| `LinTrace.IsMsg` | lintrace.py:96-98 | `LinTrace10.is_msg`; stated by `ParsedIsMsg` |
| `LinTrace.ParsedIsMsg` | lintrace.py:90-98 | a LIN record is a message exactly when no tokens follow `TYPE` |
| `Reader.Tokens` | src/peaktrace/cantrace.py:63-69 | a kept line gives a non-empty list of tokens |
| `Reader.DataLines` | src/peaktrace/cantrace.py:60-71 | the data lines are at most the lines, each a non-empty token list |
| `Reader.Escaped` | src/peaktrace/cantrace.py:71 | a `StopIteration` raised by `parse` leaves the generator as `RuntimeError` (PEP 479); every other exception leaves unchanged |
| `Reader.ParseAll` | src/peaktrace/cantrace.py:60-71 | the records yielded for a list of data lines and the exception that ends the generator; stated by `ParseAllSpec`, `ParseAllAppend` and `PrefixFails` |
| `Reader.Run` | src/peaktrace/cantrace.py:60-71 | iterating over a trace: the filter, then parsing; stated through `ParseAll` and by `SkippedLine` and `RunLossless` |
| `Reader.Iterate` | src/peaktrace/cantrace.py:60-71 | the loop collects what the generator yields and the exception that ends it, a `StopIteration` from `parse` arriving as `RuntimeError` |
| `Reader.ParseAllSpec` | src/peaktrace/cantrace.py:60-71 | every yielded record is its line's parse; without an error all lines parse; an error is the first failing line's, after the generator's `StopIteration` conversion, so it is never a bare `StopIteration` |
| `Reader.FrameRunsOut` | src/peaktrace/cantrace.py:143 | a 1.0 frame line with nothing after `LENGTH` ends the run with `RuntimeError`, not `StopIteration` |
| `Reader.StatusRunsOut` | src/peaktrace/cantrace.py:271 | a 2.0 status or error line with no `DIRECTION` ends the run with `RuntimeError`, not `StopIteration` |
| `Reader.DataLinesAppend` | src/peaktrace/cantrace.py:62-69 | the line filter works line by line |
| `Reader.ParseAllAppend` | src/peaktrace/cantrace.py:62-71 | reading stops at the first exception; otherwise the records of two parts concatenate |
| `Reader.PrefixFails` | src/peaktrace/cantrace.py:62-71 | once a prefix of the file fails, no later line matters |
| `Reader.SkippedLine` | lintrace.py:45-51 | a comment or blank line changes nothing in the result |
| `Reader.IsMsg` | src/peaktrace/cantrace.py:152-161 | the `is_msg` of the dialect a trace opened with: the CAN one, with the corrected 1.x rule, or the LIN one; stated by `Reader.ParsedCanIsMsg` and `Reader.ParsedLinIsMsg` |
| `Reader.ParsedCanIsMsg` | src/peaktrace/cantrace.py:152-332 | a line the CAN grammar accepts parses, and `is_msg` of the dialect on it is `CanTrace.Classify` of its tokens |
| `Reader.ParsedLinIsMsg` | lintrace.py:96-98 | on a parsed line, `is_msg` of a LIN dialect holds exactly when no tokens follow `TYPE` |
| `Reader.IndentedComment` | src/peaktrace/cantrace.py:63-71 | a line with whitespace before its `;` is not a comment: its tokens go to `parse` |
| `Reader.RunLossless` | lintrace.py:42-53 | except for CAN 1.0, each yielded record's fields are exactly its data line's tokens |
| `PdCan.ParseHex` | peaktrace/pdcan.py:66-67 | `int(identifier, 16)`, with its `ValueError`; stated by `PdCan.Id` and `IdStringExamples` |
| `PdCan.Id` | peaktrace/pdcan.py:64-71 | `Id` succeeds exactly when the identifier has a value, and fails with that error otherwise |
| `PdCan.IdFormat` | peaktrace/pdcan.py:64-71 | the result is upper-case hex, at least 4 or 8 digits wide, holds the identifier's value, and has no unneeded leading zero |
| `PdCan.IdIdempotent` | peaktrace/pdcan.py:64-71 | formatting a formatted identifier again changes nothing |
| `PdCan.IdExtended` | peaktrace/pdcan.py:69-71 | while the value fits in 4 digits, the extended form is the standard one with four more zeros |
| `PdCan.IdNumberExamples` | tests/test_pdcan.py:25-28 | 291 gives `0123` and `00000123` |
| `PdCan.IdStringExamples` | tests/test_pdcan.py:29-34 | `123`, `0x123`, `00000123` and `0123` give `0123` / `00000123` |
| `PdCan.GetSignal` | peaktrace/pdcan.py:128-130 | the signal lies in `[0, 2**bit_length)`; a negative start bit is the code's `ValueError` |
| `PdCan.SignalBits` | peaktrace/pdcan.py:128-130 | bit `i` of the signal is bit `start_bit + i` of the data below `bit_length`, and 0 above |
| `PdCan.SignalEmpty` | peaktrace/pdcan.py:128-130 | a zero-length signal is 0 |
| `PdCan.HexToInt` | peaktrace/pdcan.py:81-83 | a row that is not hex fails with `bytes.fromhex`'s `ValueError` on the joined text |
| `PdCan.HexToIntValue` | peaktrace/pdcan.py:81-83 | for an even number of hex digits, big-endian is the hex value of the joined row and little-endian is the big-endian value of the reversed bytes |
| `PdCan.HexToIntShort` | peaktrace/pdcan.py:81-83 | zero or one byte reads the same in both byte orders, and no bytes read as 0 |
| `PdCan.NonEmptyConcat` | peaktrace/pdcan.py:82 | dropping empty cells does not change the joined text |
| `PdCan.HexBytes` | peaktrace/pdcan.py:82 | the bytes `bytes.fromhex` reads, skipping whitespace between byte pairs; stated by `FromHexValue` for whitespace-free rows |
| `PdCan.FromHex` | peaktrace/pdcan.py:82 | `bytes.fromhex` with its `ValueError`; stated by `HexToInt` and `FromHexValue` |
| `PdCan.FromHexValue` | peaktrace/pdcan.py:82 | an even run of hex digits decodes to half as many bytes with the same big-endian value |
| `PdCan.Big` | peaktrace/pdcan.py:83 | `int.from_bytes(b, "big")`; stated by `BigBound`, `FromHexValue` and `LittleIsReversedBig` |
| `PdCan.Little` | peaktrace/pdcan.py:83 | `int.from_bytes(b, "little")`; stated by `LittleIsReversedBig` |
| `PdCan.LittleIsReversedBig` | peaktrace/pdcan.py:83 | little-endian is big-endian of the reversed bytes |
| `PdCan.BigBound` | peaktrace/pdcan.py:83 | `n` bytes read below `256**n` |
| `PdCan.Header` | peaktrace/pdcan.py:134-146 | `CanCsv.header`; stated by `HeaderShape` and `DefaultHeader` |
| `PdCan.HeaderShape` | peaktrace/pdcan.py:134-146 | the CSV header is the eight fixed columns and then `D0` … `D{n-1}`, with no repeated name |
| `PdCan.DefaultHeader` | peaktrace/pdcan.py:135 | by default there are 72 columns, the last `D63` |
| `PdCan.TypeLists` | peaktrace/pdcan.py:148-177 | the data types are `DT` and the FD types; none is an info type or a 2.0 non-message type; the info types are the CAN 2.0 `ST`, `ER`, `EC` |
| `PeakTrace.RFind` | src/peaktrace/peaktrace.py:9 | the last position of a character, or -1 |
| `PeakTrace.Suffix` | src/peaktrace/peaktrace.py:9 | a suffix is a final `.…` part of the name, with no other dot and not the whole name |
| `PeakTrace.FinalSuffix` | src/peaktrace/peaktrace.py:9 | `stem.ext` has suffix `.ext` |
| `PeakTrace.HiddenName` | src/peaktrace/peaktrace.py:9 | a name like `.trc` has no suffix |
| `PeakTrace.Name` | src/peaktrace/peaktrace.py:9 | `Path(filename).name`, the last path segment; stated by `NameInDirectory` |
| `PeakTrace.NameInDirectory` | src/peaktrace/peaktrace.py:9 | the name of `dir/base` is `base` |
| `PeakTrace.Casefold` | src/peaktrace/peaktrace.py:9 | `str.casefold` on ASCII letters; stated by `SuffixFolded`, `FoldIdempotent` and `OpenIgnoresCase` |
| `PeakTrace.SuffixFolded` | src/peaktrace/peaktrace.py:9 | casefolding the name casefolds the suffix |
| `PeakTrace.FoldIdempotent` | src/peaktrace/peaktrace.py:9 | casefolding twice is casefolding once |
| `PeakTrace.Open` | src/peaktrace/peaktrace.py:7-17 | `.trc` opens exactly what `CanTrace` opens and `.ltrc` exactly what `LinTrace` opens, in any case; a LIN or CAN reader comes only from its own suffix; any other suffix is `File extension … not supported` |
| `PeakTrace.OpenIgnoresCase` | src/peaktrace/peaktrace.py:9 | the choice of reader ignores the case of the whole path |
| `PeakTrace.OpenByFinalSuffix` | src/peaktrace/peaktrace.py:9 | only the file's name, and only its last suffix, decide |
| `PeakTrace.OpenTrc` | peaktrace.py:6-13 | the top-level front end opens `.trc` as CAN and reports any other suffix unfolded |
| `PeakTrace.OpenTrcAgrees` | peaktrace.py:6-13 | it agrees with the package front end on `.trc`, refuses `.ltrc`, and succeeds exactly when the package opens CAN |
| `PeakTrace.TrimParens` | peaktrace.py:21 | `rstrip(')')` leaves a prefix not ending in `)` and removes only `)` |
| `PeakTrace.TrimParensIdempotent` | peaktrace.py:21 | trimming twice is trimming once |
| `PeakTrace.Strip` | peaktrace.py:17-24 | `strip`; stated by `StripSpec`, `StripNumber` and `StripParsed` |
| `PeakTrace.StripSpec` | peaktrace.py:17-24 | `strip` keeps exactly the truthy values other than `-`, keeps them unchanged except `#`, trims `#`, and fails only on a list-valued `#` |
| `PeakTrace.StripNumber` | peaktrace.py:21 | record number `12)` becomes `12` |
| `PeakTrace.StripParsed` | peaktrace.py:30-31 | `strip` never fails on a parsed CAN record |

## Left out

- File access: `open`, `readline` and line iteration are replaced by strings passed in (the first line, then the body lines).
- Dictionary insertion order: records are maps, so the order of keys in a yielded dict is not modelled; the header order is modelled separately by each grammar's read order and `keys`.
- `CanTrace.islice` and `LinTrace.islice`: modelled through the `Slice` and `Rest` windows they produce, not as iterators.
- The `format` and `version` properties: plain accessors, carried as the version string `Open` returns.
- Message.Expand: the result is characterised only for records where no list key ends in a digit and no other key is a list key plus digits; otherwise Python's result depends on dict order, which the model does not carry. Every parsed CAN record meets the condition (`CanTrace.ParsedLists`).
- CanTrace.ParseLossless: stated from 1.1 on; version 1.0 drops `--` and the word `ERROR`, so `CanTrace.Parse10Lossless` states what it keeps instead.
- Reader.RunLossless: stated except for CAN 1.0, for the same reason.
- CanTrace.KeysReadOrder: stated for 1.0, 1.1, 1.2 and 2.0 only; the 1.3 and 2.1 headers differ from what parse stores (`KeysOmitReversed`, `KeysOmitReserved`).
- CanTrace.ColumnsInHeader: stated when the lists fit `DATA_MAX` and `ERROR_MAX`, and not for 1.3 and 2.1; longer lists produce columns the header lacks.
- LinTrace.ParseAccepts: `sys.maxsize` is taken to be that of a 64-bit build, 2**63 - 1, and `int()`'s digit limit its default, 4300; a 32-bit build or a changed `sys.set_int_max_str_digits` is not modelled.
- LinTrace.ParseIntChars: `int()` is modelled for ASCII digits, underscores between digits and one sign; surrounding whitespace and non-ASCII digits are not accepted.
- PdCan.Id: negative integers are left out (`Identifier` holds a `nat`); `int(s, 16)` is modelled for an optional `0x`/`0X` prefix and hex digits, without underscores, signs or whitespace.
- PdCan.GetSignal: `bit_length` is a `nat`; a negative length, which Python evaluates with a fractional mask, is not modelled.
- PdCan.HexToIntValue: stated for rows of hex digits; `bytes.fromhex` also skips whitespace between byte pairs, which `HexBytes` models but no lemma characterises.
- PeakTrace.Open: `casefold` is modelled for ASCII letters only; `Path` is modelled for `/` separators (no Windows paths).
- `PeakFrame`, `read_trace`, `dataframe_parquet`, `to_int`'s DataFrame plumbing, `diff`, `CanCsv.convert`, `read_trc`, `read_csv` and the pandas accessors: pandas, numpy, subprocess and file caching, outside the core.
- `peaktrace/timestamp.py` and `Doc/download.py` are not part of this model.
- `main` in `peaktrace.py`: globbing a directory and printing; only `strip` and the front end are modelled.
- The top-level `peaktrace.py` imports a `cantrace` module that is not part of this model; it is taken to be `src/peaktrace/cantrace.py`.
- The first-exception behaviour of a generator: the exception `__iter__` raises ends the iteration; the model returns it next to the records read so far, with a `StopIteration` from `parse` turned into a `RuntimeError` as Python 3.7 and later do (PEP 479).

Where the documentation of the system and its code disagree, the model follows the code:

- CAN 1.0 `DATA` holds all the tokens after the lead, not `LENGTH` of them.
- A CAN 1.0 line of four tokens fails to parse unless its `ID` is `FFFFFFFF`: `next(reader)` finds nothing left. An error frame of four tokens parses, since `islice` and `' '.join` of nothing do not raise.
- The 1.3 and 2.1 headers omit a field their parse stores (`REVERSED`, `RESERVED`).

## Findings

| source | as written | input that shows it | evidently intended | confidence | as-written member | corrected member |
|---|---|---|---|---|---|---|
| src/peaktrace/cantrace.py:157-158 | `data[0]` reads the first `DATA` token whenever `DATA` is present | the CAN 1.1 line `1) 0.1 Rx 0100 0`: `DATA` is `[]`, so `is_msg` raises `IndexError` | a frame with no data bytes and no error is a message | not executed | `CanTrace.EmptyFrameFails` | `CanTrace.ParsedIsMsg` |
