# TCPServer line store — a Dafny model

TCPServer is a small TCP service. A client sends one line of text. The server answers with one line and closes the connection. The server keeps a list of *lines* (named network endpoints: id, name, IP address, port, and an `IsDefault` flag) and a list of users. Both lists are stored in JSON files.

This project models the core of that service:

- **The dispatcher** (`ClientHandler.cs`). `HandleCommand` picks one of six verbs by prefix: `GET_ALL_LINES`, `GET_LINE_BY_ID`, `ADD_LINE`, `UPDATE_LINE`, `GET_DEFAULT` and `DELETE_LINE`. The payload is the text after the verb. The reply is `OK`, `FAIL`, `""`, `UNKNOWN_COMMAND`, `ERROR: …` or a JSON serialisation.
  - `ParseCommand` models the verb match.
  - `Respond` specifies one complete dispatch.
  - `ClientHandler.HandleCommand` is proved equal to `Respond`.
- **The line rules** (`AddLine`, `UpdateLine` and `DeleteLine` in `ClientHandler.cs`; `NormalizeDefault` in `DummyDatabase.cs`). These keep one record marked default.
  - Module `LineRules` gives the functions on sequences (`Added`, `Updated`, `Deleted`, `Normalized`) and the lemmas about them.
  - The methods that change the shared list in place, with loops, are proved equal to those functions.
- **The store** (`DummyDatabase.cs`).
  - `LineList` is the `List<LineInfo>` object. `GetData` returns that live list, not a copy.
  - The constructor models the load step. A missing lines file installs generated lines as they are. A file holding `null` installs generated lines, normalised. A decoded list is normalised.
  - `GenerateRandomLines` and `GenerateRandomUsers` take the values `Random.Next` and `Guid.NewGuid` would have produced as parameters. The parameters are constrained to the bounds the code asks for.
- **The log line** (`ConnectionLogger.cs`). These are the status word, the exception suffix, the message with CR and LF replaced by spaces, and the append to the log file (the `contents` field).

The library calls are the function fields of a `Codec` value:

- `JsonSerializer.Serialize`
- `JsonSerializer.Deserialize<LineInfo>`, which gives a record, `null` or an exception
- `Guid.ToString()`
- `Guid.TryParseExact(…, "D", …)`

Nothing constrains these functions except where a lemma states it as a precondition.

## Points where the code does less than a line store of this kind is expected to (the model follows the code)

- **Ids.** Nothing assigns ids. `AddLine` keeps the id from the payload, which is `Guid.Empty` when the payload has none, so a fresh unique id per add is not guaranteed. `GenerateRandomLines` never sets `Id`, so all seed lines share `Guid.Empty` (`GeneratedLinesDistinctAddresses`, `SeededStoreKeepsSingleDefault`).
- **The default invariant.** "Empty, or exactly one default" survives every command on any list, including the seed lines, except a *default* `UPDATE_LINE` (`RespondKeepsSingleDefault`, `SeededStoreKeepsSingleDefault`). A non-default update needs no distinct ids (`UpdatedNonDefaultKeepsSingleDefault`):
  - `RespondKeepsSingleDefault` asks for distinct ids only when the message is an update whose record is marked default. The exact failing condition is narrower: another record with the same id is default.
  - `UpdatedDuplicateIdsLeaveTwoDefaults` shows two records with the same id. A default update clears only records with a *different* id, so both records stay default.
  - The seed data from `GenerateRandomLines` reaches this state: a default update with id `Guid.Empty` on seed lines whose drawn default is not record 0 leaves two defaults (`SeededDefaultUpdateLeavesTwoDefaults`).
- **Malformed payloads.** A client might expect `ADD_LINE{not valid json}` to reply `FAIL`, like a `null` payload. In the code `JsonSerializer.Deserialize` throws on malformed JSON, and the catch turns that into `ERROR: <message>`. Only the JSON literal `null` gives `FAIL` (`ExceptionBecomesErrorReply`, `MutationReplies`).
- **A corrupt lines or users file.** Such a file is not replaced by seed data. The exception leaves the constructor uncaught. Only a missing file, or one holding `null`, is seeded.
- **Locking.** The store takes no lock. Every handler gets the same list object from `GetData`, and the connections run concurrently.

## Model

| member | source | states |
|---|---|---|
| `Handler.ParseCommand` | ClientHandler.cs:85-109 | A message selects no verb exactly when it starts with none of the six verbs. For the four payload verbs the message is the verb followed by the payload, i.e. the payload is the rest after 14, 8, 11 or 11 characters. `GET_ALL_LINES` and `GET_DEFAULT` only need to be a prefix |
| `Handler.ParseRender` | ClientHandler.cs:87-107 | Any verb followed by any payload parses back to that command. No verb is a prefix of another, so the fixed test order never shadows a verb |
| `Handler.RenderParse` | ClientHandler.cs:87-107 | Every recognised message starts with its rendered command, and equals it except for ignored trailing text after the two bare verbs |
| `Handler.UnknownVerbReply` | ClientHandler.cs:108 | A message starting with none of the verbs gets exactly `UNKNOWN_COMMAND`, and the list is unchanged |
| `Handler.QueriesLeaveListUnchanged` | ClientHandler.cs:87-108 | `GET_ALL_LINES`, `GET_LINE_BY_ID`, `GET_DEFAULT` and unknown verbs never change the list, so sending one twice gives the same reply twice |
| `Handler.GetDefaultReply` | ClientHandler.cs:100-103 | `GET_DEFAULT…` replies with the serialisation of the first default record, or `""` when no record is default |
| `Handler.GetByIdReply` | ClientHandler.cs:88-91 | `GET_LINE_BY_ID` plus a text replies with the serialisation of the first record whose id prints as that text, or `""` when no record's id does. The list is unchanged |
| `Handler.ExceptionBecomesErrorReply` | ClientHandler.cs:111-114 | When deserialising an `ADD_LINE` or `UPDATE_LINE` payload throws, the reply is `ERROR: ` plus the exception message and the list is unchanged |
| `Handler.MutationReplies` | ClientHandler.cs:92-107 | An add, update or delete replies `OK`, `FAIL` or `ERROR: …`. Any reply other than `OK` leaves the list unchanged. `OK` means one record more (add), the same number (update) or one fewer (delete) |
| `Handler.RespondKeepsSingleDefault` | ClientHandler.cs:85-109 | If the list is empty or has exactly one default, every command leaves it empty or with exactly one default. Distinct ids are needed only for an `UPDATE_LINE` whose record is marked default. Distinct ids stay distinct under update and delete, and under add when the new id is unused |
| `Handler.SeededStoreKeepsSingleDefault` | DummyDatabase.cs:66-83 | The generated seed lines do not have distinct ids, yet every command other than a default `UPDATE_LINE`, non-default updates included, leaves them empty or with exactly one default |
| `Handler.AddThenGetById` | ClientHandler.cs:88-95 | After `ADD_LINE` with a record whose id text no existing record has, `GET_LINE_BY_ID` with that text returns the added record. It is unchanged, except that it becomes default when the list was empty |
| `Handler.DeleteByPrintedId` | ClientHandler.cs:104-107 | `DELETE_LINE` with a record's id in `D` format (when parsing that text gives the id back) removes the first record with that id, replies `OK`, and the list shrinks by one |
| `Handler.DeleteLastThenGetDefault` | ClientHandler.cs:100-107 | Deleting the only line leaves an empty list, and `GET_DEFAULT` then replies `""` |
| `Handler.ClientHandler.HandleCommand` | ClientHandler.cs:80-115 | The reply and the new contents of the store's live list are those `Respond` gives for the old contents |
| `Handler.ClientHandler.Handle` | ClientHandler.cs:32-57 | A null or empty line skips dispatch: nothing is written and the list is unchanged. Any other line is dispatched and its reply is written |
| `Handler.ClientHandler.constructor` | ClientHandler.cs:14-18 | The handler works on the store it is given |
| `Handler.ClientHandler.AddLine` | ClientHandler.cs:117-130 | The in-place clearing loop, append and fallback leave the list equal to `Added` of the old list, and the reply is always `OK` |
| `Handler.ClientHandler.UpdateLine` | ClientHandler.cs:132-153 | The in-place loop and replacement leave the list equal to `Updated` of the old list. The reply is `OK` when some record had the id, `FAIL` otherwise |
| `Handler.ClientHandler.DeleteLine` | ClientHandler.cs:155-168 | The removal and promotion leave the list equal to `Deleted` of the old list. The reply is `OK` when some record had the id, `FAIL` otherwise |
| `LineRules.FirstIndex` | ClientHandler.cs:134 | `FindIndex` returns -1 exactly when no element satisfies the predicate. Otherwise it returns the first index that does |
| `LineRules.IndexOfId` | ClientHandler.cs:157 | The first record with the id, or -1 exactly when no record has it |
| `LineRules.IndexOfIdText` | ClientHandler.cs:89 | The first record whose id prints as the payload, or -1 exactly when none does |
| `LineRules.IndexOfDefault` | ClientHandler.cs:101 | The first default record, or -1 exactly when none is default |
| `LineRules.HasDefault` | ClientHandler.cs:127 | `Any(l => l.IsDefault)` holds exactly when some record is default |
| `LineRules.RemoveAt` | ClientHandler.cs:161 | Removing index `idx` keeps the records before it and shifts the ones after it down by one |
| `LineRules.EnsureDefaultFacts` | ClientHandler.cs:127-128 | The "ensure a default" fallback changes only flags. It changes nothing when a default exists. On a non-empty list without a default it makes record 0 the only default |
| `LineRules.EnsureDefaultSingle` | ClientHandler.cs:148-149 | After the fallback, a list that had at most one default is empty or has exactly one |
| `LineRules.AddedAppends` | ClientHandler.cs:117-130 | `AddLine` grows the list by one, puts the new record last, and keeps every earlier record apart from its flag |
| `LineRules.AddedDefaultWins` | ClientHandler.cs:120-126 | A default new record clears every earlier default and is the only default afterwards |
| `LineRules.AddedNonDefault` | ClientHandler.cs:126-128 | A non-default new record is simply appended when a default exists. Otherwise record 0 becomes the only default |
| `LineRules.AddedKeepsSingleDefault` | ClientHandler.cs:117-130 | With at most one default before, exactly one is default after `AddLine` |
| `LineRules.AddedFreshIdKeepsDistinct` | ClientHandler.cs:126 | Adding a record with an unused id keeps the ids distinct |
| `LineRules.UpdatedReplacesFirstMatch` | ClientHandler.cs:134-150 | On a found id the length is unchanged and the first record with the id is replaced by the update. The fallback may set the update's flag only when it is at index 0. Every other record keeps its fields apart from its flag, and some record is default |
| `LineRules.UpdatedNonDefaultKeepsFlags` | ClientHandler.cs:134-150 | A found non-default update keeps every record other than index 0 and the updated one exactly, flags included. While some other record is default, the result is the old list with the update in place |
| `LineRules.UpdatedFallsBackToFirst` | ClientHandler.cs:146-149 | When the updated record was the only default and the update is not default, record 0 becomes the only default |
| `LineRules.UpdatedDefaultClearsOtherIds` | ClientHandler.cs:138-146 | A default update ends up default, and every record with a different id has its flag cleared |
| `LineRules.UpdatedMissingIdUnchanged` | ClientHandler.cs:152 | An id no record has leaves the list unchanged |
| `LineRules.UpdatedKeepsSingleDefault` | ClientHandler.cs:134-150 | With distinct ids and at most one default before, exactly one is default after a successful update |
| `LineRules.UpdatedNonDefaultKeepsSingleDefault` | ClientHandler.cs:134-150 | With at most one default before, a successful non-default update leaves exactly one default, whatever the ids |
| `LineRules.UpdatedKeepsDistinct` | ClientHandler.cs:146 | An update keeps every id in place, so distinct ids stay distinct |
| `LineRules.UpdatedDuplicateIdsLeaveTwoDefaults` | ClientHandler.cs:140-146 | Two records share an id and the second is default. A default update of that id leaves both records default |
| `LineRules.DeletedRemovesFirstMatch` | ClientHandler.cs:157-165 | On a found id, exactly the first record with it is removed. The others keep their order and fields, and their flags too unless the removed record was default |
| `LineRules.DeletedMissingIdUnchanged` | ClientHandler.cs:167 | An id no record has leaves the list unchanged |
| `LineRules.DeletedDefaultPromotesFirst` | ClientHandler.cs:160-164 | Removing the only default from a list of two or more makes record 0 the only default |
| `LineRules.DeletedKeepsSingleDefault` | ClientHandler.cs:155-168 | If the list was empty or had exactly one default, it still is or has after a delete |
| `LineRules.DeletedKeepsDistinct` | ClientHandler.cs:161 | Removing a record keeps the remaining ids distinct |
| `LineRules.NormalizedOnlyChangesFlags` | DummyDatabase.cs:85-103 | Normalising leaves the empty list unchanged. It keeps length and order, and every field except `IsDefault` |
| `LineRules.NormalizedKeepsFirstDefault` | DummyDatabase.cs:97-101 | If some record is default, the first such record is the only default afterwards |
| `LineRules.NormalizedFallsBackToFirst` | DummyDatabase.cs:92-96 | If no record is default, record 0 is the only default afterwards |
| `LineRules.NormalizedSingleDefault` | DummyDatabase.cs:85-103 | After normalising, the list is empty or has exactly one default |
| `LineRules.NormalizedFixesSingleDefault` | DummyDatabase.cs:85-103 | A list that is empty or has exactly one default is left exactly as it was |
| `LineRules.NormalizedIdempotent` | DummyDatabase.cs:85-103 | Normalising twice gives the same list as normalising once |
| `Database.DummyDatabase.NormalizeDefault` | DummyDatabase.cs:85-103 | The in-place loops leave the list equal to `Normalized` of the old list |
| `Database.DummyDatabase.GetData` | DummyDatabase.cs:19 | Returns the store's own list object, so changes through it are changes to the store |
| `Database.DummyDatabase.constructor` | DummyDatabase.cs:21-43 | A missing lines file gives the generated lines. A `null` document gives the generated lines, normalised. A decoded list is normalised. Either way the store starts empty or with exactly one default. Users are the decoded list, or generated users |
| `Database.DummyDatabase.GenerateRandomLines` | DummyDatabase.cs:66-83 | Given draws within the `Next` bounds: 4 to 10 lines, and exactly one default, at the drawn index. Every id is `Guid.Empty`. Line `j` has address `192.168.1.{j+10}` and a port in [1000, 9999] |
| `Database.DummyDatabase.GenerateRandomUsers` | DummyDatabase.cs:45-64 | Given draws within the `Next` bounds: 3 to 7 users. Each user carries its drawn id, password and level (one of the nine), and a name made of one of the eight names plus the drawn suffix |
| `Database.GeneratedLinesDefaultAtDraw` | DummyDatabase.cs:78 | The generated line at the drawn index is the only default |
| `Database.GeneratedLinesDistinctAddresses` | DummyDatabase.cs:76 | Generated lines have pairwise different addresses but all the same id |
| `Database.LoadedLinesSingleDefault` | DummyDatabase.cs:23-32 | Whatever the lines file holds, the loaded list is empty or has exactly one default |
| `Database.SeededDefaultUpdateLeavesTwoDefaults` | DummyDatabase.cs:66-83 | On generated seed lines whose drawn default is not record 0, a default update with id `Guid.Empty` replaces record 0 and leaves the drawn default set, so two records are default |
| `Database.GeneratedUserNames` | DummyDatabase.cs:57 | Every generated user name is one of the eight names followed by three digits that read back as the drawn suffix in [100, 998] |
| `Strings.ReplaceChar` | ConnectionLogger.cs:14 | `Replace` keeps the length and changes exactly the occurrences of the replaced character |
| `Strings.NatToString` | DummyDatabase.cs:76 | Decimal text of a number: non-empty, digits only, no leading zero |
| `Strings.IntToString` | ConnectionLogger.cs:15 | The port's text is non-empty and made only of decimal digits and the minus sign |
| `Strings.IntToStringReadsBack` | ConnectionLogger.cs:15 | The port's text is its decimal value: for a non-negative port, digits that read back as the port; for a negative one, `-` followed by digits that read back as its magnitude |
| `Strings.DigitsToNatOfNatToString` | DummyDatabase.cs:76 | Reading the decimal text back gives the number |
| `Strings.NatToStringInjective` | DummyDatabase.cs:76 | Different numbers have different decimal texts |
| `Strings.NatToStringThreeDigits` | DummyDatabase.cs:57 | A suffix in [100, 999] is exactly three digits |
| `Logging.StatusWord` | ConnectionLogger.cs:12 | The status word is `Success` exactly when the entry succeeded, and `Error` exactly when it did not |
| `Logging.ExceptionSuffix` | ConnectionLogger.cs:13 | The suffix is empty exactly when the exception text is null or empty. Otherwise it is the fixed separator (space, vertical bar, space, `Exception: `) followed by the text |
| `Logging.CleanMessage` | ConnectionLogger.cs:14 | The message part is `""` for a null or empty message. Otherwise it has the message's length and has a space wherever the message had CR or LF. It contains no CR or LF |
| `Logging.LogLineLayout` | ConnectionLogger.cs:15 | The line starts with the `[timestamp] ip:port - ` head. The status word, then ` - `, then the cleaned message follow it. The exception suffix is last |
| `Logging.LogLineIsOneLine` | ConnectionLogger.cs:15-19 | When timestamp, address and exception text have no line break, the appended text is one line ending in its only `\n` |
| `Logging.ExceptionTextKeepsLineBreaks` | ConnectionLogger.cs:13 | The exception text is not cleaned: any non-empty exception text ends the line verbatim, so a line break in it reaches the log line |
| `Logging.ConnectionLogger.LogAsync` | ConnectionLogger.cs:10-22 | The log file grows by exactly the entry's line and one `\n` |
| `Logging.ConnectionLogger.Log` | ConnectionLogger.cs:25-28 | `Log` has exactly the effect of `LogAsync` |

## Left out

- The accept loop, the per-connection task and `Program.cs` are left out. They are sockets and unbounded concurrency.
- Stream reading and writing, console output and `Save` in the `finally` of `Handle` are left out. They are I/O. `Handle` is modelled from the line already read to the reply written.
- The outer `catch` of `Handle` is left out. It logs I/O failures. The inner `catch` around `HandleCommand` cannot fire, because `HandleCommand` catches everything itself.
- Concurrent handlers sharing the unlocked list are left out. The model is sequential.
- `Load` and `Save` file access and JSON encoding are left out. The constructor takes the decoded document contents (`Stored`).
- A lines or users file that fails to decode throws out of the constructor. The model's constructor only accepts contents that decode.
- `JsonSerializer`, `Guid.ToString`, `Guid.TryParseExact` and `Guid.NewGuid` are library code. They are parameters: functions of a `Codec`, and draws for the generators.
- Timestamp formatting (`yyyy-MM-dd HH:mm:ss`) is left out. The timestamp is already text.
- The lock and `File.AppendAllText` in the logger are left out. The log file is the string field `contents`.
- `Handler.ParseCommand`: .NET's `StartsWith(string)` compares with the current culture. Under some cultures it can ignore characters such as zero-width ones. The model compares character by character.
- `LineInfo` objects are values in the model, so object identity is not captured. No list the code builds holds the same object twice, and no caller keeps a reference to an element.
- A `null` element in a decoded lines array makes `NormalizeDefault` throw during load. The model has no null elements.
- `Portnumber` is an unbounded integer. The code does no arithmetic on it that could overflow, and generated ports stay in [1000, 9999].
- User commands (add, update or delete a user) are not in the code, so they are not modelled.
