/**
 * ClientHandler.cs: the text command dispatcher and the three list mutations it runs.
 * `ParseCommand` is the verb match, `Respond` the specification of one dispatch, and the
 * methods of `ClientHandler` change the shared `LineList` in place and are proved to agree
 * with `Respond`. JSON and GUID library calls are the functions of a `Codec`.
 */
module Handler {
  import opened Wrappers
  import opened Models
  import opened Strings
  import opened LineRules
  import opened Database

  /** What `JsonSerializer.Deserialize<LineInfo>` does with a text: a record, `null`, or an exception. */
  datatype JsonResult<T> = Parsed(value: T) | JsonNull | JsonError(message: string)

  /**
   * The library calls the dispatcher makes: `JsonSerializer.Serialize` of the list and of one
   * record, `JsonSerializer.Deserialize<LineInfo>`, `Guid.ToString()` and
   * `Guid.TryParseExact(text, "D", out id)`.
   */
  datatype Codec = Codec(
    serializeLines: seq<LineInfo> -> string,
    serializeLine: LineInfo -> string,
    deserializeLine: string -> JsonResult<LineInfo>,
    guidToString: Guid -> string,
    tryParseGuidD: string -> Option<Guid>)

  // ---------------------------------------------------------------------------------------------
  // Verb matching
  // ---------------------------------------------------------------------------------------------

  /** A recognised command with its payload: the text after the verb. */
  datatype Command =
    | GetAll
    | GetById(idText: string)
    | Add(json: string)
    | Update(json: string)
    | GetDefault
    | Delete(idText: string)
    | Unknown

  ghost predicate StartsWithSomeVerb(m: string) {
    StartsWith(m, "GET_ALL_LINES") || StartsWith(m, "GET_LINE_BY_ID") || StartsWith(m, "ADD_LINE") ||
    StartsWith(m, "UPDATE_LINE") || StartsWith(m, "GET_DEFAULT") || StartsWith(m, "DELETE_LINE")
  }

  /**
   * The verb tests of `HandleCommand`, in their order. The payload is the message after the
   * verb (`m[14..]`, `m[8..]`, `m[11..]`, `m[11..]`); text after `GET_ALL_LINES` and
   * `GET_DEFAULT` is ignored.
   */
  function ParseCommand(m: string): (c: Command)
    ensures c == Unknown <==> !StartsWithSomeVerb(m)
    ensures c.GetAll? ==> StartsWith(m, "GET_ALL_LINES")
    ensures c.GetDefault? ==> StartsWith(m, "GET_DEFAULT")
    ensures c.GetById? ==> m == "GET_LINE_BY_ID" + c.idText
    ensures c.Add? ==> m == "ADD_LINE" + c.json
    ensures c.Update? ==> m == "UPDATE_LINE" + c.json
    ensures c.Delete? ==> m == "DELETE_LINE" + c.idText
  {
    if StartsWith(m, "GET_ALL_LINES") then GetAll
    else if StartsWith(m, "GET_LINE_BY_ID") then GetById(m[14..])
    else if StartsWith(m, "ADD_LINE") then Add(m[8..])
    else if StartsWith(m, "UPDATE_LINE") then Update(m[11..])
    else if StartsWith(m, "GET_DEFAULT") then GetDefault
    else if StartsWith(m, "DELETE_LINE") then Delete(m[11..])
    else Unknown
  }

  /** The shortest message that selects `c`. */
  function Render(c: Command): string {
    match c
    case GetAll => "GET_ALL_LINES"
    case GetById(t) => "GET_LINE_BY_ID" + t
    case Add(j) => "ADD_LINE" + j
    case Update(j) => "UPDATE_LINE" + j
    case GetDefault => "GET_DEFAULT"
    case Delete(t) => "DELETE_LINE" + t
    case Unknown => ""
  }

  /** A message that differs from a verb at some position does not start with it. */
  lemma NotPrefixAt(m: string, verb: string, k: nat)
    requires k < |m| && k < |verb| && m[k] != verb[k]
    ensures !StartsWith(m, verb)
  {
    if |verb| <= |m| {
      assert m[..|verb|][k] != verb[k];
    }
  }

  /** No verb is a prefix of another, so a rendered command parses back to itself whatever the payload. */
  lemma ParseRender(c: Command)
    requires c != Unknown
    ensures ParseCommand(Render(c)) == c
  {
    var m := Render(c);
    match c {
      case GetAll =>
      case GetById(t) =>
        NotPrefixAt(m, "GET_ALL_LINES", 4);
        assert m[14..] == t;
      case Add(j) =>
        NotPrefixAt(m, "GET_ALL_LINES", 0);
        NotPrefixAt(m, "GET_LINE_BY_ID", 0);
        assert m[8..] == j;
      case Update(j) =>
        NotPrefixAt(m, "GET_ALL_LINES", 0);
        NotPrefixAt(m, "GET_LINE_BY_ID", 0);
        NotPrefixAt(m, "ADD_LINE", 0);
        assert m[11..] == j;
      case GetDefault =>
        NotPrefixAt(m, "GET_ALL_LINES", 4);
        NotPrefixAt(m, "GET_LINE_BY_ID", 4);
        NotPrefixAt(m, "ADD_LINE", 0);
        NotPrefixAt(m, "UPDATE_LINE", 0);
      case Delete(t) =>
        NotPrefixAt(m, "GET_ALL_LINES", 0);
        NotPrefixAt(m, "GET_LINE_BY_ID", 0);
        NotPrefixAt(m, "ADD_LINE", 0);
        NotPrefixAt(m, "UPDATE_LINE", 0);
        NotPrefixAt(m, "GET_DEFAULT", 0);
        assert m[11..] == t;
    }
  }

  /** Every recognised message is its command rendered, followed by ignored text for the two bare verbs. */
  lemma RenderParse(m: string)
    requires ParseCommand(m) != Unknown
    ensures var c := ParseCommand(m);
      StartsWith(m, Render(c)) && (c.GetAll? || c.GetDefault? || m == Render(c))
  {
  }

  // ---------------------------------------------------------------------------------------------
  // One dispatch as a function
  // ---------------------------------------------------------------------------------------------

  /** The list after a command and the reply sent back. */
  datatype Outcome = Outcome(lines: seq<LineInfo>, reply: string)

  /** `HandleCommand` on list `s`, including the `ERROR: ...` reply for a deserialisation exception. */
  function Respond(codec: Codec, s: seq<LineInfo>, message: string): Outcome {
    match ParseCommand(message)
    case GetAll =>
      Outcome(s, codec.serializeLines(s))
    case GetById(text) =>
      var i := IndexOfIdText(s, codec.guidToString, text);
      Outcome(s, if i < 0 then "" else codec.serializeLine(s[i]))
    case Add(json) =>
      (match codec.deserializeLine(json)
       case Parsed(line) => Outcome(Added(s, line), "OK")
       case JsonNull => Outcome(s, "FAIL")
       case JsonError(msg) => Outcome(s, "ERROR: " + msg))
    case Update(json) =>
      (match codec.deserializeLine(json)
       case Parsed(u) => Outcome(Updated(s, u), if IndexOfId(s, u.id) < 0 then "FAIL" else "OK")
       case JsonNull => Outcome(s, "FAIL")
       case JsonError(msg) => Outcome(s, "ERROR: " + msg))
    case GetDefault =>
      var i := IndexOfDefault(s);
      Outcome(s, if i < 0 then "" else codec.serializeLine(s[i]))
    case Delete(text) =>
      (match codec.tryParseGuidD(text)
       case None => Outcome(s, "FAIL")
       case Some(id) => Outcome(Deleted(s, id), if IndexOfId(s, id) < 0 then "FAIL" else "OK"))
    case Unknown =>
      Outcome(s, "UNKNOWN_COMMAND")
  }

  /** A message that starts with no verb gets exactly `UNKNOWN_COMMAND` and changes nothing. */
  lemma UnknownVerbReply(codec: Codec, s: seq<LineInfo>, message: string)
    requires !StartsWithSomeVerb(message)
    ensures Respond(codec, s, message) == Outcome(s, "UNKNOWN_COMMAND")
  {
  }

  /** The three queries and an unknown verb never change the list, so repeating one repeats its reply. */
  lemma QueriesLeaveListUnchanged(codec: Codec, s: seq<LineInfo>, message: string)
    requires ParseCommand(message) in {GetAll, GetDefault, Unknown} || ParseCommand(message).GetById?
    ensures Respond(codec, s, message).lines == s
    ensures Respond(codec, Respond(codec, s, message).lines, message) == Respond(codec, s, message)
  {
  }

  /** `GET_DEFAULT` answers with the first default record, or `""` when there is none. */
  lemma GetDefaultReply(codec: Codec, s: seq<LineInfo>, message: string)
    requires StartsWith(message, "GET_DEFAULT")
    ensures HasDefault(s) ==> Respond(codec, s, message).reply == codec.serializeLine(s[IndexOfDefault(s)])
    ensures !HasDefault(s) ==> Respond(codec, s, message).reply == ""
  {
    assert message[..11] == "GET_DEFAULT";
    assert message[4] == 'D' && message[0] == 'G';
    NotPrefixAt(message, "GET_ALL_LINES", 4);
    NotPrefixAt(message, "GET_LINE_BY_ID", 4);
    NotPrefixAt(message, "ADD_LINE", 0);
    NotPrefixAt(message, "UPDATE_LINE", 0);
  }

  /**
   * `GET_LINE_BY_ID` answers with the first record whose id prints as the payload, or `""` when
   * no record's id does; the list is unchanged.
   */
  lemma GetByIdReply(codec: Codec, s: seq<LineInfo>, text: string)
    ensures var o := Respond(codec, s, "GET_LINE_BY_ID" + text);
      o.lines == s &&
      ((forall j :: 0 <= j < |s| ==> codec.guidToString(s[j].id) != text) ==> o.reply == "") &&
      (forall i :: 0 <= i < |s| && codec.guidToString(s[i].id) == text &&
        (forall j :: 0 <= j < i ==> codec.guidToString(s[j].id) != text)
        ==> o.reply == codec.serializeLine(s[i]))
  {
    ParseRender(GetById(text));
  }

  /**
   * A deserialisation exception is caught: the reply is `ERROR: ` and the exception's message,
   * and the list is unchanged.
   */
  lemma ExceptionBecomesErrorReply(codec: Codec, s: seq<LineInfo>, message: string, msg: string)
    requires ParseCommand(message).Add? || ParseCommand(message).Update?
    requires codec.deserializeLine(ParseCommand(message).json) == JsonError(msg)
    ensures Respond(codec, s, message) == Outcome(s, "ERROR: " + msg)
  {
  }

  /**
   * What the reply of a mutation says about the list: `FAIL` or `ERROR: ...` means unchanged,
   * `OK` means one record more (add), the same count (update) or one fewer (delete).
   */
  lemma MutationReplies(codec: Codec, s: seq<LineInfo>, message: string)
    requires ParseCommand(message).Add? || ParseCommand(message).Update? || ParseCommand(message).Delete?
    ensures var o := Respond(codec, s, message);
      (o.reply == "OK" || o.reply == "FAIL" || StartsWith(o.reply, "ERROR: ")) &&
      (o.reply != "OK" ==> o.lines == s) &&
      (o.reply == "OK" && ParseCommand(message).Add? ==> |o.lines| == |s| + 1) &&
      (o.reply == "OK" && ParseCommand(message).Update? ==> |o.lines| == |s|) &&
      (o.reply == "OK" && ParseCommand(message).Delete? ==> |o.lines| == |s| - 1)
  {
    var c := ParseCommand(message);
    var o := Respond(codec, s, message);
    match c {
      case Add(json) =>
        match codec.deserializeLine(json) {
          case Parsed(line) => AddedAppends(s, line);
          case JsonNull =>
          case JsonError(msg) => assert StartsWith(o.reply, "ERROR: ");
        }
      case Update(json) =>
        match codec.deserializeLine(json) {
          case Parsed(u) =>
            if IndexOfId(s, u.id) >= 0 { UpdatedReplacesFirstMatch(s, u); }
          case JsonNull =>
          case JsonError(msg) => assert StartsWith(o.reply, "ERROR: ");
        }
      case Delete(text) =>
        match codec.tryParseGuidD(text) {
          case None =>
          case Some(id) =>
            if IndexOfId(s, id) >= 0 { DeletedRemovesFirstMatch(s, id); }
        }
    }
  }

  /** An `UPDATE_LINE` whose payload decodes to a record marked default. */
  predicate IsDefaultUpdate(codec: Codec, message: string) {
    ParseCommand(message).Update? &&
    codec.deserializeLine(ParseCommand(message).json).Parsed? &&
    codec.deserializeLine(ParseCommand(message).json).value.isDefault
  }

  /**
   * One dispatch keeps the store's invariant (empty, or exactly one default). Only a default
   * `UPDATE_LINE` needs distinct ids for that: every other command, a non-default update included,
   * keeps it on any list, including the generated seed lines, which all share `Guid.Empty`.
   * Distinct ids stay distinct, provided an added record brings a new id.
   */
  lemma RespondKeepsSingleDefault(codec: Codec, s: seq<LineInfo>, message: string)
    requires SingleDefault(s)
    requires IsDefaultUpdate(codec, message) ==> DistinctIds(s)
    ensures SingleDefault(Respond(codec, s, message).lines)
    ensures DistinctIds(s) && ParseCommand(message).Add? &&
      codec.deserializeLine(ParseCommand(message).json).Parsed? &&
      IndexOfId(s, codec.deserializeLine(ParseCommand(message).json).value.id) < 0
      ==> DistinctIds(Respond(codec, s, message).lines)
    ensures DistinctIds(s) && !ParseCommand(message).Add? ==> DistinctIds(Respond(codec, s, message).lines)
  {
    if |s| > 0 { ExactlyOneIsAtMostOne(s); }
    match ParseCommand(message) {
      case Add(json) =>
        match codec.deserializeLine(json) {
          case Parsed(line) =>
            AddedKeepsSingleDefault(s, line);
            if DistinctIds(s) && IndexOfId(s, line.id) < 0 { AddedFreshIdKeepsDistinct(s, line); }
          case JsonNull =>
          case JsonError(_) =>
        }
      case Update(json) =>
        match codec.deserializeLine(json) {
          case Parsed(u) =>
            if IndexOfId(s, u.id) >= 0 {
              if u.isDefault {
                UpdatedKeepsSingleDefault(s, u);
              } else {
                UpdatedNonDefaultKeepsSingleDefault(s, u);
              }
            }
            if DistinctIds(s) { UpdatedKeepsDistinct(s, u); }
          case JsonNull =>
          case JsonError(_) =>
        }
      case Delete(text) =>
        match codec.tryParseGuidD(text) {
          case None =>
          case Some(id) =>
            DeletedKeepsSingleDefault(s, id);
            if DistinctIds(s) { DeletedKeepsDistinct(s, id); }
        }
      case GetAll =>
      case GetById(_) =>
      case GetDefault =>
      case Unknown =>
    }
  }

  /**
   * A freshly seeded store is served safely by every command except a default `UPDATE_LINE`: the
   * generated lines hold exactly one default but share one id, and every other command keeps the
   * invariant on them.
   */
  lemma SeededStoreKeepsSingleDefault(codec: Codec, d: LineDraws, message: string)
    requires ValidLineDraws(d)
    requires !IsDefaultUpdate(codec, message)
    ensures !DistinctIds(GeneratedLines(d))
    ensures SingleDefault(Respond(codec, GeneratedLines(d), message).lines)
  {
    var s := GeneratedLines(d);
    GeneratedLinesDefaultAtDraw(d);
    GeneratedLinesDistinctAddresses(d);
    assert s[0].id == s[1].id;
    ExactlyOneDefaultAt(s, d.defaultIdx);
    RespondKeepsSingleDefault(codec, s, message);
  }

  /**
   * `ADD_LINE` then `GET_LINE_BY_ID` with the new record's id text returns the added record,
   * provided no earlier record prints as that id. The id is the caller's: nothing assigns one.
   * The record comes back unchanged except that it is made default when the list was empty.
   */
  lemma AddThenGetById(codec: Codec, s: seq<LineInfo>, json: string, line: LineInfo)
    requires codec.deserializeLine(json) == Parsed(line)
    requires forall i :: 0 <= i < |s| ==> codec.guidToString(s[i].id) != codec.guidToString(line.id)
    ensures var added := Respond(codec, s, "ADD_LINE" + json);
      added.reply == "OK" &&
      Respond(codec, added.lines, "GET_LINE_BY_ID" + codec.guidToString(line.id)) ==
        Outcome(added.lines, codec.serializeLine(if |s| == 0 then line.(isDefault := true) else line))
  {
    ParseRender(Add(json));
    ParseRender(GetById(codec.guidToString(line.id)));
    var r := Added(s, line);
    AddedAppends(s, line);
    if line.isDefault {
      AddedDefaultWins(s, line);
    } else {
      AddedNonDefault(s, line);
    }
    assert r[|s|] == (if |s| == 0 then line.(isDefault := true) else line);
    assert IndexOfIdText(r, codec.guidToString, codec.guidToString(line.id)) == |s|;
  }

  /**
   * `DELETE_LINE` with an existing record's id, printed in `D` format, removes the first record
   * with that id and replies `OK`.
   */
  lemma DeleteByPrintedId(codec: Codec, s: seq<LineInfo>, i: nat)
    requires i < |s|
    requires codec.tryParseGuidD(codec.guidToString(s[i].id)) == Some(s[i].id)
    ensures var o := Respond(codec, s, "DELETE_LINE" + codec.guidToString(s[i].id));
      o == Outcome(Deleted(s, s[i].id), "OK") && |o.lines| == |s| - 1
  {
    ParseRender(Delete(codec.guidToString(s[i].id)));
    DeletedRemovesFirstMatch(s, s[i].id);
  }

  /** Deleting the last line leaves an empty list, for which `GET_DEFAULT` replies `""`. */
  lemma DeleteLastThenGetDefault(codec: Codec, line: LineInfo, idText: string)
    requires codec.tryParseGuidD(idText) == Some(line.id)
    ensures var o := Respond(codec, [line], "DELETE_LINE" + idText);
      o == Outcome([], "OK") && Respond(codec, o.lines, "GET_DEFAULT") == Outcome([], "")
  {
    ParseRender(Delete(idText));
    ParseRender(GetDefault);
    assert IndexOfId([line], line.id) == 0;
  }

  // ---------------------------------------------------------------------------------------------
  // The handler
  // ---------------------------------------------------------------------------------------------

  class ClientHandler {
    const db: DummyDatabase

    constructor (db: DummyDatabase)
      ensures this.db == db
    {
      this.db := db;
    }

    /**
     * `Handle` after the line is read: a null or empty line skips dispatch and nothing is
     * written back; any other line is dispatched and its reply written.
     */
    method Handle(codec: Codec, message: Option<string>) returns (written: Option<string>)
      modifies db.lines
      ensures message == None || message == Some("") ==> written == None && db.lines.items == old(db.lines.items)
      ensures message.Some? && message.value != "" ==>
        written == Some(Respond(codec, old(db.lines.items), message.value).reply) &&
        db.lines.items == Respond(codec, old(db.lines.items), message.value).lines
    {
      if message.Some? && message.value != "" {
        var reply := HandleCommand(codec, message.value);
        written := Some(reply);
      } else {
        written := None;
      }
    }

    /** `HandleCommand`: dispatch one message against the store's live list. */
    method HandleCommand(codec: Codec, message: string) returns (reply: string)
      modifies db.lines
      ensures Outcome(db.lines.items, reply) == Respond(codec, old(db.lines.items), message)
    {
      var data := db.GetData();
      match ParseCommand(message) {
        case GetAll =>
          reply := codec.serializeLines(data.items);
        case GetById(text) =>
          var i := IndexOfIdText(data.items, codec.guidToString, text);
          reply := if i >= 0 then codec.serializeLine(data.items[i]) else "";
        case Add(json) =>
          match codec.deserializeLine(json) {
            case Parsed(line) => reply := AddLine(data, line);
            case JsonNull => reply := "FAIL";
            case JsonError(msg) => reply := "ERROR: " + msg;
          }
        case Update(json) =>
          match codec.deserializeLine(json) {
            case Parsed(u) => reply := UpdateLine(data, u);
            case JsonNull => reply := "FAIL";
            case JsonError(msg) => reply := "ERROR: " + msg;
          }
        case GetDefault =>
          var i := IndexOfDefault(data.items);
          reply := if i >= 0 then codec.serializeLine(data.items[i]) else "";
        case Delete(text) =>
          match codec.tryParseGuidD(text) {
            case Some(id) => reply := DeleteLine(data, id);
            case None => reply := "FAIL";
          }
        case Unknown =>
          reply := "UNKNOWN_COMMAND";
      }
    }

    /** `AddLine`: clear every flag when the new record is default, append it, then the fallback. */
    static method AddLine(data: LineList, line: LineInfo) returns (reply: string)
      modifies data
      ensures data.items == Added(old(data.items), line)
      ensures reply == "OK"
    {
      if line.isDefault {
        var i := 0;
        while i < |data.items|
          invariant 0 <= i <= |data.items| == |old(data.items)|
          invariant forall k :: 0 <= k < i ==> data.items[k] == old(data.items)[k].(isDefault := false)
          invariant forall k :: i <= k < |data.items| ==> data.items[k] == old(data.items)[k]
        {
          data.items := data.items[i := data.items[i].(isDefault := false)];
          i := i + 1;
        }
        assert data.items == ClearAll(old(data.items));
      }
      data.items := data.items + [line];
      if !HasDefault(data.items) && |data.items| > 0 {
        data.items := data.items[0 := data.items[0].(isDefault := true)];
      }
      reply := "OK";
    }

    /** `UpdateLine`: replace the first record with the same id, keeping the flags consistent. */
    static method UpdateLine(data: LineList, updatedLine: LineInfo) returns (reply: string)
      modifies data
      ensures data.items == Updated(old(data.items), updatedLine)
      ensures reply == if IndexOfId(old(data.items), updatedLine.id) >= 0 then "OK" else "FAIL"
    {
      var idx := IndexOfId(data.items, updatedLine.id);
      if idx >= 0 {
        if updatedLine.isDefault {
          var i := 0;
          while i < |data.items|
            invariant 0 <= i <= |data.items| == |old(data.items)|
            invariant forall k :: 0 <= k < i ==>
              data.items[k] == if old(data.items)[k].id != updatedLine.id then old(data.items)[k].(isDefault := false) else old(data.items)[k]
            invariant forall k :: i <= k < |data.items| ==> data.items[k] == old(data.items)[k]
          {
            if data.items[i].id != updatedLine.id {
              data.items := data.items[i := data.items[i].(isDefault := false)];
            }
            i := i + 1;
          }
          assert data.items == ClearOthers(old(data.items), updatedLine.id);
        }
        data.items := data.items[idx := updatedLine];
        if !HasDefault(data.items) && |data.items| > 0 {
          data.items := data.items[0 := data.items[0].(isDefault := true)];
        }
        return "OK";
      }
      return "FAIL";
    }

    /** `DeleteLine`: remove the first record with the id; promote record 0 if the default went. */
    static method DeleteLine(data: LineList, delLineId: Guid) returns (reply: string)
      modifies data
      ensures data.items == Deleted(old(data.items), delLineId)
      ensures reply == if IndexOfId(old(data.items), delLineId) >= 0 then "OK" else "FAIL"
    {
      var s := data.items;
      var idx := IndexOfId(s, delLineId);
      if idx >= 0 {
        var wasDefault := s[idx].isDefault;
        var rest := RemoveAt(s, idx);
        data.items := rest;
        if wasDefault && |rest| > 0 && !HasDefault(rest) {
          data.items := rest[0 := rest[0].(isDefault := true)];
        }
        assert data.items == if wasDefault then EnsureDefault(rest) else rest;
        return "OK";
      }
      return "FAIL";
    }
  }
}
