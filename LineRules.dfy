/**
 * The line-record rule set: what `AddLine`, `UpdateLine`, `DeleteLine` (ClientHandler.cs) and
 * `NormalizeDefault` (DummyDatabase.cs) do to the list of lines, as functions on sequences,
 * and the "exactly one default" properties proved about them. The imperative methods that
 * change the list in place are proved equal to these functions.
 */
module LineRules {
  import opened Models

  // ---------------------------------------------------------------------------------------------
  // Searching (List.FindIndex, List.FirstOrDefault, List.Any)
  // ---------------------------------------------------------------------------------------------

  /** `List.FindIndex(p)`: the first index whose element satisfies `p`, or -1. */
  function FirstIndex<T>(s: seq<T>, p: T -> bool): (r: int)
    ensures -1 <= r < |s|
    ensures r == -1 <==> forall j :: 0 <= j < |s| ==> !p(s[j])
    ensures 0 <= r ==> p(s[r]) && forall j :: 0 <= j < r ==> !p(s[j])
  {
    if s == [] then -1
    else if p(s[0]) then 0
    else
      var r := FirstIndex(s[1..], p);
      assert forall j :: 1 <= j < |s| ==> s[j] == s[1..][j - 1];
      if r < 0 then -1 else r + 1
  }

  /** `data.FindIndex(l => l.Id == id)`. */
  function IndexOfId(s: seq<LineInfo>, id: Guid): (r: int)
    ensures -1 <= r < |s|
    ensures r == -1 <==> forall j :: 0 <= j < |s| ==> s[j].id != id
    ensures 0 <= r ==> s[r].id == id && forall j :: 0 <= j < r ==> s[j].id != id
  {
    FirstIndex(s, (l: LineInfo) => l.id == id)
  }

  /** The index `data.FirstOrDefault(l => l.Id.ToString() == text)` picks, or -1. */
  function IndexOfIdText(s: seq<LineInfo>, idToText: Guid -> string, text: string): (r: int)
    ensures -1 <= r < |s|
    ensures r == -1 <==> forall j :: 0 <= j < |s| ==> idToText(s[j].id) != text
    ensures 0 <= r ==> idToText(s[r].id) == text && forall j :: 0 <= j < r ==> idToText(s[j].id) != text
  {
    FirstIndex(s, (l: LineInfo) => idToText(l.id) == text)
  }

  /** The index `data.FirstOrDefault(l => l.IsDefault)` picks, or -1. */
  function IndexOfDefault(s: seq<LineInfo>): (r: int)
    ensures -1 <= r < |s|
    ensures r == -1 <==> forall j :: 0 <= j < |s| ==> !s[j].isDefault
    ensures 0 <= r ==> s[r].isDefault && forall j :: 0 <= j < r ==> !s[j].isDefault
  {
    FirstIndex(s, (l: LineInfo) => l.isDefault)
  }

  /** `data.Any(l => l.IsDefault)`. */
  function HasDefault(s: seq<LineInfo>): (b: bool)
    ensures b <==> exists j :: 0 <= j < |s| && s[j].isDefault
  {
    IndexOfDefault(s) >= 0
  }

  // ---------------------------------------------------------------------------------------------
  // The default invariant
  // ---------------------------------------------------------------------------------------------

  /** Record `k` is default and no other record is. */
  ghost predicate DefaultOnlyAt(s: seq<LineInfo>, k: int) {
    0 <= k < |s| && s[k].isDefault && forall j :: 0 <= j < |s| && j != k ==> !s[j].isDefault
  }

  ghost predicate ExactlyOneDefault(s: seq<LineInfo>) {
    exists k :: DefaultOnlyAt(s, k)
  }

  ghost predicate AtMostOneDefault(s: seq<LineInfo>) {
    forall i, j :: 0 <= i < |s| && 0 <= j < |s| && s[i].isDefault && s[j].isDefault ==> i == j
  }

  /** The store's invariant: an empty list, or exactly one default. */
  ghost predicate SingleDefault(s: seq<LineInfo>) {
    |s| == 0 || ExactlyOneDefault(s)
  }

  ghost predicate DistinctIds(s: seq<LineInfo>) {
    forall i, j :: 0 <= i < j < |s| ==> s[i].id != s[j].id
  }

  /** Two records that agree on every field except possibly `isDefault`. */
  ghost predicate SameExceptDefault(a: LineInfo, b: LineInfo) {
    a.id == b.id && a.name == b.name && a.ipAddress == b.ipAddress && a.portnumber == b.portnumber
  }

  lemma ExactlyOneDefaultAt(s: seq<LineInfo>, k: int)
    requires DefaultOnlyAt(s, k)
    ensures ExactlyOneDefault(s) && AtMostOneDefault(s) && SingleDefault(s)
  {
  }

  lemma ExactlyOneIsAtMostOne(s: seq<LineInfo>)
    requires ExactlyOneDefault(s)
    ensures AtMostOneDefault(s)
  {
  }

  // ---------------------------------------------------------------------------------------------
  // The list operations
  // ---------------------------------------------------------------------------------------------

  /** `foreach (var l in data) l.IsDefault = false;` */
  function ClearAll(s: seq<LineInfo>): seq<LineInfo> {
    seq(|s|, i requires 0 <= i < |s| => s[i].(isDefault := false))
  }

  /** The loop that clears `IsDefault` on every record whose id differs from `id`. */
  function ClearOthers(s: seq<LineInfo>, id: Guid): seq<LineInfo> {
    seq(|s|, i requires 0 <= i < |s| => if s[i].id != id then s[i].(isDefault := false) else s[i])
  }

  /** `if (!data.Any(l => l.IsDefault) && data.Count > 0) data[0].IsDefault = true;` */
  function EnsureDefault(s: seq<LineInfo>): seq<LineInfo> {
    if |s| > 0 && !HasDefault(s) then s[0 := s[0].(isDefault := true)] else s
  }

  /** The list after `AddLine(data, line)`. */
  function Added(s: seq<LineInfo>, line: LineInfo): seq<LineInfo> {
    EnsureDefault((if line.isDefault then ClearAll(s) else s) + [line])
  }

  /** The list after `UpdateLine(data, u)`; unchanged when no record has `u.id`. */
  function Updated(s: seq<LineInfo>, u: LineInfo): seq<LineInfo> {
    var idx := IndexOfId(s, u.id);
    if idx < 0 then s
    else EnsureDefault((if u.isDefault then ClearOthers(s, u.id) else s)[idx := u])
  }

  /** `List.RemoveAt(idx)`: the records before `idx`, then the ones after it. */
  function RemoveAt(s: seq<LineInfo>, idx: int): (r: seq<LineInfo>)
    requires 0 <= idx < |s|
    ensures |r| == |s| - 1
    ensures forall i :: 0 <= i < idx ==> r[i] == s[i]
    ensures forall i :: idx <= i < |r| ==> r[i] == s[i + 1]
  {
    seq(|s| - 1, i requires 0 <= i < |s| - 1 => if i < idx then s[i] else s[i + 1])
  }

  /** The list after `DeleteLine(data, id)`; unchanged when no record has `id`. */
  function Deleted(s: seq<LineInfo>, id: Guid): seq<LineInfo> {
    var idx := IndexOfId(s, id);
    if idx < 0 then s
    else
      var rest := RemoveAt(s, idx);
      if s[idx].isDefault then EnsureDefault(rest) else rest
  }

  /** Every record keeps its fields; only record `k` is default. */
  function SetDefaultAt(s: seq<LineInfo>, k: int): seq<LineInfo> {
    seq(|s|, i requires 0 <= i < |s| => s[i].(isDefault := i == k))
  }

  /** The list after `NormalizeDefault(lines)`: keep the first default, or else make record 0 default. */
  function Normalized(s: seq<LineInfo>): seq<LineInfo> {
    if |s| == 0 then s
    else
      var k := IndexOfDefault(s);
      SetDefaultAt(s, if k < 0 then 0 else k)
  }

  // ---------------------------------------------------------------------------------------------
  // EnsureDefault
  // ---------------------------------------------------------------------------------------------

  lemma EnsureDefaultFacts(s: seq<LineInfo>)
    ensures var r := EnsureDefault(s);
      |r| == |s| &&
      (forall i :: 0 <= i < |s| ==> SameExceptDefault(r[i], s[i])) &&
      (HasDefault(s) ==> r == s) &&
      (|s| > 0 && !HasDefault(s) ==> DefaultOnlyAt(r, 0)) &&
      (|s| > 0 ==> HasDefault(r))
  {
    var r := EnsureDefault(s);
    if |s| > 0 && !HasDefault(s) {
      assert r[0].isDefault;
    }
  }

  /** A list with at most one default that is non-empty ends with exactly one after the fallback. */
  lemma EnsureDefaultSingle(s: seq<LineInfo>)
    requires AtMostOneDefault(s)
    ensures SingleDefault(EnsureDefault(s))
  {
    EnsureDefaultFacts(s);
    if |s| > 0 {
      if HasDefault(s) {
        var k :| 0 <= k < |s| && s[k].isDefault;
        assert DefaultOnlyAt(s, k);
      } else {
        assert DefaultOnlyAt(EnsureDefault(s), 0);
      }
    }
  }

  // ---------------------------------------------------------------------------------------------
  // AddLine
  // ---------------------------------------------------------------------------------------------

  /** `AddLine` appends: one more record, the new one last, every earlier record kept apart from its flag. */
  lemma AddedAppends(s: seq<LineInfo>, line: LineInfo)
    ensures var r := Added(s, line);
      |r| == |s| + 1 &&
      SameExceptDefault(r[|s|], line) &&
      (forall i :: 0 <= i < |s| ==> SameExceptDefault(r[i], s[i]))
  {
    var t := (if line.isDefault then ClearAll(s) else s) + [line];
    EnsureDefaultFacts(t);
  }

  /** A default new record clears every earlier default and is the only default afterwards. */
  lemma AddedDefaultWins(s: seq<LineInfo>, line: LineInfo)
    requires line.isDefault
    ensures DefaultOnlyAt(Added(s, line), |s|)
  {
    var t := ClearAll(s) + [line];
    assert t[|s|].isDefault;
    EnsureDefaultFacts(t);
    assert Added(s, line) == t;
  }

  /**
   * A non-default new record leaves the existing defaults alone; only when there were none
   * does record 0 (which is the new record itself in an empty list) become default.
   */
  lemma AddedNonDefault(s: seq<LineInfo>, line: LineInfo)
    requires !line.isDefault
    ensures HasDefault(s) ==> Added(s, line) == s + [line]
    ensures !HasDefault(s) ==> DefaultOnlyAt(Added(s, line), 0)
  {
    var t := s + [line];
    EnsureDefaultFacts(t);
    if HasDefault(s) {
      var k :| 0 <= k < |s| && s[k].isDefault;
      assert t[k].isDefault;
    } else {
      assert !HasDefault(t) by {
        forall j | 0 <= j < |t| ensures !t[j].isDefault {
          if j < |s| { assert t[j] == s[j]; }
        }
      }
    }
  }

  /** With at most one default before, `AddLine` leaves exactly one. */
  lemma {:induction false} AddedKeepsSingleDefault(s: seq<LineInfo>, line: LineInfo)
    requires AtMostOneDefault(s)
    ensures ExactlyOneDefault(Added(s, line))
  {
    if line.isDefault {
      AddedDefaultWins(s, line);
    } else {
      AddedNonDefault(s, line);
      if HasDefault(s) {
        var k :| 0 <= k < |s| && s[k].isDefault;
        assert DefaultOnlyAt(s + [line], k);
      }
    }
  }

  /** Adding a record whose id is not yet used keeps the ids distinct. */
  lemma AddedFreshIdKeepsDistinct(s: seq<LineInfo>, line: LineInfo)
    requires DistinctIds(s)
    requires IndexOfId(s, line.id) < 0
    ensures DistinctIds(Added(s, line))
  {
    AddedAppends(s, line);
  }

  // ---------------------------------------------------------------------------------------------
  // UpdateLine
  // ---------------------------------------------------------------------------------------------

  /**
   * On a found id: same length, the first record with that id replaced by `u` (made default only
   * by the fallback, when it is record 0 and no default is left), every other record kept apart
   * from its flag, and some record default.
   */
  lemma UpdatedReplacesFirstMatch(s: seq<LineInfo>, u: LineInfo)
    requires IndexOfId(s, u.id) >= 0
    ensures var idx := IndexOfId(s, u.id);
      var r := Updated(s, u);
      |r| == |s| &&
      (r[idx] == u || (idx == 0 && !u.isDefault && r[0] == u.(isDefault := true))) &&
      (forall i :: 0 <= i < |s| && i != idx ==> SameExceptDefault(r[i], s[i])) &&
      HasDefault(r)
  {
    var idx := IndexOfId(s, u.id);
    var t := (if u.isDefault then ClearOthers(s, u.id) else s)[idx := u];
    EnsureDefaultFacts(t);
    if u.isDefault {
      assert t[idx].isDefault;
    }
  }

  /** A default update clears the flag of every record with a different id, and keeps its own. */
  lemma UpdatedDefaultClearsOtherIds(s: seq<LineInfo>, u: LineInfo)
    requires IndexOfId(s, u.id) >= 0
    requires u.isDefault
    ensures var r := Updated(s, u);
      r[IndexOfId(s, u.id)] == u &&
      forall i :: 0 <= i < |r| && r[i].id != u.id ==> !r[i].isDefault
  {
    var idx := IndexOfId(s, u.id);
    var t := ClearOthers(s, u.id)[idx := u];
    assert t[idx].isDefault;
    EnsureDefaultFacts(t);
  }

  /**
   * A non-default update touches no other flag: every record after 0 other than the updated one is
   * kept exactly, and while some other record is still default the list is `s` with `u` in place.
   */
  lemma UpdatedNonDefaultKeepsFlags(s: seq<LineInfo>, u: LineInfo)
    requires IndexOfId(s, u.id) >= 0
    requires !u.isDefault
    ensures var idx := IndexOfId(s, u.id);
      var r := Updated(s, u);
      (forall i :: 0 < i < |s| && i != idx ==> r[i] == s[i]) &&
      ((exists j :: 0 <= j < |s| && j != idx && s[j].isDefault) ==> r == s[idx := u])
  {
    var idx := IndexOfId(s, u.id);
    var t := s[idx := u];
    EnsureDefaultFacts(t);
    if exists j :: 0 <= j < |s| && j != idx && s[j].isDefault {
      var j :| 0 <= j < |s| && j != idx && s[j].isDefault;
      assert t[j].isDefault;
    }
  }

  /** When the updated record was the only default and loses its flag, record 0 becomes the only default. */
  lemma UpdatedFallsBackToFirst(s: seq<LineInfo>, u: LineInfo)
    requires IndexOfId(s, u.id) >= 0
    requires !u.isDefault
    requires DefaultOnlyAt(s, IndexOfId(s, u.id))
    ensures DefaultOnlyAt(Updated(s, u), 0)
  {
    var idx := IndexOfId(s, u.id);
    var t := s[idx := u];
    assert !HasDefault(t) by {
      forall j | 0 <= j < |t| ensures !t[j].isDefault {
        if j != idx { assert t[j] == s[j]; }
      }
    }
    EnsureDefaultFacts(t);
  }

  /** An id no record has: `UpdateLine` changes nothing. */
  lemma UpdatedMissingIdUnchanged(s: seq<LineInfo>, u: LineInfo)
    requires forall i :: 0 <= i < |s| ==> s[i].id != u.id
    ensures Updated(s, u) == s
  {
  }

  /** With distinct ids and at most one default before, a successful update leaves exactly one. */
  lemma UpdatedKeepsSingleDefault(s: seq<LineInfo>, u: LineInfo)
    requires DistinctIds(s)
    requires AtMostOneDefault(s)
    requires IndexOfId(s, u.id) >= 0
    ensures ExactlyOneDefault(Updated(s, u))
  {
    var idx := IndexOfId(s, u.id);
    var t := (if u.isDefault then ClearOthers(s, u.id) else s)[idx := u];
    if u.isDefault {
      assert DefaultOnlyAt(t, idx);
    } else {
      assert AtMostOneDefault(t) by {
        forall i, j | 0 <= i < |t| && 0 <= j < |t| && t[i].isDefault && t[j].isDefault ensures i == j {
          assert i != idx && j != idx;
        }
      }
    }
    EnsureDefaultSingle(t);
  }

  /**
   * A non-default update never needs distinct ids: the replaced list has at most the defaults the
   * other records had, and the fallback restores one if none is left.
   */
  lemma UpdatedNonDefaultKeepsSingleDefault(s: seq<LineInfo>, u: LineInfo)
    requires AtMostOneDefault(s)
    requires IndexOfId(s, u.id) >= 0
    requires !u.isDefault
    ensures ExactlyOneDefault(Updated(s, u))
  {
    var idx := IndexOfId(s, u.id);
    var t := s[idx := u];
    assert AtMostOneDefault(t) by {
      forall i, j | 0 <= i < |t| && 0 <= j < |t| && t[i].isDefault && t[j].isDefault ensures i == j {
        assert i != idx && j != idx;
      }
    }
    EnsureDefaultSingle(t);
  }

  /** An update keeps every id where it was, so distinct ids stay distinct. */
  lemma UpdatedKeepsDistinct(s: seq<LineInfo>, u: LineInfo)
    requires DistinctIds(s)
    ensures DistinctIds(Updated(s, u))
  {
    if IndexOfId(s, u.id) >= 0 {
      UpdatedReplacesFirstMatch(s, u);
    }
  }

  /**
   * Ids are not unique in the source (generated lines all carry `Guid.Empty`). With a repeated id,
   * a default update clears only records with a different id, so two defaults survive.
   */
  lemma UpdatedDuplicateIdsLeaveTwoDefaults()
    ensures var a := LineInfo(EmptyGuid, "Line_1", "192.168.1.10", 1000, false);
      var b := LineInfo(EmptyGuid, "Line_2", "192.168.1.11", 1001, true);
      var u := LineInfo(EmptyGuid, "Renamed", "10.0.0.1", 2000, true);
      var r := Updated([a, b], u);
      |r| == 2 && r[0].isDefault && r[1].isDefault && !AtMostOneDefault(r)
  {
    var a := LineInfo(EmptyGuid, "Line_1", "192.168.1.10", 1000, false);
    var b := LineInfo(EmptyGuid, "Line_2", "192.168.1.11", 1001, true);
    var u := LineInfo(EmptyGuid, "Renamed", "10.0.0.1", 2000, true);
    assert IndexOfId([a, b], u.id) == 0;
    var t := ClearOthers([a, b], u.id)[0 := u];
    assert t == [u, b];
    assert HasDefault(t);
  }

  // ---------------------------------------------------------------------------------------------
  // DeleteLine
  // ---------------------------------------------------------------------------------------------

  /** On a found id: exactly the first matching record is gone, the others keep their order. */
  lemma DeletedRemovesFirstMatch(s: seq<LineInfo>, id: Guid)
    requires IndexOfId(s, id) >= 0
    ensures var idx := IndexOfId(s, id);
      var r := Deleted(s, id);
      |r| == |s| - 1 &&
      (forall i :: 0 <= i < idx ==> SameExceptDefault(r[i], s[i])) &&
      (forall i :: idx <= i < |r| ==> SameExceptDefault(r[i], s[i + 1])) &&
      (!s[idx].isDefault ==> r == RemoveAt(s, idx))
  {
    var idx := IndexOfId(s, id);
    EnsureDefaultFacts(RemoveAt(s, idx));
  }

  /** An id no record has: `DeleteLine` changes nothing. */
  lemma DeletedMissingIdUnchanged(s: seq<LineInfo>, id: Guid)
    requires forall i :: 0 <= i < |s| ==> s[i].id != id
    ensures Deleted(s, id) == s
  {
  }

  /** Removing the only default from a list of two or more makes record 0 the default. */
  lemma DeletedDefaultPromotesFirst(s: seq<LineInfo>, id: Guid)
    requires IndexOfId(s, id) >= 0
    requires DefaultOnlyAt(s, IndexOfId(s, id))
    requires |s| >= 2
    ensures DefaultOnlyAt(Deleted(s, id), 0)
  {
    var idx := IndexOfId(s, id);
    var rest := RemoveAt(s, idx);
    assert !HasDefault(rest) by {
      forall j | 0 <= j < |rest| ensures !rest[j].isDefault {
        if j < idx { assert rest[j] == s[j]; } else { assert rest[j] == s[j + 1]; }
      }
    }
    EnsureDefaultFacts(rest);
  }

  /** `DeleteLine` keeps the store's invariant: empty, or exactly one default. */
  lemma DeletedKeepsSingleDefault(s: seq<LineInfo>, id: Guid)
    requires SingleDefault(s)
    ensures SingleDefault(Deleted(s, id))
  {
    var idx := IndexOfId(s, id);
    if idx >= 0 {
      var k :| DefaultOnlyAt(s, k);
      var rest := RemoveAt(s, idx);
      if k == idx {
        if |s| >= 2 {
          DeletedDefaultPromotesFirst(s, id);
        }
      } else {
        var k' := if k < idx then k else k - 1;
        assert DefaultOnlyAt(rest, k') by {
          forall j | 0 <= j < |rest| && j != k' ensures !rest[j].isDefault {
            if j < idx { assert rest[j] == s[j]; } else { assert rest[j] == s[j + 1]; }
          }
        }
      }
    }
  }

  /** Removing a record keeps the remaining ids distinct. */
  lemma DeletedKeepsDistinct(s: seq<LineInfo>, id: Guid)
    requires DistinctIds(s)
    ensures DistinctIds(Deleted(s, id))
  {
    if IndexOfId(s, id) >= 0 {
      DeletedRemovesFirstMatch(s, id);
    }
  }

  // ---------------------------------------------------------------------------------------------
  // NormalizeDefault
  // ---------------------------------------------------------------------------------------------

  /** Only `isDefault` changes: same length, same order, every other field kept. */
  lemma NormalizedOnlyChangesFlags(s: seq<LineInfo>)
    ensures var r := Normalized(s);
      |r| == |s| && (|s| == 0 ==> r == s) &&
      forall i :: 0 <= i < |s| ==> SameExceptDefault(r[i], s[i])
  {
  }

  /** With some default present, the first one stays and every other flag is cleared. */
  lemma NormalizedKeepsFirstDefault(s: seq<LineInfo>)
    requires IndexOfDefault(s) >= 0
    ensures DefaultOnlyAt(Normalized(s), IndexOfDefault(s))
  {
  }

  /** With no default present, record 0 becomes the only default. */
  lemma NormalizedFallsBackToFirst(s: seq<LineInfo>)
    requires |s| > 0 && !HasDefault(s)
    ensures DefaultOnlyAt(Normalized(s), 0)
  {
  }

  /** A non-empty list has exactly one default after normalising. */
  lemma NormalizedSingleDefault(s: seq<LineInfo>)
    ensures SingleDefault(Normalized(s))
  {
    if |s| > 0 {
      var k := IndexOfDefault(s);
      assert DefaultOnlyAt(Normalized(s), if k < 0 then 0 else k);
    }
  }

  /** A list that already has a single default is left exactly as it is. */
  lemma NormalizedFixesSingleDefault(s: seq<LineInfo>)
    requires SingleDefault(s)
    ensures Normalized(s) == s
  {
    if |s| > 0 {
      var k :| DefaultOnlyAt(s, k);
      assert IndexOfDefault(s) == k;
      assert forall i :: 0 <= i < |s| ==> Normalized(s)[i] == s[i];
    }
  }

  /** Normalising twice is the same as normalising once. */
  lemma NormalizedIdempotent(s: seq<LineInfo>)
    ensures Normalized(Normalized(s)) == Normalized(s)
  {
    NormalizedSingleDefault(s);
    NormalizedFixesSingleDefault(Normalized(s));
  }
}
