/**
 * The Apps Script web app of Gas.js: `searchUser` scans the participant
 * sheet for an identifier, `doPost` validates the request and maps the
 * lookup onto the JSON envelope that `createJsonResponse` builds.
 *
 * The spreadsheet is an input: `Option<Sheet>` is `None` when no sheet of
 * the expected name exists, and a sheet is its `getValues()` grid with row 0
 * the header. Cells are strings; the empty string stands for every falsy
 * cell.
 */
module Gas {
  import opened Wrappers
  import opened JsText

  /** Column D must hold exactly this (after trimming) to grant entry. */
  const AccessGranted: string := "有"

  const MsgMalformedRequest: string := "リクエスト形式が正しくありません"
  const MsgNoId: string := "IDが指定されていません"
  const MsgGranted: string := "入場権利があります"
  const MsgDenied: string := "入場権利がありません"
  const MsgNotFound: string := "該当するIDが見つかりません"
  const MsgSystemError: string := "システムエラーが発生しました"

  /** Every message the service can put in an envelope. */
  const Messages: set<string> :=
    {MsgMalformedRequest, MsgNoId, MsgGranted, MsgDenied, MsgNotFound, MsgSystemError}

  type Row = seq<string>
  type Sheet = seq<Row>

  /** The profile returned for a found row; `None` is JSON `null`. */
  datatype UserData = UserData(name: Option<string>, returnItem: Option<string>)

  /** What `searchUser` returns when it does not throw. */
  datatype SearchResult = NotFound | Found(hasAccess: bool, data: UserData)

  /** The error `searchUser` throws: the sheet is missing. */
  datatype LookupError = SheetNotFound

  /** The response object serialised by `createJsonResponse`. */
  datatype Envelope = Envelope(success: bool, hasAccess: bool, message: string, data: Option<UserData>)

  /** `row[col]`, reading a cell past the end of the row as `undefined`. */
  function Cell(row: Row, col: nat): string {
    if col < |row| then row[col] else ""
  }

  /** Column A as `searchUser` compares it: trimmed, `''` when falsy. */
  function RowId(row: Row): string {
    var c := Cell(row, 0);
    if c != "" then Trim(c) else ""
  }

  predicate RowMatches(row: Row, campfireId: string) {
    RowId(row) == campfireId
  }

  /** `value || null` for a cell read as a string. */
  function NullIfEmpty(s: string): (r: Option<string>)
    ensures r.None? <==> s == ""
    ensures r.Some? ==> r.value == s
  {
    if s != "" then Some(s) else None
  }

  /** The decision derived from a matching row: access iff the trimmed column D
      is the sentinel; name (B) and return item (C) untrimmed, `null` if empty. */
  function FoundRow(row: Row): SearchResult {
    var access := if Cell(row, 3) != "" then Trim(Cell(row, 3)) else "";
    Found(access == AccessGranted, UserData(NullIfEmpty(Cell(row, 1)), NullIfEmpty(Cell(row, 2))))
  }

  /** Row `i` is the first data row (the header excluded) that matches. */
  predicate IsFirstMatch(values: Sheet, campfireId: string, i: int) {
    && 1 <= i < |values|
    && RowMatches(values[i], campfireId)
    && forall j :: 1 <= j < i ==> !RowMatches(values[j], campfireId)
  }

  /** The index of the first row at or after `from` that matches. */
  function FirstMatchFrom(values: Sheet, campfireId: string, from: nat): (r: Option<nat>)
    requires from <= |values|
    ensures r.Some? ==> from <= r.value < |values| && RowMatches(values[r.value], campfireId)
    ensures r.Some? ==> forall j :: from <= j < r.value ==> !RowMatches(values[j], campfireId)
    ensures r.None? ==> forall j :: from <= j < |values| ==> !RowMatches(values[j], campfireId)
    decreases |values| - from
  {
    if from == |values| then None
    else if RowMatches(values[from], campfireId) then Some(from)
    else FirstMatchFrom(values, campfireId, from + 1)
  }

  /** What `searchUser` returns for a sheet that exists. A row is found exactly
      when some data row matches: the header row never does, so a sheet of at
      most one row is never a match. Which row decides: FirstMatchWins. */
  function Search(values: Sheet, campfireId: string): (r: SearchResult)
    ensures r.Found? <==> exists i :: 1 <= i < |values| && RowMatches(values[i], campfireId)
  {
    if |values| <= 1 then NotFound
    else match FirstMatchFrom(values, campfireId, 1)
      case None => NotFound
      case Some(i) => FoundRow(values[i])
  }

  /** The scan stops at the first matching data row. */
  lemma FirstMatchIsFound(values: Sheet, campfireId: string, i: int)
    requires IsFirstMatch(values, campfireId, i)
    ensures FirstMatchFrom(values, campfireId, 1) == Some(i)
    ensures Search(values, campfireId) == FoundRow(values[i])
  {
    assert FirstMatchFrom(values, campfireId, 1).Some?;
  }

  /** First match wins: the decision is taken from the first matching data row,
      granting access exactly when its trimmed column D is the sentinel and
      reporting an empty name or return item as `null`. */
  lemma FirstMatchWins(values: Sheet, campfireId: string, i: int)
    requires IsFirstMatch(values, campfireId, i)
    ensures Search(values, campfireId).Found?
    ensures Search(values, campfireId).hasAccess <==> Trim(Cell(values[i], 3)) == AccessGranted
    ensures Search(values, campfireId).data
         == UserData(NullIfEmpty(Cell(values[i], 1)), NullIfEmpty(Cell(values[i], 2)))
  {
    FirstMatchIsFound(values, campfireId, i);
    if Cell(values[i], 3) == "" {
      TrimEmptyIff("");
    }
  }

  /** Two sheets that agree on rows `from..` find the same first match there. */
  lemma {:induction false} FirstMatchAgrees(a: Sheet, b: Sheet, campfireId: string, from: nat)
    requires from <= |a| == |b|
    requires forall j :: from <= j < |a| ==> a[j] == b[j]
    ensures FirstMatchFrom(a, campfireId, from) == FirstMatchFrom(b, campfireId, from)
    decreases |a| - from
  {
    if from < |a| {
      FirstMatchAgrees(a, b, campfireId, from + 1);
    }
  }

  /** The header row is skipped: whatever it holds, the result is the same. */
  lemma HeaderRowIgnored(values: Sheet, header: Row, campfireId: string)
    requires |values| >= 1
    ensures Search(values[0 := header], campfireId) == Search(values, campfireId)
  {
    FirstMatchAgrees(values[0 := header], values, campfireId, 1);
  }

  /** A sheet that extends `a` with any rows after `a`'s first match finds the
      same first match. */
  lemma {:induction false} FirstMatchIgnoresTail(a: Sheet, b: Sheet, campfireId: string, from: nat, i: nat)
    requires from <= i < |a| <= |b|
    requires forall j :: from <= j <= i ==> a[j] == b[j]
    requires RowMatches(a[i], campfireId)
    ensures FirstMatchFrom(a, campfireId, from) == FirstMatchFrom(b, campfireId, from)
    decreases i - from
  {
    if from < i {
      FirstMatchIgnoresTail(a, b, campfireId, from + 1, i);
    }
  }

  /** Rows after the first match are never inspected: replacing them, adding
      to them or dropping them (a later duplicate identifier included) leaves
      the result unchanged. */
  lemma LaterRowsNeverInspected(values: Sheet, campfireId: string, i: nat, rest: Sheet)
    requires IsFirstMatch(values, campfireId, i)
    ensures Search(values[..i + 1] + rest, campfireId) == Search(values, campfireId)
  {
    var cut := values[..i + 1] + rest;
    if |cut| <= |values| {
      FirstMatchIgnoresTail(cut, values, campfireId, 1, i);
    } else {
      FirstMatchIgnoresTail(values, cut, campfireId, 1, i);
    }
  }

  /** Row ids are trimmed before the exact comparison, so a query with
      whitespace at either end never matches: `doPost` trims it first. */
  lemma UntrimmedQueryNeverMatches(values: Sheet, campfireId: string)
    requires !IsTrimmed(campfireId)
    ensures Search(values, campfireId) == NotFound
  {
    forall j | 1 <= j < |values| ensures !RowMatches(values[j], campfireId) {
      var c := Cell(values[j], 0);
      if c == "" {
        assert RowId(values[j]) == "";
      }
    }
  }

  /** Matching is exact: no case folding. */
  lemma NoCaseFolding()
    ensures Search([["CAMPFIRE_ID"], ["ABC123", "Taro", "T-Shirt", "有"]], "abc123") == NotFound
  {
    var row: Row := ["ABC123", "Taro", "T-Shirt", "有"];
    TrimOfTrimmed("ABC123");
    assert RowId(row) == "ABC123";
    assert "ABC123"[0] != "abc123"[0];
  }

  /** `searchUser(campfireId)`: throws when the sheet is missing, otherwise scans
      the data rows in order and returns on the first match. */
  method SearchUser(sheet: Option<Sheet>, campfireId: string) returns (r: Result<SearchResult, LookupError>)
    ensures sheet.None? ==> r == Failure(SheetNotFound)
    ensures sheet.Some? ==> r == Success(Search(sheet.value, campfireId))
  {
    if sheet.None? {
      return Failure(SheetNotFound);
    }
    var values := sheet.value;
    if |values| <= 1 {
      return Success(NotFound);
    }
    var i := 1;
    while i < |values|
      invariant 1 <= i <= |values|
      invariant forall j :: 1 <= j < i ==> !RowMatches(values[j], campfireId)
    {
      var row := values[i];
      var id := RowId(row);
      if id == campfireId {
        var name := Cell(row, 1);
        var returnItem := Cell(row, 2);
        var access := if Cell(row, 3) != "" then Trim(Cell(row, 3)) else "";
        FirstMatchIsFound(values, campfireId, i);
        return Success(Found(access == AccessGranted, UserData(NullIfEmpty(name), NullIfEmpty(returnItem))));
      }
      i := i + 1;
    }
    assert FirstMatchFrom(values, campfireId, 1).None?;
    return Success(NotFound);
  }

  /** `createJsonResponse(success, hasAccess, message, data)`: the three fields
      are copied, and `data` is attached only when one is supplied. */
  method CreateJsonResponse(success: bool, hasAccess: bool, message: string, data: Option<UserData>)
    returns (response: Envelope)
    ensures response.success == success && response.hasAccess == hasAccess
    ensures response.message == message
    ensures response.data.Some? <==> data.Some?
    ensures data.Some? ==> response.data == data
  {
    response := Envelope(success, hasAccess, message, None);
    if data.Some? {
      response := response.(data := data);
    }
  }

  /** `params.campfireId` as read from the parsed body. */
  datatype IdParam = Absent | NotAString | Text(value: string)

  /** The POST body: unparsable (or no `postData`), the JSON `null`, or a
      value whose `campfireId` property is read. */
  datatype Body = Unparsable | NullBody | Parsed(campfireId: IdParam)

  /** The identifier check of `doPost`: present, a string, not blank. */
  predicate IsUsableId(p: IdParam) {
    p.Text? && p.value != "" && Trim(p.value) != ""
  }

  /** `doPost(e)`. A malformed body and an unusable id are rejected before the
      sheet is touched (the result does not depend on `sheet`); a missing sheet
      and a `null` body (whose property read throws) become the generic system
      error; otherwise the lookup of the trimmed id is mapped onto the envelope. */
  method DoPost(body: Body, sheet: Option<Sheet>) returns (r: Envelope)
    ensures r.message in Messages
    ensures r.hasAccess ==> r.success
    ensures r.data.Some? <==> r.success && r.hasAccess
    ensures body.Unparsable? ==> r == Envelope(false, false, MsgMalformedRequest, None)
    ensures body.NullBody? ==> r == Envelope(false, false, MsgSystemError, None)
    ensures body.Parsed? && !IsUsableId(body.campfireId) ==> r == Envelope(false, false, MsgNoId, None)
    ensures body.Parsed? && IsUsableId(body.campfireId) && sheet.None? ==>
              r == Envelope(false, false, MsgSystemError, None)
    ensures body.Parsed? && IsUsableId(body.campfireId) && sheet.Some? ==>
              match Search(sheet.value, Trim(body.campfireId.value))
              case NotFound => r == Envelope(false, false, MsgNotFound, None)
              case Found(true, data) => r == Envelope(true, true, MsgGranted, Some(data))
              case Found(false, _) => r == Envelope(true, false, MsgDenied, None)
  {
    if body.Unparsable? {
      r := CreateJsonResponse(false, false, MsgMalformedRequest, None);
      return;
    }
    if body.NullBody? {
      r := CreateJsonResponse(false, false, MsgSystemError, None);
      return;
    }
    var campfireId := body.campfireId;
    if !campfireId.Text? || campfireId.value == "" || Trim(campfireId.value) == "" {
      r := CreateJsonResponse(false, false, MsgNoId, None);
      return;
    }
    var result := SearchUser(sheet, Trim(campfireId.value));
    if result.Failure? {
      r := CreateJsonResponse(false, false, MsgSystemError, None);
      return;
    }
    match result.value
    case Found(hasAccess, data) =>
      if hasAccess {
        r := CreateJsonResponse(true, true, MsgGranted, Some(data));
      } else {
        r := CreateJsonResponse(true, false, MsgDenied, None);
      }
    case NotFound =>
      r := CreateJsonResponse(false, false, MsgNotFound, None);
  }
}
