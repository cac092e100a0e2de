/**
 * What the two front-end scripts (script.js and its earlier version
 * _script.js) have in common: the identifier check run before any request,
 * the reply as the page reads it, and the paragraphs of the user-info block.
 */
module Client {
  import opened Wrappers
  import Gas

  const MinIdLength: nat := 3
  const MaxIdLength: nat := 50

  const MsgEmpty: string := "IDを入力してください"
  const MsgTooShort: string := "IDは3文字以上で入力してください"
  const MsgTooLong: string := "IDは50文字以内で入力してください"
  /** Shown when a failed reply carries no message. */
  const MsgNotFound: string := "該当するIDが見つかりません"
  /** Shown when the request itself fails. */
  const MsgSystemError: string := "システムエラーが発生しました。しばらくしてから再度お試しください。"

  datatype Validation = Valid | Invalid(message: string)

  /** `validateInput(campfireId)`, the same in both scripts: valid exactly when
      the id is non-empty and 3 to 50 characters long; the empty-id message
      takes precedence over the two length messages. */
  function ValidateInput(campfireId: string): (v: Validation)
    ensures v.Valid? <==> campfireId != "" && MinIdLength <= |campfireId| <= MaxIdLength
    ensures v == Invalid(MsgEmpty) <==> campfireId == ""
    ensures v == Invalid(MsgTooShort) <==> 0 < |campfireId| < MinIdLength
    ensures v == Invalid(MsgTooLong) <==> |campfireId| > MaxIdLength
    ensures v.Invalid? ==> v.message in {MsgEmpty, MsgTooShort, MsgTooLong}
  {
    if campfireId == "" then Invalid(MsgEmpty)
    else if |campfireId| < MinIdLength then Invalid(MsgTooShort)
    else if |campfireId| > MaxIdLength then Invalid(MsgTooLong)
    else Valid
  }

  /** The parsed JSON reply as the page reads it; `message` and `pattern` are
      `""` when absent. */
  datatype Reply = Reply(success: bool, hasAccess: bool, message: string, pattern: string,
                         data: Option<Gas.UserData>)

  /** What `await checkAccess(id)` gives: a reply, or a thrown error (a
      rejected fetch, a non-OK status, an unparsable body, or a `null` body
      whose first property read throws). */
  datatype FetchOutcome = Replied(reply: Reply) | Failed

  /** JavaScript truthiness of an optional string field. */
  predicate IsTruthy(field: Option<string>) {
    field.Some? && field.value != ""
  }

  /** `data && (data.name || data.returnItem)`: the info block is filled. */
  predicate HasInfo(data: Option<Gas.UserData>) {
    data.Some? && (IsTruthy(data.value.name) || IsTruthy(data.value.returnItem))
  }

  /** One paragraph of the user-info block. */
  datatype InfoLine = NameLine(name: string) | ReturnLine(returnItem: string) | RehearsalLine

  /** The paragraphs appended to `infoHTML`, in order: the name if truthy, the
      return item if truthy, then (on the both-access screen) the rehearsal line. */
  function InfoLines(data: Gas.UserData, rehearsal: bool): seq<InfoLine> {
    (if IsTruthy(data.name) then [NameLine(data.name.value)] else [])
    + (if IsTruthy(data.returnItem) then [ReturnLine(data.returnItem.value)] else [])
    + (if rehearsal then [RehearsalLine] else [])
  }

  /** The info block has a name paragraph exactly when the name is truthy (and
      then first), a return paragraph exactly when the return item is truthy,
      and on the both-access screen ends with the rehearsal paragraph; there
      are no other paragraphs. */
  lemma InfoLinesShape(data: Gas.UserData, rehearsal: bool)
    ensures var lines := InfoLines(data, rehearsal);
      && |lines| == (if IsTruthy(data.name) then 1 else 0) + (if IsTruthy(data.returnItem) then 1 else 0)
                    + (if rehearsal then 1 else 0)
      && ((exists k :: 0 <= k < |lines| && lines[k].NameLine?) <==> IsTruthy(data.name))
      && ((exists k :: 0 <= k < |lines| && lines[k].ReturnLine?) <==> IsTruthy(data.returnItem))
      && ((exists k :: 0 <= k < |lines| && lines[k].RehearsalLine?) <==> rehearsal)
      && (forall k :: 0 <= k < |lines| && lines[k].NameLine? ==> k == 0 && lines[k].name == data.name.value)
      && (forall k :: 0 <= k < |lines| && lines[k].ReturnLine? ==> lines[k].returnItem == data.returnItem.value)
      && (rehearsal ==> lines[|lines| - 1] == RehearsalLine)
  {
    var name := if IsTruthy(data.name) then [NameLine(data.name.value)] else [];
    var item := if IsTruthy(data.returnItem) then [ReturnLine(data.returnItem.value)] else [];
    var lines := InfoLines(data, rehearsal);
    assert IsTruthy(data.name) ==> lines[0].NameLine?;
    assert IsTruthy(data.returnItem) ==> lines[|name|].ReturnLine?;
    assert rehearsal ==> lines[|lines| - 1].RehearsalLine?;
  }

  /** The HTML of one paragraph; `escape` is `escapeHtml`, which relies on the
      browser and is left uninterpreted. */
  function Render(line: InfoLine, escape: string -> string): string {
    match line
    case NameLine(name) => "<p><strong>お名前:</strong> " + escape(name) + "</p>"
    case ReturnLine(item) => "<p><strong>リターン:</strong> " + escape(item) + "</p>"
    case RehearsalLine => "<p><strong>リハ見学:</strong> 可能</p>"
  }

  /** The concatenated HTML of a list of paragraphs. */
  function RenderAll(lines: seq<InfoLine>, escape: string -> string): string {
    if lines == [] then "" else Render(lines[0], escape) + RenderAll(lines[1..], escape)
  }

  /** Rendering distributes over concatenation. */
  lemma {:induction false} RenderAllAppend(a: seq<InfoLine>, b: seq<InfoLine>, escape: string -> string)
    ensures RenderAll(a + b, escape) == RenderAll(a, escape) + RenderAll(b, escape)
    decreases |a|
  {
    if a == [] {
      assert a + b == b;
    } else {
      assert (a + b)[1..] == a[1..] + b;
      RenderAllAppend(a[1..], b, escape);
    }
  }

  /** One `infoHTML +=` step appends one rendered paragraph. */
  lemma AppendLine(lines: seq<InfoLine>, line: InfoLine, escape: string -> string)
    ensures RenderAll(lines + [line], escape) == RenderAll(lines, escape) + Render(line, escape)
  {
    RenderAllAppend(lines, [line], escape);
    assert RenderAll([line], escape) == Render(line, escape) + RenderAll([], escape);
  }

  /** The `infoHTML +=` steps shared by the success screens: the name
      paragraph if the name is truthy, the return paragraph if the return item
      is truthy, and the rehearsal paragraph when asked for. */
  method ComposeInfoHtml(d: Gas.UserData, rehearsal: bool, escape: string -> string) returns (infoHtml: string)
    ensures infoHtml == RenderAll(InfoLines(d, rehearsal), escape)
  {
    infoHtml := "";
    ghost var lines: seq<InfoLine> := [];
    if IsTruthy(d.name) {
      AppendLine(lines, NameLine(d.name.value), escape);
      infoHtml := infoHtml + Render(NameLine(d.name.value), escape);
      lines := lines + [NameLine(d.name.value)];
    }
    if IsTruthy(d.returnItem) {
      AppendLine(lines, ReturnLine(d.returnItem.value), escape);
      infoHtml := infoHtml + Render(ReturnLine(d.returnItem.value), escape);
      lines := lines + [ReturnLine(d.returnItem.value)];
    }
    if rehearsal {
      AppendLine(lines, RehearsalLine, escape);
      infoHtml := infoHtml + Render(RehearsalLine, escape);
      lines := lines + [RehearsalLine];
    }
    assert lines == InfoLines(d, rehearsal);
  }
}
