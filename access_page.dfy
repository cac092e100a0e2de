/**
 * The page logic of script.js: `handleCheckAccess` trims and validates the
 * typed id, shows the loading overlay while the request is in flight, and
 * then shows one of four outcomes — the both-access screen, the
 * entrance-only screen, the no-access screen, or a message under the input.
 *
 * The DOM properties the script writes are the fields of `Page`. The request
 * `checkAccess(id)` is the parameter `network`, a function from the id sent
 * to what the `await` produced; `escapeHtml` is the parameter `escape`.
 */
module AccessPage {
  import opened Wrappers
  import opened JsText
  import opened Client
  import Gas

  /** What `handleCheckAccess` shows once the request has settled. */
  datatype Shown =
    | BothScreen(data: Option<Gas.UserData>)
    | EntranceOnlyScreen(data: Option<Gas.UserData>)
    | NoAccessScreen
    | ErrorText(message: string)

  /** The result-to-screen dispatch. With access, `pattern == 'both'` selects
      the both-access screen and any other pattern (a missing one included) the
      entrance-only screen; without access the no-access screen is shown
      whatever the pattern and data; a failed reply shows its message, or the
      not-found text when it has none; a thrown error shows the system error. */
  function Dispatch(outcome: FetchOutcome): (s: Shown)
    ensures s.BothScreen? <==>
              outcome.Replied? && outcome.reply.success && outcome.reply.hasAccess && outcome.reply.pattern == "both"
    ensures s.EntranceOnlyScreen? <==>
              outcome.Replied? && outcome.reply.success && outcome.reply.hasAccess && outcome.reply.pattern != "both"
    ensures s.NoAccessScreen? <==> outcome.Replied? && outcome.reply.success && !outcome.reply.hasAccess
    ensures s.BothScreen? || s.EntranceOnlyScreen? ==> s.data == outcome.reply.data
    ensures outcome.Failed? ==> s == ErrorText(MsgSystemError)
    ensures outcome.Replied? && !outcome.reply.success ==>
              s.ErrorText? && s.message != ""
              && (outcome.reply.message != "" ==> s.message == outcome.reply.message)
              && (outcome.reply.message == "" ==> s.message == MsgNotFound)
  {
    match outcome
    case Failed => ErrorText(MsgSystemError)
    case Replied(r) =>
      if r.success && r.hasAccess then
        if r.pattern == "both" then BothScreen(r.data) else EntranceOnlyScreen(r.data)
      else if r.success then NoAccessScreen
      else ErrorText(if r.message != "" then r.message else MsgNotFound)
  }

  /** A reply without a `pattern` never selects the both-access screen:
      granted access falls to the default branch, the entrance-only screen. */
  lemma NoPatternNeverShowsBothScreen(r: Reply)
    ensures !Dispatch(Replied(r.(pattern := ""))).BothScreen?
    ensures r.success && r.hasAccess ==> Dispatch(Replied(r.(pattern := ""))) == EntranceOnlyScreen(r.data)
  {
  }

  /** The DOM state the script writes. */
  datatype View = View(
    inputScreen: bool, successBothScreen: bool, entranceOnlyScreen: bool, noAccessScreen: bool,
    loadingOverlay: bool, checkDisabled: bool, inputError: string, inputMarked: bool,
    infoBothHtml: string, infoBothShown: bool, infoEntranceHtml: string, infoEntranceShown: bool)

  /** The page after showing `s`: the info block of a success screen is filled
      with the rendered paragraphs when there is a name or return item, and
      hidden (its HTML left as it was) otherwise. */
  function Present(v: View, s: Shown, escape: string -> string): View {
    match s
    case BothScreen(d) =>
      v.(inputScreen := false, successBothScreen := true,
         infoBothHtml := if HasInfo(d) then RenderAll(InfoLines(d.value, true), escape) else v.infoBothHtml,
         infoBothShown := HasInfo(d) && v.infoBothShown)
    case EntranceOnlyScreen(d) =>
      v.(inputScreen := false, entranceOnlyScreen := true,
         infoEntranceHtml := if HasInfo(d) then RenderAll(InfoLines(d.value, false), escape) else v.infoEntranceHtml,
         infoEntranceShown := HasInfo(d) && v.infoEntranceShown)
    case NoAccessScreen => v.(inputScreen := false, noAccessScreen := true)
    case ErrorText(m) => v.(inputError := m, inputMarked := true)
  }

  class Page {
    var inputScreen: bool
    var successBothScreen: bool
    var entranceOnlyScreen: bool
    var noAccessScreen: bool
    var loadingOverlay: bool
    var checkDisabled: bool
    var inputError: string
    var inputMarked: bool
    var infoBothHtml: string
    var infoBothShown: bool
    var infoEntranceHtml: string
    var infoEntranceShown: bool

    function Snapshot(): View
      reads this
    {
      View(inputScreen, successBothScreen, entranceOnlyScreen, noAccessScreen,
           loadingOverlay, checkDisabled, inputError, inputMarked,
           infoBothHtml, infoBothShown, infoEntranceHtml, infoEntranceShown)
    }

    /** `showLoading()`: overlay shown, button disabled. */
    method ShowLoading()
      modifies this
      ensures Snapshot() == old(Snapshot()).(loadingOverlay := true, checkDisabled := true)
    {
      loadingOverlay := true;
      checkDisabled := true;
    }

    /** `hideLoading()`: overlay hidden, button enabled. */
    method HideLoading()
      modifies this
      ensures Snapshot() == old(Snapshot()).(loadingOverlay := false, checkDisabled := false)
    {
      loadingOverlay := false;
      checkDisabled := false;
    }

    /** `showError(message)`: the text under the input, which is marked. */
    method ShowError(message: string)
      modifies this
      ensures Snapshot() == old(Snapshot()).(inputError := message, inputMarked := true)
    {
      inputError := message;
      inputMarked := true;
    }

    /** `clearError()`, run on every keystroke. */
    method ClearError()
      modifies this
      ensures Snapshot() == old(Snapshot()).(inputError := "", inputMarked := false)
    {
      inputError := "";
      inputMarked := false;
    }

    /** `showErrorScreen()`: the no-access screen replaces the input screen. */
    method ShowErrorScreen()
      modifies this
      ensures Snapshot() == old(Snapshot()).(inputScreen := false, noAccessScreen := true)
    {
      inputScreen := false;
      noAccessScreen := true;
    }

    /** `showSuccessBothScreen(data)`: builds `infoHTML` paragraph by paragraph,
        ending with the rehearsal line. */
    method ShowSuccessBothScreen(data: Option<Gas.UserData>, escape: string -> string)
      modifies this
      ensures Snapshot() == Present(old(Snapshot()), BothScreen(data), escape)
    {
      inputScreen := false;
      if HasInfo(data) {
        var infoHtml := ComposeInfoHtml(data.value, true, escape);
        infoBothHtml := infoHtml;
      } else {
        infoBothShown := false;
      }
      successBothScreen := true;
    }

    /** `showSuccessEntranceOnlyScreen(data)`: the same block without the
        rehearsal line. */
    method ShowSuccessEntranceOnlyScreen(data: Option<Gas.UserData>, escape: string -> string)
      modifies this
      ensures Snapshot() == Present(old(Snapshot()), EntranceOnlyScreen(data), escape)
    {
      inputScreen := false;
      if HasInfo(data) {
        var infoHtml := ComposeInfoHtml(data.value, false, escape);
        infoEntranceHtml := infoHtml;
      } else {
        infoEntranceShown := false;
      }
      entranceOnlyScreen := true;
    }

    /** The steps of `handleCheckAccess()` before the request: the typed
        `input` is trimmed and validated. An invalid id only shows its message
        and no request is made. A valid id is the request, issued with the
        overlay shown and the button disabled. */
    method BeginCheck(input: string) returns (request: Option<string>)
      modifies this
      ensures ValidateInput(Trim(input)).Invalid? ==>
                && request == None
                && Snapshot() == old(Snapshot()).(inputError := ValidateInput(Trim(input)).message, inputMarked := true)
      ensures ValidateInput(Trim(input)).Valid? ==>
                && request == Some(Trim(input))
                && Snapshot() == old(Snapshot()).(loadingOverlay := true, checkDisabled := true)
    {
      var campfireId := Trim(input);
      var validation := ValidateInput(campfireId);
      if validation.Invalid? {
        ShowError(validation.message);
        return None;
      }
      ShowLoading();
      request := Some(campfireId);
    }

    /** `handleCheckAccess()` on the typed `input`: BeginCheck, then, when a
        request was issued, Settle on what it produced. The loading state set
        for the request is cleared before the outcome is shown, on the normal
        and on the exception path. */
    method HandleCheckAccess(input: string, network: string -> FetchOutcome, escape: string -> string)
      returns (request: Option<string>)
      modifies this
      ensures ValidateInput(Trim(input)).Invalid? ==>
                && request == None
                && Snapshot() == old(Snapshot()).(inputError := ValidateInput(Trim(input)).message, inputMarked := true)
      ensures ValidateInput(Trim(input)).Valid? ==>
                && request == Some(Trim(input))
                && Snapshot() == Present(old(Snapshot()).(loadingOverlay := false, checkDisabled := false),
                                         Dispatch(network(Trim(input))), escape)
      ensures request.Some? ==> !loadingOverlay && !checkDisabled
    {
      request := BeginCheck(input);
      if request.Some? {
        Settle(network(request.value), escape);
      }
    }

    /** The `try`/`catch` of `handleCheckAccess` once the awaited request has
        settled: the loading state is cleared on both paths, then the outcome
        is shown. */
    method Settle(outcome: FetchOutcome, escape: string -> string)
      modifies this
      ensures Snapshot() == Present(old(Snapshot()).(loadingOverlay := false, checkDisabled := false),
                                    Dispatch(outcome), escape)
      ensures !loadingOverlay && !checkDisabled
    {
      match outcome
      case Failed =>
        HideLoading();
        ShowError(MsgSystemError);
      case Replied(result) =>
        HideLoading();
        ghost var settled := Snapshot();
        ShowResult(result, escape);
        PresentKeepsLoading(settled, Dispatch(outcome), escape);
    }

    /** The `if` chain of `handleCheckAccess` on a reply that arrived. */
    method ShowResult(result: Reply, escape: string -> string)
      modifies this
      ensures Snapshot() == Present(old(Snapshot()), Dispatch(Replied(result)), escape)
    {
      if result.success && result.hasAccess {
        if result.pattern == "both" {
          ShowSuccessBothScreen(result.data, escape);
        } else if result.pattern == "entrance_only" {
          ShowSuccessEntranceOnlyScreen(result.data, escape);
        } else {
          ShowSuccessEntranceOnlyScreen(result.data, escape);
        }
      } else if result.success && !result.hasAccess {
        ShowErrorScreen();
      } else {
        ShowError(if result.message != "" then result.message else MsgNotFound);
      }
    }
  }

  /** Showing an outcome leaves the overlay and the button as they were. */
  lemma PresentKeepsLoading(v: View, s: Shown, escape: string -> string)
    ensures Present(v, s, escape).loadingOverlay == v.loadingOverlay
    ensures Present(v, s, escape).checkDisabled == v.checkDisabled
  {
    match s
    case BothScreen(_) =>
    case EntranceOnlyScreen(_) =>
    case NoAccessScreen =>
    case ErrorText(_) =>
  }
}
