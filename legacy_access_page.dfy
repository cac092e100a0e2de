/**
 * The page logic of _script.js, the earlier front end: the same validation
 * and loading handling as script.js, but three outcomes — one success
 * screen, the no-access screen, or a message under the input — and no use of
 * the reply's `pattern`.
 *
 * As in AccessPage, the DOM properties written are the fields of `Page`,
 * `checkAccess` is the parameter `network` and `escapeHtml` is `escape`.
 */
module LegacyAccessPage {
  import opened Wrappers
  import opened JsText
  import opened Client
  import Gas
  import AccessPage

  /** What `handleCheckAccess` shows once the request has settled. */
  datatype Shown = SuccessScreen(data: Option<Gas.UserData>) | NoAccessScreen | ErrorText(message: string)

  /** The three-way dispatch: success with access shows the success screen,
      success without access the no-access screen, and anything else a message
      — the reply's own, or the not-found text when it has none, or the system
      error when the request threw. */
  function Dispatch(outcome: FetchOutcome): (s: Shown)
    ensures s.SuccessScreen? <==> outcome.Replied? && outcome.reply.success && outcome.reply.hasAccess
    ensures s.SuccessScreen? ==> s.data == outcome.reply.data
    ensures s.NoAccessScreen? <==> outcome.Replied? && outcome.reply.success && !outcome.reply.hasAccess
    ensures outcome.Failed? ==> s == ErrorText(MsgSystemError)
    ensures outcome.Replied? && !outcome.reply.success ==>
              s.ErrorText? && s.message != ""
              && (outcome.reply.message != "" ==> s.message == outcome.reply.message)
              && (outcome.reply.message == "" ==> s.message == MsgNotFound)
  {
    match outcome
    case Failed => ErrorText(MsgSystemError)
    case Replied(r) =>
      if r.success && r.hasAccess then SuccessScreen(r.data)
      else if r.success && !r.hasAccess then NoAccessScreen
      else ErrorText(if r.message != "" then r.message else MsgNotFound)
  }

  /** `pattern` is never consulted. */
  lemma PatternNeverConsulted(r: Reply, pattern: string)
    ensures Dispatch(Replied(r.(pattern := pattern))) == Dispatch(Replied(r))
  {
  }

  /** The later script.js splits this page's success screen in two and
      otherwise shows the same outcome for every request result. */
  lemma SameOutcomesAsSplitPage(outcome: FetchOutcome)
    ensures Dispatch(outcome).SuccessScreen? <==>
              AccessPage.Dispatch(outcome).BothScreen? || AccessPage.Dispatch(outcome).EntranceOnlyScreen?
    ensures Dispatch(outcome).SuccessScreen? ==> Dispatch(outcome).data == AccessPage.Dispatch(outcome).data
    ensures Dispatch(outcome).NoAccessScreen? <==> AccessPage.Dispatch(outcome).NoAccessScreen?
    ensures Dispatch(outcome).ErrorText? ==> AccessPage.Dispatch(outcome) == AccessPage.ErrorText(Dispatch(outcome).message)
  {
  }

  /** The DOM state the script writes. */
  datatype View = View(
    inputScreen: bool, successScreen: bool, noAccessScreen: bool,
    loadingOverlay: bool, checkDisabled: bool, inputError: string, inputMarked: bool,
    infoHtml: string, infoShown: bool)

  /** The page after showing `s`: the success screen's info block is filled
      when there is a name or return item, and hidden otherwise. */
  function Present(v: View, s: Shown, escape: string -> string): View {
    match s
    case SuccessScreen(d) =>
      v.(inputScreen := false, successScreen := true,
         infoHtml := if HasInfo(d) then RenderAll(InfoLines(d.value, false), escape) else v.infoHtml,
         infoShown := HasInfo(d) && v.infoShown)
    case NoAccessScreen => v.(inputScreen := false, noAccessScreen := true)
    case ErrorText(m) => v.(inputError := m, inputMarked := true)
  }

  /** Showing an outcome leaves the overlay and the button as they were. */
  lemma PresentKeepsLoading(v: View, s: Shown, escape: string -> string)
    ensures Present(v, s, escape).loadingOverlay == v.loadingOverlay
    ensures Present(v, s, escape).checkDisabled == v.checkDisabled
  {
    match s
    case SuccessScreen(_) =>
    case NoAccessScreen =>
    case ErrorText(_) =>
  }

  class Page {
    var inputScreen: bool
    var successScreen: bool
    var noAccessScreen: bool
    var loadingOverlay: bool
    var checkDisabled: bool
    var inputError: string
    var inputMarked: bool
    var infoHtml: string
    var infoShown: bool

    function Snapshot(): View
      reads this
    {
      View(inputScreen, successScreen, noAccessScreen, loadingOverlay, checkDisabled,
           inputError, inputMarked, infoHtml, infoShown)
    }

    /** `showLoading()`: overlay shown, button disabled. */
    method ShowLoading()
      modifies this
      ensures Snapshot() == old(Snapshot()).(loadingOverlay := true, checkDisabled := true)
    {
      loadingOverlay := true;
      checkDisabled := true;
    }

    /** `hideLoading()`: overlay hidden, button enabled. */
    method HideLoading()
      modifies this
      ensures Snapshot() == old(Snapshot()).(loadingOverlay := false, checkDisabled := false)
    {
      loadingOverlay := false;
      checkDisabled := false;
    }

    /** `showError(message)`: the text under the input, which is marked. */
    method ShowError(message: string)
      modifies this
      ensures Snapshot() == old(Snapshot()).(inputError := message, inputMarked := true)
    {
      inputError := message;
      inputMarked := true;
    }

    /** `clearError()`, run on every keystroke. */
    method ClearError()
      modifies this
      ensures Snapshot() == old(Snapshot()).(inputError := "", inputMarked := false)
    {
      inputError := "";
      inputMarked := false;
    }

    /** `showErrorScreen()`: the no-access screen replaces the input screen. */
    method ShowErrorScreen()
      modifies this
      ensures Snapshot() == old(Snapshot()).(inputScreen := false, noAccessScreen := true)
    {
      inputScreen := false;
      noAccessScreen := true;
    }

    /** `showSuccessScreen(data)`: name and return paragraphs, no rehearsal
        line; the block is hidden when neither field is truthy. */
    method ShowSuccessScreen(data: Option<Gas.UserData>, escape: string -> string)
      modifies this
      ensures Snapshot() == Present(old(Snapshot()), SuccessScreen(data), escape)
    {
      inputScreen := false;
      if HasInfo(data) {
        var html := ComposeInfoHtml(data.value, false, escape);
        infoHtml := html;
      } else {
        infoShown := false;
      }
      successScreen := true;
    }

    /** The steps of `handleCheckAccess()` before the request: the typed
        `input` is trimmed and validated. An invalid id only shows its message
        and no request is made. A valid id is the request, issued with the
        overlay shown and the button disabled. */
    method BeginCheck(input: string) returns (request: Option<string>)
      modifies this
      ensures ValidateInput(Trim(input)).Invalid? ==>
                && request == None
                && Snapshot() == old(Snapshot()).(inputError := ValidateInput(Trim(input)).message, inputMarked := true)
      ensures ValidateInput(Trim(input)).Valid? ==>
                && request == Some(Trim(input))
                && Snapshot() == old(Snapshot()).(loadingOverlay := true, checkDisabled := true)
    {
      var campfireId := Trim(input);
      var validation := ValidateInput(campfireId);
      if validation.Invalid? {
        ShowError(validation.message);
        return None;
      }
      ShowLoading();
      request := Some(campfireId);
    }

    /** `handleCheckAccess()` on the typed `input`: BeginCheck, then, when a
        request was issued, Settle on what it produced. The loading state set
        for the request is cleared before the outcome is shown, on the normal
        and on the exception path. */
    method HandleCheckAccess(input: string, network: string -> FetchOutcome, escape: string -> string)
      returns (request: Option<string>)
      modifies this
      ensures ValidateInput(Trim(input)).Invalid? ==>
                && request == None
                && Snapshot() == old(Snapshot()).(inputError := ValidateInput(Trim(input)).message, inputMarked := true)
      ensures ValidateInput(Trim(input)).Valid? ==>
                && request == Some(Trim(input))
                && Snapshot() == Present(old(Snapshot()).(loadingOverlay := false, checkDisabled := false),
                                         Dispatch(network(Trim(input))), escape)
      ensures request.Some? ==> !loadingOverlay && !checkDisabled
    {
      request := BeginCheck(input);
      if request.Some? {
        Settle(network(request.value), escape);
      }
    }

    /** The `try`/`catch` of `handleCheckAccess` once the awaited request has
        settled. */
    method Settle(outcome: FetchOutcome, escape: string -> string)
      modifies this
      ensures Snapshot() == Present(old(Snapshot()).(loadingOverlay := false, checkDisabled := false),
                                    Dispatch(outcome), escape)
      ensures !loadingOverlay && !checkDisabled
    {
      match outcome
      case Failed =>
        HideLoading();
        ShowError(MsgSystemError);
      case Replied(result) =>
        HideLoading();
        ghost var settled := Snapshot();
        if result.success && result.hasAccess {
          ShowSuccessScreen(result.data, escape);
        } else if result.success && !result.hasAccess {
          ShowErrorScreen();
        } else {
          ShowError(if result.message != "" then result.message else MsgNotFound);
        }
        PresentKeepsLoading(settled, Dispatch(outcome), escape);
    }
  }
}
