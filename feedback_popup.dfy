/**
 * The floating feedback dialog (components/feedback-popup.tsx): its form
 * state, the open/close handlers, and the submit handler that validates the
 * form, collects the page and the stored user and company ids, and hands the
 * feedback to `sendFeedback`.
 */
module FeedbackPopup {
  import opened Wrappers
  import opened Text
  import opened Web
  import opened SendFeedback

  const RequiredMissing := "Por favor, preencha todos os campos obrigatórios."
  const SubmitFailed := "Erro ao enviar feedback. Tente novamente."

  /** The options the type selector offers. */
  const FeedbackTypes := ["Sugestão", "Problema / Bug", "Dúvida", "Outro"]

  /** The form may be sent: a type is chosen and the message is not blank. */
  predicate Fillable(feedbackType: string, message: string) {
    feedbackType != "" && Trim(message) != ""
  }

  /**
   * `JSON.parse(stored).id || ""` inside a `try` whose failure keeps "": a
   * missing or empty entry, text that `parse` rejects, a value without an
   * `id` member (`null` included, whose `.id` throws) and a falsy `id` all
   * give "".
   */
  function StoredId(stored: Option<string>, parse: string -> Option<Json>): (id: Json)
    ensures Truthy(id) <==>
      && stored.Some? && stored.value != ""
      && parse(stored.value).Some?
      && Member(parse(stored.value).value, "id").Some?
      && Truthy(Member(parse(stored.value).value, "id").value)
    ensures Truthy(id) ==> Member(parse(stored.value).value, "id") == Some(id)
    ensures !Truthy(id) ==> id == JString("")
  {
    if stored.None? || stored.value == "" then JString("")
    else
      match parse(stored.value)
      case None => JString("")
      case Some(v) =>
        match Member(v, "id")
        case Some(x) => if Truthy(x) then x else JString("")
        case None => JString("")
  }

  /** The argument of `sendFeedback`: message and e-mail trimmed, with the page path and the two ids. */
  function FeedbackOf(feedbackType: string, message: string, email: string, page: string, userId: Json, companyId: Json): FeedbackData {
    FeedbackData(feedbackType, Trim(message), Some(Trim(email)), page, Some(userId), Some(companyId))
  }

  /** The feedback a fillable form hands to `sendFeedback`, with the ids read from the stored "user" and "company". */
  function Submission(
    feedbackType: string, message: string, email: string, page: string,
    storage: map<string, string>, parse: string -> Option<Json>): FeedbackData
  {
    FeedbackOf(feedbackType, message, email, page,
      StoredId(Item(storage, "user"), parse), StoredId(Item(storage, "company"), parse))
  }

  /**
   * A form that may be sent yields a message that is not blank and has no
   * white space left at either end.
   */
  lemma SentMessageIsTrimmed(feedbackType: string, message: string)
    requires Fillable(feedbackType, message)
    ensures var m := Trim(message);
      m != "" && Trim(m) == m && !IsWhiteSpace(m[0]) && !IsWhiteSpace(m[|m| - 1])
  {
    TrimIdempotent(message);
  }

  /** The e-mail is replaced by "Não informado" when it is blank (or is that very text once trimmed). */
  lemma BlankEmailFallsBack(email: string)
    ensures OrElse(Some(Trim(email)), NoEmail) == NoEmail <==> AllWhiteSpace(email) || Trim(email) == NoEmail
    ensures !AllWhiteSpace(email) ==> OrElse(Some(Trim(email)), NoEmail) == Trim(email)
  {
    TrimEmptyIffBlank(email);
  }

  /** A stored user whose `id` is 0 counts as no user: the e-mail says "Não autenticado". */
  lemma FalsyIdIsUnauthenticated(stored: string, parse: string -> Option<Json>)
    requires stored != "" && parse(stored) == Some(JObject([("id", JNumber(0))]))
    ensures StoredId(Some(stored), parse) == JString("")
    ensures JsonOrElse(Some(StoredId(Some(stored), parse)), JString(NoUser)) == JString(NoUser)
  {
  }

  class Popup {
    var isOpen: bool
    var isLoading: bool
    var error: string
    var feedbackType: string
    var message: string
    var email: string
    const window: Browser

    constructor (window: Browser)
      ensures this.window == window
      ensures !isOpen && !isLoading && error == "" && feedbackType == "" && message == "" && email == ""
    {
      this.window := window;
      isOpen := false;
      isLoading := false;
      error := "";
      feedbackType := "";
      message := "";
      email := "";
    }

    /** `resetForm`: type, message, e-mail and error back to empty. */
    method ResetForm()
      modifies this
      ensures feedbackType == "" && message == "" && email == "" && error == ""
      ensures isOpen == old(isOpen) && isLoading == old(isLoading)
    {
      feedbackType := "";
      message := "";
      email := "";
      error := "";
    }

    /** The floating button: open the dialog, keeping whatever the form held. */
    method Open()
      modifies this
      ensures isOpen
      ensures isLoading == old(isLoading) && error == old(error) && feedbackType == old(feedbackType)
        && message == old(message) && email == old(email)
    {
      isOpen := true;
    }

    /** The Cancelar button: `setIsOpen(false)` alone, so the form keeps its contents. */
    method Cancel()
      modifies this
      ensures !isOpen
      ensures isLoading == old(isLoading) && error == old(error) && feedbackType == old(feedbackType)
        && message == old(message) && email == old(email)
    {
      isOpen := false;
    }

    /** The dialog's `onOpenChange`: closing it (escape, overlay, close icon) also resets the form. */
    method OnOpenChange(open: bool)
      modifies this
      ensures isOpen == open && isLoading == old(isLoading)
      ensures !open ==> feedbackType == "" && message == "" && email == "" && error == ""
      ensures open ==>
        feedbackType == old(feedbackType) && message == old(message) && email == old(email) && error == old(error)
    {
      isOpen := open;
      if !open {
        ResetForm();
      }
    }

    method SetType(t: string)
      modifies this
      ensures feedbackType == t
      ensures isOpen == old(isOpen) && isLoading == old(isLoading) && error == old(error)
        && message == old(message) && email == old(email)
    {
      feedbackType := t;
    }

    method SetMessage(m: string)
      modifies this
      ensures message == m
      ensures isOpen == old(isOpen) && isLoading == old(isLoading) && error == old(error)
        && feedbackType == old(feedbackType) && email == old(email)
    {
      message := m;
    }

    method SetEmail(e: string)
      modifies this
      ensures email == e
      ensures isOpen == old(isOpen) && isLoading == old(isLoading) && error == old(error)
        && feedbackType == old(feedbackType) && message == old(message)
    {
      email := e;
    }

    /**
     * `handleSubmit`. `config` is the EmailJS configuration, `pathname` is
     * `window.location.pathname`, `parse` is `JSON.parse` (None where it
     * throws) and `reply` is the outcome of the POST to EmailJS. A form
     * without a type or with a blank message is refused before anything is
     * sent; otherwise success closes the dialog and empties the form, and
     * any failure keeps the form and shows one fixed message.
     */
    method HandleSubmit(config: Config, pathname: string, parse: string -> Option<Json>, reply: Fetched<()>)
      modifies this, window
      ensures window.storage == old(window.storage) && window.history == old(window.history)
      ensures !Fillable(old(feedbackType), old(message)) ==>
        && error == RequiredMissing && window.requests == old(window.requests)
        && isOpen == old(isOpen) && isLoading == old(isLoading)
        && feedbackType == old(feedbackType) && message == old(message) && email == old(email)
      ensures Fillable(old(feedbackType), old(message)) ==>
        var o := Send(config, Submission(old(feedbackType), old(message), old(email), pathname, old(window.storage), parse), reply);
        && !isLoading
        && window.requests == old(window.requests) + (if o.sent.Some? then [o.sent.value] else [])
        && (o.result.success ==> !isOpen && feedbackType == "" && message == "" && email == "" && error == "")
        && (!o.result.success ==>
              isOpen == old(isOpen) && feedbackType == old(feedbackType) && message == old(message)
              && email == old(email) && error == SubmitFailed)
    {
      error := "";
      if !Fillable(feedbackType, message) {
        error := RequiredMissing;
        return;
      }
      Submit(config, pathname, parse, reply);
    }

    /** The part of `handleSubmit` after validation: collect the feedback, send it, and show the outcome. */
    method Submit(config: Config, pathname: string, parse: string -> Option<Json>, reply: Fetched<()>)
      modifies this, window
      ensures window.storage == old(window.storage) && window.history == old(window.history)
      ensures
        var o := Send(config, Submission(old(feedbackType), old(message), old(email), pathname, old(window.storage), parse), reply);
        && !isLoading
        && window.requests == old(window.requests) + (if o.sent.Some? then [o.sent.value] else [])
        && (o.result.success ==> !isOpen && feedbackType == "" && message == "" && email == "" && error == "")
        && (!o.result.success ==>
              isOpen == old(isOpen) && feedbackType == old(feedbackType) && message == old(message)
              && email == old(email) && error == SubmitFailed)
    {
      isLoading := true;
      var d := Submission(feedbackType, message, email, pathname, window.storage, parse);
      Delivered(Send(config, d, reply));
    }

    /** What `handleSubmit` does once `sendFeedback` has given `o`. */
    method Delivered(o: Outcome)
      modifies this, window
      ensures window.storage == old(window.storage) && window.history == old(window.history)
      ensures window.requests == old(window.requests) + (if o.sent.Some? then [o.sent.value] else [])
      ensures !isLoading
      ensures o.result.success ==> !isOpen && feedbackType == "" && message == "" && email == "" && error == ""
      ensures !o.result.success ==>
        isOpen == old(isOpen) && feedbackType == old(feedbackType) && message == old(message)
        && email == old(email) && error == SubmitFailed
    {
      if o.sent.Some? {
        window.Send(o.sent.value);
      }
      if o.result.success {
        isOpen := false;
        ResetForm();
      } else {
        error := SubmitFailed;
      }
      isLoading := false;
    }
  }
}
