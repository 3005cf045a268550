/**
 * `sendFeedback` (app/actions/send-feedback.ts): checks the EmailJS
 * configuration, builds the e-mail request with its fallback texts, and maps
 * the response to a result.
 */
module SendFeedback {
  import opened Wrappers
  import opened Web

  /** The three `NEXT_PUBLIC_EMAILJS_*` settings; None is an unset variable. */
  datatype Config = Config(serviceId: Option<string>, templateId: Option<string>, apiKey: Option<string>)

  /** A setting is usable when it is set and not empty. */
  predicate IsSet(v: Option<string>) {
    v.Some? && v.value != ""
  }

  predicate Complete(c: Config) {
    IsSet(c.serviceId) && IsSet(c.templateId) && IsSet(c.apiKey)
  }

  /**
   * What the caller passes: the feedback type and message, the optional
   * e-mail, the page, and the ids read from storage. The ids are JSON values,
   * because the caller takes whatever `id` the stored object has.
   */
  datatype FeedbackData = FeedbackData(
    feedbackType: string, message: string, email: Option<string>, page: string,
    userId: Option<Json>, companyId: Option<Json>)

  /** `{ success, error? }`. */
  datatype SendResult = SendResult(success: bool, error: Option<string>)

  /** The result, with the request sent if one was. */
  datatype Outcome = Outcome(sent: Option<Request>, result: SendResult)

  const EmailJsUrl := "https://api.emailjs.com/api/v1.0/email/send"
  const ConfigMissing := "EmailJS configuration missing"
  const SendFailed := "Failed to send feedback"
  const SendThrew := "Erro ao enviar feedback"
  const NoEmail := "Não informado"
  const NoUser := "Não autenticado"
  const NoCompany := "Não disponível"

  /** `v || fallback` on a value that may be missing: a missing or falsy value gives `fallback`. */
  function JsonOrElse(v: Option<Json>, fallback: Json): (r: Json)
    ensures v.Some? && Truthy(v.value) ==> r == v.value
    ensures !(v.Some? && Truthy(v.value)) ==> r == fallback
  {
    if v.Some? && Truthy(v.value) then v.value else fallback
  }

  /** `template_params`: type, message and page as given, the others with their fallback texts. */
  function TemplateParams(d: FeedbackData): Json {
    JObject([
      ("type", JString(d.feedbackType)),
      ("message", JString(d.message)),
      ("email", JString(OrElse(d.email, NoEmail))),
      ("page", JString(d.page)),
      ("userId", JsonOrElse(d.userId, JString(NoUser))),
      ("companyId", JsonOrElse(d.companyId, JString(NoCompany)))])
  }

  /** The JSON body posted to EmailJS. */
  function Payload(c: Config, d: FeedbackData): Json
    requires Complete(c)
  {
    JObject([
      ("service_id", JString(c.serviceId.value)),
      ("template_id", JString(c.templateId.value)),
      ("user_id", JString(c.apiKey.value)),
      ("template_params", TemplateParams(d))])
  }

  /** `sendFeedback(data)`, with `reply` the outcome of the POST to EmailJS. */
  function Send(c: Config, d: FeedbackData, reply: Fetched<()>): (o: Outcome)
    ensures !Complete(c) ==> o.sent == None && o.result == SendResult(false, Some(ConfigMissing))
    ensures Complete(c) ==> o.sent == Some(Request(POST, External(EmailJsUrl), None, Some(Payload(c, d))))
    ensures o.result.success <==> Complete(c) && reply.IsOk()
    ensures o.result.success <==> o.result.error == None
    ensures Complete(c) && reply.Rejected? ==> o.result.error == Some(SendThrew)
    ensures Complete(c) && reply.Responded? && !reply.IsOk() ==> o.result.error == Some(SendFailed)
  {
    if !Complete(c) then Outcome(None, SendResult(false, Some(ConfigMissing)))
    else
      var request := Request(POST, External(EmailJsUrl), None, Some(Payload(c, d)));
      match reply
      case Rejected(_) => Outcome(Some(request), SendResult(false, Some(SendThrew)))
      case Responded(_, _) =>
        if reply.IsOk() then Outcome(Some(request), SendResult(true, None))
        else Outcome(Some(request), SendResult(false, Some(SendFailed)))
  }

  /** The body names the configured service, template and key, and carries the template parameters. */
  lemma PayloadFields(c: Config, d: FeedbackData)
    requires Complete(c)
    ensures Member(Payload(c, d), "service_id") == Some(JString(c.serviceId.value))
    ensures Member(Payload(c, d), "template_id") == Some(JString(c.templateId.value))
    ensures Member(Payload(c, d), "user_id") == Some(JString(c.apiKey.value))
    ensures Member(Payload(c, d), "template_params") == Some(TemplateParams(d))
  {
    var ms := Payload(c, d).members;
    assert forall a, b :: 0 <= a < b < |ms| ==> ms[a].0 != ms[b].0;
    LookupDistinct(ms, 0);
    LookupDistinct(ms, 1);
    LookupDistinct(ms, 2);
    LookupDistinct(ms, 3);
  }

  /**
   * Type, message and page reach the template unchanged; an e-mail, user id
   * or company id that is missing or falsy is replaced by its fallback text,
   * and one that is present is kept.
   */
  lemma TemplateParamsFields(d: FeedbackData)
    ensures Member(TemplateParams(d), "type") == Some(JString(d.feedbackType))
    ensures Member(TemplateParams(d), "message") == Some(JString(d.message))
    ensures Member(TemplateParams(d), "page") == Some(JString(d.page))
    ensures Member(TemplateParams(d), "email") ==
      Some(JString(if d.email.Some? && d.email.value != "" then d.email.value else NoEmail))
    ensures Member(TemplateParams(d), "userId") ==
      Some(if d.userId.Some? && Truthy(d.userId.value) then d.userId.value else JString(NoUser))
    ensures Member(TemplateParams(d), "companyId") ==
      Some(if d.companyId.Some? && Truthy(d.companyId.value) then d.companyId.value else JString(NoCompany))
  {
    var ms := TemplateParams(d).members;
    assert forall a, b :: 0 <= a < b < |ms| ==> ms[a].0 != ms[b].0;
    LookupDistinct(ms, 0);
    LookupDistinct(ms, 1);
    LookupDistinct(ms, 2);
    LookupDistinct(ms, 3);
    LookupDistinct(ms, 4);
    LookupDistinct(ms, 5);
  }

  /** Without a complete configuration nothing is sent, whatever the reply would have been. */
  lemma NoConfigNoRequest(c: Config, d: FeedbackData, reply: Fetched<()>)
    requires !IsSet(c.serviceId) || !IsSet(c.templateId) || !IsSet(c.apiKey)
    ensures Send(c, d, reply).sent == None && !Send(c, d, reply).result.success
    ensures Send(c, d, reply).result.error == Some(ConfigMissing)
  {
  }
}
