# EscalaPronta front end, modelled in Dafny

EscalaPronta is a Next.js front end for weekly staff scheduling. It talks to a separate scheduling API. This project models the parts of it that make decisions:

- the week grid of the schedule page and its load and auto-generate handlers;
- the employee form's work-day set, the work-day labels, and the list's load, save and deactivate handlers;
- the subscription page's notion of a Pro company, and its load, upgrade and cancel handlers;
- the feedback dialog and `sendFeedback`, which posts the feedback to EmailJS;
- the paywall dialog;
- the SEO metadata builders;
- the login, sign-up and pricing pages' session handling.

Each page is a `class`. Its fields are the page's React state. The browser is a shared `Web.Browser` object:

- `localStorage` is a `map`;
- router and `window.location` navigations are a recorded `seq`;
- every `fetch` is a recorded request.

What a `fetch` gives back is an input to the handler that made it: a rejection with its message, or a status with a decoded body. A body that `res.json()` cannot read gives its parse error instead. A handler that reloads after success takes a second outcome for the reload.

Dates are whole days since 1970-01-01, plus a time of day. The civil calendar is the one in section 21.4.1 of ECMA-262 (ECMAScript). `formatDate` takes the date part of `toISOString`. `String.prototype.trim` removes the WhiteSpace and LineTerminator code points of ECMA-262. `JSON.parse` of stored user data is a parameter of the feedback handler.

Modules, one per source file:

- `Calendar`, `Schedule`: app/schedule/page.tsx;
- `Employees`: app/employees/page.tsx;
- `Subscription`: app/subscription/page.tsx;
- `SendFeedback`: app/actions/send-feedback.ts;
- `FeedbackPopup`: components/feedback-popup.tsx;
- `Paywall`: components/paywall-modal.tsx;
- `Metadata`: lib/metadata.ts;
- `Login`, `Signup`, `Pricing`: the matching pages.

Shared modules:

- `Web`: JSON values, requests and replies, the browser, and the pages' common failure and session rules;
- `Text`: decimal padding, `trim`, `join` and `split`;
- `Wrappers`: `Option`.

## Model

| member | source | states |
|---|---|---|
| Calendar.WeekDay | app/schedule/page.tsx:42 | `getDay` of a day count is in 0..6 (0 is Sunday) |
| Calendar.ToCivil | app/schedule/page.tsx:49-51 | the civil date of a day count is a valid date and maps back to the same day count |
| Calendar.CivilRoundTrip | app/schedule/page.tsx:49-51 | a valid civil date's day count converts back to that same date, so the day-count calendar is a bijection |
| Calendar.YearFromDayUnique | app/schedule/page.tsx:49-51 | the year of a day count is the only year whose span contains it |
| Calendar.MonthInYearUnique | app/schedule/page.tsx:49-51 | the month of a day in the year is the only month whose span contains it |
| Calendar.GetMonday | app/schedule/page.tsx:40-47 | the result is a Monday at midnight, not after the date and at most 6 days before it; a Sunday maps to the Monday 6 days earlier |
| Calendar.GetMondayUnique | app/schedule/page.tsx:40-47 | the Monday found is the only Monday within the 6 days up to the date |
| Calendar.GetMondayIdempotent | app/schedule/page.tsx:40-47 | taking the Monday of a Monday changes nothing |
| Calendar.AddDays | app/schedule/page.tsx:57-61 | moves the day count by exactly n, keeps the time of day, and advances the weekday by n mod 7 |
| Calendar.AddDaysAdditive | app/schedule/page.tsx:57-61 | adding a then b days is adding a+b days, and adding 0 days is the identity |
| Calendar.ShiftByWeeks | app/schedule/page.tsx:146-152 | moving a week start by whole weeks gives a week start again |
| Calendar.WeekEndIsSunday | app/schedule/page.tsx:158 | six days after a week start is a Sunday |
| Calendar.FormatDate | app/schedule/page.tsx:49-51 | `formatDate`; FormatDateParts, ParseFormatDate, FormatParsedDate and FormatDateInjective state its format and that it loses nothing |
| Calendar.FormatDateParts | app/schedule/page.tsx:49-51 | for years 0..9999 the text is 10 characters: 4-digit year, '-', 2-digit month, '-', 2-digit day, each zero-padded |
| Calendar.ParseFormatDate | app/schedule/page.tsx:49-51 | reading the formatted date back gives the same day |
| Calendar.FormatParsedDate | app/schedule/page.tsx:49-51 | any text the reader accepts is the formatted form of the day it reads |
| Calendar.FormatDateInjective | app/schedule/page.tsx:49-51 | two different days in years 0..9999 never format alike, so the URL names one week |
| Calendar.FirstWeekOf2024Start | app/schedule/page.tsx:49-51 | day 19723 is a week start and formats as "2024-01-01" |
| Calendar.FirstWeekOf2024End | app/schedule/page.tsx:158 | the week starting 2024-01-01 ends on Sunday "2024-01-07" |
| Schedule.ColumnKeys | app/schedule/page.tsx:30-38 | the seven columns run Monday to Sunday: column i shows weekday (i+1) mod 7, and every weekday has exactly one column |
| Schedule.ShiftsForDay | app/schedule/page.tsx:154-156 | every shift kept is on the asked weekday |
| Schedule.ShiftsForDayCount | app/schedule/page.tsx:154-156 | a shift on the weekday is kept as often as it occurs, any other is dropped |
| Schedule.ShiftsForDayAppend | app/schedule/page.tsx:154-156 | the filter distributes over concatenation, so it keeps the original order |
| Schedule.Grid | app/schedule/page.tsx:236-238 | seven columns; column i has its key and label, the date `addDays(weekStart, i)` and that weekday's shifts |
| Schedule.GridDatesMatchKeys | app/schedule/page.tsx:236-238 | under a week start, each column's date falls on the weekday its key names |
| Schedule.GridPartition | app/schedule/page.tsx:154-156 | the grid shows each shift on a weekday 0..6 exactly once per occurrence, and a shift on any other day never |
| Schedule.SchedulePage.constructor | app/schedule/page.tsx:65-70 | the page starts on the Monday of the current week, with nothing loaded and `loading` true |
| Schedule.SchedulePage.WeekEnd | app/schedule/page.tsx:158 | the week end is the Sunday six days after the week start |
| Schedule.SchedulePage.OnWeekStartChange | app/schedule/page.tsx:81-88 | without a token, push /signup and send nothing; otherwise fetch the week |
| Schedule.SchedulePage.FetchSchedule | app/schedule/page.tsx:90-122 | GET /schedules/{YYYY-MM-DD}. A 401 pushes /signup and keeps the data. A 404 empties schedule and shifts. A success stores the schedule and `shifts` or []. Any other failure keeps the data and shows "Erro ao carregar escala". The error is cleared first and `loading` ends false |
| Schedule.SchedulePage.AutoGenerate | app/schedule/page.tsx:124-144 | without a schedule nothing happens; otherwise POST /schedules/{id}/auto-generate with no body; success reloads the week, failure shows "Erro ao gerar escala automaticamente"; `generating` ends false |
| Schedule.SchedulePage.GoToPreviousWeek | app/schedule/page.tsx:146-148 | moves the week start 7 days back and keeps it a Monday |
| Schedule.SchedulePage.GoToNextWeek | app/schedule/page.tsx:150-152 | moves the week start 7 days on and keeps it a Monday |
| Schedule.WeekNavigationInverse | app/schedule/page.tsx:146-152 | previous week then next week, or the other way round, returns to the same week |
| Employees.SortAscending | app/employees/page.tsx:137 | the result is ascending and holds the same numbers, so it is a permutation |
| Employees.SortedUnique | app/employees/page.tsx:137 | two ascending lists with the same elements are equal, so sorting has one answer |
| Employees.RemoveAll | app/employees/page.tsx:136 | the day no longer occurs, and every other day occurs as often as before |
| Employees.RemoveAllCanonical | app/employees/page.tsx:136 | removing a day from a strictly ascending list leaves it strictly ascending |
| Employees.DayToggle | app/employees/page.tsx:132-139 | a present day is removed and nothing else changes; an absent day is added and the list re-sorted |
| Employees.ToggleCanonical | app/employees/page.tsx:132-139 | toggling keeps the work days strictly ascending, so sorted and without repeats |
| Employees.ToggleTwice | app/employees/page.tsx:132-139 | toggling the same day twice restores the work days |
| Employees.InitialWorkDaysCanonical | app/employees/page.tsx:50-57 | the initial work days Monday to Friday are strictly ascending |
| Employees.Label | app/employees/page.tsx:40-48 | a weekday has a label exactly when it is 0..6, and the label is its `DAYS_OF_WEEK` entry |
| Employees.WorkDayLabels | app/employees/page.tsx:195-199 | no more labels than days; with all days in 0..6, each day's label in order |
| Employees.Labelled | app/employees/page.tsx:198 | the days that keep a label: every one in 0..6, exactly the input's values in 0..6, no more than the input |
| Employees.WorkDayLabelsOne | app/employees/page.tsx:197-198 | a single day gives its `DAYS_OF_WEEK` label when it is in 0..6 and nothing otherwise |
| Employees.WorkDayLabelsAppend | app/employees/page.tsx:196-198 | labelling a concatenation gives the labels of its parts, in the same order |
| Employees.WorkDayLabelsOfLabelled | app/employees/page.tsx:196-198 | for any days, the labels are exactly those of the days in 0..6, one each in input order; the other values are dropped |
| Employees.FormatWorkDays | app/employees/page.tsx:195-200 | `formatWorkDays`; ParseFormatWorkDays and ParseFormatAnyWorkDays state that it can be read back |
| Employees.ParseFormatWorkDays | app/employees/page.tsx:195-200 | for days in 0..6 the ", "-joined labels read back to exactly the same days, order and repeats included |
| Employees.ParseFormatAnyWorkDays | app/employees/page.tsx:195-200 | for any days, the shown text reads back to the days in 0..6 in input order: only the unlabelled values are lost |
| Employees.FormatWeekdays | app/employees/page.tsx:195-200 | [1,2,3,4,5] is shown as "Seg, Ter, Qua, Qui, Sex" |
| Employees.FormatDropsUnknown | app/employees/page.tsx:197-198 | [6,7,0] is shown as "Sáb, Dom": a day without a label is skipped |
| Employees.FormOfIgnoresOtherFields | app/employees/page.tsx:118-127 | the edit form takes only the six editable fields of the employee |
| Employees.FormOfEdited | app/employees/page.tsx:118-127 | editing an employee with a form's values and opening it again gives the same form |
| Employees.FormJsonRoundTrip | app/employees/page.tsx:152 | the JSON body of the form decodes back to the form |
| Employees.DeactivateOfferedIffActive | app/employees/page.tsx:380-392 | the deactivate button is shown exactly for rows whose status reads "Ativo", that is for active employees |
| Employees.SaveRequest | app/employees/page.tsx:147-169 | PUT /employees/{id} when editing, POST /employees otherwise, with the form as body and the bearer header |
| Employees.WithFieldOnlyThat | app/employees/page.tsx:250-300 | a text input's change sets its own field and leaves the others, the work days included |
| Employees.EmployeesPage.DialogTitle | app/employees/page.tsx:242 | the title reads "Editar funcionário" exactly when an employee is being edited |
| Employees.EmployeesPage.Mount | app/employees/page.tsx:69-78 | without a token, replace by /signup and send nothing; otherwise fetch the list |
| Employees.EmployeesPage.FetchEmployees | app/employees/page.tsx:90-109 | GET /employees. A 401 removes the token and pushes /signup. A success stores `employees` or []. Any other failure shows "Erro ao carregar funcionários". `loading` ends false |
| Employees.EmployeesPage.OpenCreate | app/employees/page.tsx:111-116 | open the dialog on the initial form, with nobody being edited and no error |
| Employees.EmployeesPage.OpenEdit | app/employees/page.tsx:118-130 | open the dialog on the employee's form, editing that employee, with no error |
| Employees.EmployeesPage.ChangeField | app/employees/page.tsx:250-300 | a text input's change sets that field of the form, as WithFieldOnlyThat describes, and nothing else on the page |
| Employees.EmployeesPage.SetDialogOpen | app/employees/page.tsx:233 | the dialog's `onOpenChange` and its cancel button (326) set only whether it is open |
| Employees.EmployeesPage.ToggleDay | app/employees/page.tsx:132-139 | only the work days change, by the toggle, and a strictly ascending set stays so |
| Employees.EmployeesPage.Submit | app/employees/page.tsx:141-178 | sends the save request. Success closes the dialog and reloads the list. Failure shows the rejection's message, the parse error, or `data.error` or the create/update fallback. `saving` ends false |
| Employees.EmployeesPage.Deactivate | app/employees/page.tsx:180-193 | unconfirmed does nothing; otherwise PATCH /employees/{id}/deactivate, reload on success, "Erro ao desativar funcionário" on failure |
| Subscription.IsPro | app/subscription/page.tsx:133 | `isPro`, a PRO plan whose status is ACTIVE; CardShowsEntitlement and LapsedProIsNotPro state what it decides on the card |
| Subscription.PlanLabel | app/subscription/page.tsx:171 | the heading is "PRO" exactly when a subscription is loaded and its plan is PRO, and "Gratuito" in every other case, a FREE plan and no subscription included |
| Subscription.StatusLabel | app/subscription/page.tsx:182-186 | the badge is "Ativo" exactly for an ACTIVE status and "Cancelado" exactly for a CANCELLED one. It is "Falhou" exactly for a FAILED status or when no subscription is loaded |
| Subscription.CardOf | app/subscription/page.tsx:171-279 | the current-plan card; CardShowsEntitlement, LapsedProIsNotPro and NoSubscriptionCard state what it shows |
| Subscription.CardShowsEntitlement | app/subscription/page.tsx:133-279 | Pro holds exactly when the card reads "PRO" and "Ativo". The cancel action and the "R$ 29/mês" price are shown exactly for Pro. Three benefits are shown |
| Subscription.LapsedProIsNotPro | app/subscription/page.tsx:133 | a cancelled or failed PRO plan still reads "PRO" but is not Pro and is offered the upgrade |
| Subscription.NoSubscriptionCard | app/subscription/page.tsx:171-232 | with no subscription the card is the free one, with badge "Falhou" |
| Subscription.SubscriptionPage.Mount | app/subscription/page.tsx:47-54 | without a token, replace by /signup; otherwise fetch the subscription |
| Subscription.SubscriptionPage.FetchSubscription | app/subscription/page.tsx:56-80 | GET /billing/status. A 401 removes the token and pushes /signup. A success stores the subscription. Any other failure shows "Erro ao carregar informações da assinatura" |
| Subscription.SubscriptionPage.HandleUpgrade | app/subscription/page.tsx:82-102 | POST /billing/checkout {plan:"PRO"}; success opens the checkout URL, any failure shows "Erro ao processar upgrade"; `upgrading` ends false |
| Subscription.SubscriptionPage.HandleCancel | app/subscription/page.tsx:104-123 | DELETE /billing/subscription; success reloads the subscription, failure shows the message; `cancelling` ends false |
| Web.FailureMessage | app/subscription/page.tsx:112-119 | a failed request's message is the rejection's, the parse error's, the non-empty `data.error`, or the fallback |
| Web.AuthOutcome | app/login/page.tsx:34-44 | a session is granted exactly for a success whose body parses, and holds `String(data.token)`. Otherwise the message is the rejection's, the parse error's (whatever the status), or `data.error` or the fallback |
| Web.OrElse | app/actions/send-feedback.ts:34 | `s \|\| fallback` gives the value when it is non-empty and the fallback otherwise |
| Text.Trim | components/feedback-popup.tsx:42 | the trimmed text is no longer than the input and, when not empty, neither starts nor ends with white space |
| Text.TrimCuts | components/feedback-popup.tsx:42 | the input is the trimmed text with only white space before it and after it |
| Text.TrimEmptyIffBlank | components/feedback-popup.tsx:42 | `trim()` is empty exactly when every character is white space |
| Text.TrimIdempotent | components/feedback-popup.tsx:73 | trimming twice is trimming once |
| Text.SplitJoin | app/employees/page.tsx:199 | splitting a join on a separator no part contains gives the parts back |
| SendFeedback.Send | app/actions/send-feedback.ts:12-57 | Missing configuration gives "EmailJS configuration missing" and sends nothing. Otherwise one POST goes to the EmailJS endpoint with no authorization. Success holds exactly when the configuration is complete and the reply is ok. A failed status gives "Failed to send feedback" and a rejection gives "Erro ao enviar feedback" |
| SendFeedback.PayloadFields | app/actions/send-feedback.ts:27-31 | the body carries the configured service, template and key, and the template parameters |
| SendFeedback.TemplateParamsFields | app/actions/send-feedback.ts:31-38 | type, message and page are passed unchanged. A missing or falsy e-mail, user id or company id becomes "Não informado", "Não autenticado" or "Não disponível"; a present one is kept |
| SendFeedback.NoConfigNoRequest | app/actions/send-feedback.ts:13-19 | any unset or empty setting means no request and no success |
| SendFeedback.JsonOrElse | app/actions/send-feedback.ts:36-37 | `v \|\| fallback` on a JSON value keeps a truthy value and replaces anything else |
| FeedbackPopup.StoredId | components/feedback-popup.tsx:56-67 | the id is truthy exactly when the entry is non-empty, parses, and has a truthy `id`, and then it is that `id`; otherwise it is "" |
| FeedbackPopup.SentMessageIsTrimmed | components/feedback-popup.tsx:42-73 | a message that passes validation goes out non-blank, with no white space at either end |
| FeedbackPopup.BlankEmailFallsBack | components/feedback-popup.tsx:74 | a blank e-mail is replaced by "Não informado"; any other goes out trimmed |
| FeedbackPopup.FalsyIdIsUnauthenticated | components/feedback-popup.tsx:60 | a stored user whose id is 0 is reported as "Não autenticado" |
| FeedbackPopup.Popup.ResetForm | components/feedback-popup.tsx:31-36 | type, message, e-mail and error become empty; open and loading are unchanged |
| FeedbackPopup.Popup.Open | components/feedback-popup.tsx:106 | opens the dialog and keeps the form |
| FeedbackPopup.Popup.SetType | components/feedback-popup.tsx:137 | choosing a type sets the type and nothing else |
| FeedbackPopup.Popup.SetMessage | components/feedback-popup.tsx:156 | typing a message sets the message and nothing else |
| FeedbackPopup.Popup.SetEmail | components/feedback-popup.tsx:168 | typing an e-mail sets the e-mail and nothing else |
| FeedbackPopup.Popup.Cancel | components/feedback-popup.tsx:175 | closes the dialog and keeps the form |
| FeedbackPopup.Popup.OnOpenChange | components/feedback-popup.tsx:121-126 | sets the open state; closing also resets the form |
| FeedbackPopup.Popup.HandleSubmit | components/feedback-popup.tsx:38-95 | A missing type or blank message shows "Por favor, preencha todos os campos obrigatórios." and sends nothing. Otherwise `sendFeedback` gets the trimmed message and e-mail, the path and the stored ids. Success closes and resets, failure keeps the form and shows "Erro ao enviar feedback. Tente novamente." `isLoading` ends false |
| FeedbackPopup.Popup.Submit | components/feedback-popup.tsx:47-94 | after validation: `sendFeedback` gets the trimmed message and e-mail, the path and the ids read from the stored "user" and "company"; the request it builds is the only one sent; success closes and resets the form, failure keeps it with "Erro ao enviar feedback. Tente novamente."; `isLoading` ends false |
| Paywall.ContentOf | components/paywall-modal.tsx:30-42 | `content[type]`: PLAN_LIMIT_REACHED shows "Limite do plano gratuito atingido" with the five-employee description; FEATURE_NOT_AVAILABLE shows "Recurso exclusivo do Pro" with the auto-generation description; no title or description is empty |
| Paywall.TitleIdentifiesType | components/paywall-modal.tsx:30-42 | the two reasons have different content, and the helper TypeOfTitle reads the reason back from its title |
| Paywall.HandleUpgrade | components/paywall-modal.tsx:44-47 | navigates to /pricing, then calls `onClose` |
| Paywall.UpgradeClosesOnce | components/paywall-modal.tsx:44-47 | upgrading calls `onClose` exactly once, after the navigation |
| Paywall.OnOpenChange | components/paywall-modal.tsx:50 | the dialog's `onOpenChange`; CloseOnlyWhenClosing states its effects |
| Paywall.Dismiss | components/paywall-modal.tsx:87-89 | the "Agora não" button calls `onClose` and does nothing else |
| Paywall.CloseOnlyWhenClosing | components/paywall-modal.tsx:50 | `onClose` is called, once, exactly when the new state is closed, and nothing navigates |
| Paywall.ViewAdvertisesPro | components/paywall-modal.tsx:11-28 | for either reason: price "R$ 29", the same four benefits in order, and an enabled "Desbloquear Plano Pro" button, since `loading` never becomes true |
| Metadata.Spread | lib/metadata.ts:21 | every key of the override replaces the base's whole; every other key keeps the base's value |
| Metadata.GetExtensional | lib/metadata.ts:3-23 | metadata objects agreeing on every key are equal |
| Metadata.SpreadLaws | lib/metadata.ts:21 | spreading `{}` changes nothing, spreading is associative, and repeating an override changes nothing |
| Metadata.GenerateMetadata | lib/metadata.ts:3-23 | keys present in the override come from it, all others from the defaults |
| Metadata.DefaultsIndexSite | lib/metadata.ts:3-20 | with `{}`: the base is the site URL, canonical is "https://escalapronta.com.br", robots index and follow with nocache false, and there are no title, Open Graph or Twitter keys |
| Metadata.GeneratePageMetadata | lib/metadata.ts:25-63 | the caller's keys win; robots and `metadataBase` stay the defaults unless overridden |
| Metadata.PageAddressesAgree | lib/metadata.ts:31-42 | canonical and `openGraph.url` are both "https://escalapronta.com.br" + path |
| Metadata.PageTextsAgree | lib/metadata.ts:34-58 | title and description are the same at the top level, in Open Graph and in the Twitter card |
| Metadata.PageImages | lib/metadata.ts:46-59 | the Open Graph image is /og-image.png at 1200×630 with alt "EscalaPronta"; the Twitter card is `summary_large_image` with that image |
| Metadata.PageIsLayered | lib/metadata.ts:33-62 | page metadata is the defaults, overridden by the page's keys, overridden by the caller's |
| Login.CredentialsFields | app/login/page.tsx:31 | the body holds exactly `email` and `password`, as typed |
| Login.LoginPage.SetEmail | app/login/page.tsx:84 | typing an e-mail sets the e-mail and nothing else |
| Login.LoginPage.SetPassword | app/login/page.tsx:97 | typing a password sets the password and nothing else |
| Login.LoginPage.Mount | app/login/page.tsx:50-56 | a stored token replaces the page by /schedule; without one nothing happens |
| Login.LoginPage.HandleSubmit | app/login/page.tsx:22-48 | POSTs the credentials. A granted session stores its token and pushes /schedule. A refused one only shows its message, "Credenciais inválidas" by default. The error is cleared first and `loading` ends false |
| Signup.WithFieldOnlyThat | app/signup/page.tsx:27-31 | a change sets the named input only |
| Signup.RegisterFields | app/signup/page.tsx:45-50 | companyName is passed through, `email` and `password` become `adminEmail` and `adminPassword`, segment is "General", and no plain `email`/`password` keys are sent |
| Signup.SignupPage.HandleChange | app/signup/page.tsx:27-31 | updates the named field and clears the error |
| Signup.SignupPage.HandleSubmit | app/signup/page.tsx:33-69 | POST /companies/register. A granted session stores the token, pushes /employees and leaves `isLoading` true. A refused one shows its message ("Erro ao criar conta. Tente novamente." by default) and ends loading |
| Pricing.FreePlanTarget | app/pricing/page.tsx:48-55 | /employees exactly with a token, /signup exactly without |
| Pricing.PricingPage.HandleUpgrade | app/pricing/page.tsx:15-46 | without a token, push /signup and send nothing; otherwise POST /billing/checkout with the bearer token; success opens the checkout URL, failure changes nothing else; `loading` ends false |
| Pricing.PricingPage.HandleFreePlan | app/pricing/page.tsx:48-55 | pushes the free-plan target for the current token |
| Pricing.CheckoutUsesStoredToken | app/pricing/page.tsx:29 | the checkout's header equals the bearer header every other page builds |

## Left out

- Time zones: dates are taken in one zone where local and UTC agree. A zone offset that moves `toISOString` to another day is not modelled.
- The `Date` range limit (±8.64e15 ms) is not modelled. `FormatDate` prints years outside 0..9999 in the expanded six-digit form of section 21.4.1.32 of ECMA-262, and the round-trip lemmas are stated for years 0..9999.
- `formatDisplayDate` (app/schedule/page.tsx:53-55) depends on the runtime's `pt-BR` locale data.
- Headers other than `Authorization` (`Content-Type`, `ngrok-skip-browser-warning`) are not modelled. `NEXT_PUBLIC_API_URL` is left out: `Api(path)` means that path under the configured API.
- `toast`, `gtag` and `console.error` are foreign calls with no effect on page state. A `gtag` call that throws would turn a sent feedback into "Erro ao enviar feedback".
- Intermediate states are not modelled. A method states the state after the awaited requests, not the renders in between, such as `loading` true while a request runs.
- Concurrency: overlapping handlers and stale replies are not modelled. The unawaited `fetchEmployees()` after a save or deactivation is taken as running to completion before the handler ends.
- The "Erro ao salvar", "Erro ao fazer login" and "Erro ao cancelar assinatura" branches for a thrown non-`Error` are not modelled. Every value these handlers throw is an `Error`.
- A server `error` field that is not a string, or a `token` that is `null` rather than absent, is not modelled. Bodies are decoded into typed records whose fields may only be missing.
- JSON numbers are integers here.
- An override key that is present but explicitly `undefined` is not modelled. The spread copies it in and erases the default; here an absent key keeps the default.
- Rendering beyond the values the pages compute is not modelled: layout, icons, tooltips and the `mounted` guard of the feedback dialog.
- Browser-enforced `required` attributes are not modelled, since the handlers do not check them. The feedback dialog's own checks are modelled.
- The page parts of `Pricing` other than its two handlers are static text.
- Metadata keys other than the seven these helpers set (such as `keywords` or `icons`) are not modelled. In the source an override can carry any Next.js metadata key and the spread passes it through unchanged.
- Metadata.GenerateMetadata: `metadataBase` is recorded as the `href` of `new URL("https://escalapronta.com.br")`, which ends in "/", not as the URL object itself.

Points where the pages differ from one another, or do less than one might expect:

- The schedule page's 401 branch pushes /signup and keeps the token (app/schedule/page.tsx:100-103). The employees and subscription pages remove it.
- No handler checks that a shift ends after it starts, and none maps plan-limit errors to the paywall. The employee form sends its times as typed, and a plan-limit refusal shows as an ordinary failure message.
- Closing the feedback dialog with its Cancelar button does not reset the form (components/feedback-popup.tsx:175). Only the dialog's own close gesture does (components/feedback-popup.tsx:121-126).
