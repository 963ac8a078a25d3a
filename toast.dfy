/** `useCustomToast` (src/composables/useCustomToast.ts): how a toast's
    message options become the configuration handed to the toast service.
    The service's `add` is foreign, so each operation returns the
    configuration it would add. */
module Toast {
  import opened Types

  datatype Severity = Success | Info | Warn | Error

  /** `ToastOptions`: every field but the message may be omitted (`None`). */
  datatype ToastOptions = ToastOptions(title: Option<string>, message: string,
                                       duration: Option<int>, severity: Option<Severity>)

  /** What `showToast` accepts: a bare message or a set of options. */
  datatype ToastInput = Text(text: string) | Options(options: ToastOptions)

  /** The configuration given to the toast service; absent fields are `None`. */
  datatype ToastConfig = ToastConfig(summary: Option<string>, detail: string,
                                     life: Option<int>, severity: Option<Severity>)

  const DEFAULT_LIFE := 3000
  const ERROR_LIFE := 5000

  /** `getDefaultTitle`: the Portuguese word for the severity, "Informação"
      when there is none. */
  function GetDefaultTitle(severity: Option<Severity>): (title: string)
    ensures title != ""
    ensures severity == Some(Success) <==> title == "Sucesso"
    ensures severity == Some(Error) <==> title == "Erro"
    ensures severity == Some(Warn) <==> title == "Atenção"
    ensures severity in {None, Some(Info)} <==> title == "Informação"
  {
    match severity
    case Some(Success) => "Sucesso"
    case Some(Error) => "Erro"
    case Some(Warn) => "Atenção"
    case _ => "Informação"
  }

  /** `a || b` on an optional string: the first when it is non-empty. */
  function OrString(a: Option<string>, b: string): (r: string)
    ensures a.Some? && a.value != "" ==> r == a.value
    ensures a.None? || a.value == "" ==> r == b
  {
    if a.Some? && a.value != "" then a.value else b
  }

  /** The configuration `showToast` builds. */
  function ShowToast(input: ToastInput): (config: ToastConfig)
    ensures input.Text? ==> config == ToastConfig(None, input.text, None, None)
    ensures input.Options? ==>
      && config.detail == input.options.message
      && config.summary == Some(OrString(input.options.title, GetDefaultTitle(input.options.severity)))
      && config.life == Some(if input.options.duration.Some? && input.options.duration.value != 0
                             then input.options.duration.value else DEFAULT_LIFE)
      && config.severity == Some(if input.options.severity.Some? then input.options.severity.value else Info)
  {
    match input
    case Text(s) => ToastConfig(None, s, None, None)
    case Options(o) =>
      var life := if o.duration.Some? && o.duration.value != 0 then o.duration.value else DEFAULT_LIFE;
      var severity := if o.severity.Some? then o.severity.value else Info;
      ToastConfig(Some(OrString(o.title, GetDefaultTitle(o.severity))), o.message, Some(life), Some(severity))
  }

  /** A toast built from options always has a title, a non-zero life and a
      severity, and the title is the default one for that severity unless a
      title was given. */
  lemma OptionsAreCompleted(o: ToastOptions)
    ensures var c := ShowToast(Options(o));
      && c.summary.Some? && c.summary.value != ""
      && c.life.Some? && c.life.value != 0
      && c.severity.Some?
      && (o.title.None? || o.title == Some("") ==> c.summary == Some(GetDefaultTitle(c.severity)))
  {
  }

  /** Defaulting is idempotent: feeding a completed configuration back in as
      options reproduces it. */
  lemma {:induction false} DefaultingIsIdempotent(o: ToastOptions)
    ensures var c := ShowToast(Options(o));
      ShowToast(Options(ToastOptions(c.summary, c.detail, c.life, c.severity))) == c
  {
    OptionsAreCompleted(o);
  }

  function ShowSuccess(message: string, title: Option<string>): (config: ToastConfig)
    ensures config.severity == Some(Success) && config.life == Some(DEFAULT_LIFE) && config.detail == message
    ensures config.summary == Some(OrString(title, "Sucesso"))
  {
    ShowToast(Options(ToastOptions(Some(OrString(title, "Sucesso")), message, None, Some(Success))))
  }

  function ShowError(message: string, title: Option<string>): (config: ToastConfig)
    ensures config.severity == Some(Error) && config.life == Some(ERROR_LIFE) && config.detail == message
    ensures config.summary == Some(OrString(title, "Erro"))
  {
    ShowToast(Options(ToastOptions(Some(OrString(title, "Erro")), message, Some(ERROR_LIFE), Some(Error))))
  }

  function ShowWarning(message: string, title: Option<string>): (config: ToastConfig)
    ensures config.severity == Some(Warn) && config.life == Some(DEFAULT_LIFE) && config.detail == message
    ensures config.summary == Some(OrString(title, "Atenção"))
  {
    ShowToast(Options(ToastOptions(Some(OrString(title, "Atenção")), message, None, Some(Warn))))
  }

  function ShowInfo(message: string, title: Option<string>): (config: ToastConfig)
    ensures config.severity == Some(Info) && config.life == Some(DEFAULT_LIFE) && config.detail == message
    ensures config.summary == Some(OrString(title, "Informação"))
  {
    ShowToast(Options(ToastOptions(Some(OrString(title, "Informação")), message, None, Some(Info))))
  }

  /** Each helper's fallback title is `getDefaultTitle` of its severity, so
      the helpers agree with `showToast` called with the same title left to
      default. */
  lemma HelpersAgreeWithShowToast(message: string, title: Option<string>)
    ensures ShowSuccess(message, title) == ShowToast(Options(ToastOptions(title, message, None, Some(Success))))
    ensures ShowError(message, title) == ShowToast(Options(ToastOptions(title, message, Some(ERROR_LIFE), Some(Error))))
    ensures ShowWarning(message, title) == ShowToast(Options(ToastOptions(title, message, None, Some(Warn))))
    ensures ShowInfo(message, title) == ShowToast(Options(ToastOptions(title, message, None, Some(Info))))
  {
  }
}
