/** `ErrorService`: turns a failed request into one user-visible toast.
    The status classification is the function `Detail`; the service is a
    class holding the mutable toast receiver, and `console.error` output is
    kept as a list of diagnostics. */
module ErrorHandling {
  import opened Wrappers

  /** The body of a failed HTTP response, as far as the core reads it. */
  datatype ErrorBody = ErrorBody(message: Option<string>, errorMessages: Option<seq<string>>)

  /** The `response` of a failed request: its status and optional body. */
  datatype ErrorResponse = ErrorResponse(status: int, data: Option<ErrorBody>)

  /** What a failed request rejects with: the error's `message` and, when a
      server answered, its `response`. Anything thrown on the way (a token
      decoding error, a missing `localStorage`) has no response. */
  datatype ApiError = ApiError(message: string, response: Option<ErrorResponse>)

  datatype Severity = Success | Info | Warn | Error

  datatype ToastMessage = ToastMessage(severity: Severity, summary: string, detail: string, life: Option<int>)

  const ToastNotSet := "Toast instance not set"
  const Unreachable := "API adresine ulaşılamıyor"
  const InvalidRequest := "Geçersiz istek"
  const SessionExpired := "Oturum süreniz doldu. Lütfen tekrar giriş yapın."
  const Forbidden := "Yetkisiz erişim"
  const NotFound := "İstenilen kaynak bulunamadı"
  const ServerFailure := "Sunucu hatası"
  const Unexpected := "Beklenmeyen bir hata oluştu"

  /** `Array.prototype.join(sep)` on strings. */
  function Join(parts: seq<string>, sep: string): (r: string) {
    if |parts| == 0 then ""
    else if |parts| == 1 then parts[0]
    else parts[0] + sep + Join(parts[1..], sep)
  }

  /** The lines a detail text shows: the text split at every line break. */
  function Lines(s: string): (r: seq<string>)
    ensures |r| >= 1
  {
    if |s| == 0 then [""]
    else
      var rest := Lines(s[1..]);
      if s[0] == '\n' then [""] + rest
      else [[s[0]] + rest[0]] + rest[1..]
  }

  predicate NoLineBreaks(parts: seq<string>) {
    forall i :: 0 <= i < |parts| ==> '\n' !in parts[i]
  }

  /** A joined text is empty exactly when there is nothing to join, or one
      empty message: then the fallback message is shown instead. */
  lemma JoinEmptyIff(parts: seq<string>, sep: string)
    requires sep != ""
    ensures Join(parts, sep) == "" <==> |parts| == 0 || parts == [""]
  {
  }

  lemma {:induction false} LinesOfLine(a: string)
    requires '\n' !in a
    ensures Lines(a) == [a]
  {
    if |a| > 0 {
      LinesOfLine(a[1..]);
      assert [a[0]] + a[1..] == a;
    }
  }

  lemma {:induction false} LinesOfLineThen(a: string, t: string)
    requires '\n' !in a
    ensures Lines(a + "\n" + t) == [a] + Lines(t)
  {
    var s := a + "\n" + t;
    if |a| == 0 {
      assert s[1..] == t;
    } else {
      assert s[1..] == a[1..] + "\n" + t;
      LinesOfLineThen(a[1..], t);
      assert [a[0]] + a[1..] == a;
    }
  }

  /** Joining messages with line breaks loses none of them: when no message
      holds a line break itself, the shown text splits back into exactly
      the server's messages, one per line, in order. */
  lemma {:induction false} LinesOfJoin(parts: seq<string>)
    requires |parts| >= 1
    requires NoLineBreaks(parts)
    ensures Lines(Join(parts, "\n")) == parts
  {
    if |parts| == 1 {
      LinesOfLine(parts[0]);
    } else {
      assert '\n' !in parts[0];
      LinesOfJoin(parts[1..]);
      LinesOfLineThen(parts[0], Join(parts[1..], "\n"));
      assert [parts[0]] + parts[1..] == parts;
    }
  }

  /** `error.response.data?.ErrorMessages` */
  function ServerMessages(r: ErrorResponse): (ms: Option<seq<string>>) {
    if r.data.Some? then r.data.value.errorMessages else None
  }

  /** `r.data?.ErrorMessages?.join('\n') || fallback` */
  function JoinedOr(r: ErrorResponse, fallback: string): (d: string) {
    var ms := ServerMessages(r);
    if ms.Some? && Join(ms.value, "\n") != "" then Join(ms.value, "\n") else fallback
  }

  /** The toast detail for a failed request: the status switch of
      `errorHandler`. It is never empty. */
  function Detail(e: ApiError): (d: string)
    ensures d != ""
  {
    match e.response
    case None => Unreachable
    case Some(r) =>
      if r.status == 400 then JoinedOr(r, InvalidRequest)
      else if r.status == 401 then SessionExpired
      else if r.status == 403 then JoinedOr(r, Forbidden)
      else if r.status == 404 then NotFound
      else if r.status == 500 then ServerFailure
      else Unexpected
  }

  /** The fallback shown for 400 and 403 when the server lists no message. */
  function ListFallback(status: int): (d: string) {
    if status == 400 then InvalidRequest else Forbidden
  }

  /** For 400 and 403 the toast shows the server's messages one per line;
      with no list, an empty list or one empty message it shows the
      fallback of that status. */
  lemma ListedDetail(e: ApiError)
    requires e.response.Some? && (e.response.value.status == 400 || e.response.value.status == 403)
    ensures var ms := ServerMessages(e.response.value);
      (ms.None? || ms.value == [] || ms.value == [""] ==> Detail(e) == ListFallback(e.response.value.status))
      && (ms.Some? && ms.value != [] && ms.value != [""] && NoLineBreaks(ms.value) ==> Lines(Detail(e)) == ms.value)
  {
    var ms := ServerMessages(e.response.value);
    if ms.Some? {
      JoinEmptyIff(ms.value, "\n");
      if ms.value != [] && ms.value != [""] && NoLineBreaks(ms.value) {
        LinesOfJoin(ms.value);
      }
    }
  }

  /** Every other status has one fixed message, whatever the body says, and
      a request without a response is reported as "unreachable". */
  lemma FixedDetail(e: ApiError)
    ensures e.response.None? ==> Detail(e) == Unreachable
    ensures e.response.Some? ==>
      var s := e.response.value.status;
      (s == 401 ==> Detail(e) == SessionExpired)
      && (s == 404 ==> Detail(e) == NotFound)
      && (s == 500 ==> Detail(e) == ServerFailure)
      && (s != 400 && s != 401 && s != 403 && s != 404 && s != 500 ==> Detail(e) == Unexpected)
  {
  }

  /** Only the status decides the detail for statuses other than 400 and 403. */
  lemma DetailIgnoresBody(status: int, m1: string, m2: string, b1: Option<ErrorBody>, b2: Option<ErrorBody>)
    requires status != 400 && status != 403
    ensures Detail(ApiError(m1, Some(ErrorResponse(status, b1)))) == Detail(ApiError(m2, Some(ErrorResponse(status, b2))))
  {
  }

  /** The one toast `errorHandler` shows for an error. */
  function ErrorToast(e: ApiError): (m: ToastMessage)
    ensures m.severity == Error && m.summary == "Hata" && m.life == Some(3000)
    ensures m.detail == Detail(e)
  {
    ToastMessage(Error, "Hata", Detail(e), Some(3000))
  }

  /** A toast receiver; `shown` is every message it has displayed. */
  class Toast {
    var shown: seq<ToastMessage>

    constructor ()
      ensures shown == []
    {
      shown := [];
    }

    method Show(m: ToastMessage)
      modifies this
      ensures shown == old(shown) + [m]
    {
      shown := shown + [m];
    }
  }

  class ErrorService {
    var toast: Toast?
    /** Lines written to `console.error`. */
    var diagnostics: seq<string>

    constructor ()
      ensures toast == null && diagnostics == []
    {
      toast := null;
      diagnostics := [];
    }

    /** The receiver is overwritten: the last registration wins. */
    method SetToastInstance(t: Toast)
      modifies this
      ensures toast == t && diagnostics == old(diagnostics)
    {
      toast := t;
    }

    method ShowToast(m: ToastMessage)
      modifies this, toast
      ensures toast == old(toast)
      ensures old(toast) == null ==> diagnostics == old(diagnostics) + [ToastNotSet]
      ensures old(toast) != null ==> toast.shown == old(toast.shown) + [m] && diagnostics == old(diagnostics)
    {
      if toast == null {
        diagnostics := diagnostics + [ToastNotSet];
        return;
      }
      toast.Show(m);
    }

    /** With no receiver only a diagnostic is logged; otherwise exactly one
        error toast with the classified detail is shown. */
    method ErrorHandler(e: ApiError)
      modifies this, toast
      ensures HandledOnce(this, e)
    {
      if toast == null {
        diagnostics := diagnostics + [ToastNotSet];
        return;
      }
      ShowToast(ErrorToast(e));
    }
  }

  /** What one `errorHandler(e)` call does to a service and its receiver. */
  twostate predicate HandledOnce(es: ErrorService, e: ApiError)
    reads es, es.toast
  {
    && es.toast == old(es.toast)
    && (old(es.toast) == null ==> es.diagnostics == old(es.diagnostics) + [ToastNotSet])
    && (old(es.toast) != null ==>
          es.toast.shown == old(es.toast.shown) + [ErrorToast(e)] && es.diagnostics == old(es.diagnostics))
  }

  /** Neither the service nor its receiver has changed. */
  twostate predicate Untouched(es: ErrorService)
    reads es, es.toast
  {
    && es.toast == old(es.toast)
    && es.diagnostics == old(es.diagnostics)
    && (es.toast != null ==> es.toast.shown == old(es.toast.shown))
  }

  /** The class-level `ErrorService.instance` slot and `getInstance`. */
  class ErrorServiceClass {
    var instance: ErrorService?

    constructor ()
      ensures instance == null
    {
      instance := null;
    }

    method GetInstance() returns (s: ErrorService)
      modifies this
      ensures instance == s
      ensures old(instance) != null ==> s == old(instance)
      ensures old(instance) == null ==> fresh(s) && s.toast == null && s.diagnostics == []
    {
      if instance == null {
        instance := new ErrorService();
      }
      s := instance;
    }
  }

  /** `getInstance` always hands out the same service. */
  method GetInstanceIsStable(c: ErrorServiceClass) returns (a: ErrorService, b: ErrorService)
    modifies c
    ensures a == b && c.instance == a
  {
    a := c.GetInstance();
    b := c.GetInstance();
  }

  /** After two registrations only the second receiver shows the error. */
  method LastRegistrationWins(es: ErrorService, first: Toast, second: Toast, e: ApiError)
    requires first != second
    modifies es, first, second
    ensures first.shown == old(first.shown)
    ensures second.shown == old(second.shown) + [ErrorToast(e)]
    ensures es.toast == second
  {
    es.SetToastInstance(first);
    es.SetToastInstance(second);
    es.ErrorHandler(e);
  }
}
