/** The "Coletas" tab of the monitor page: the form that starts a full data
    collection from a historical start date, the button that deletes all
    monitoring data, and the status alert between them. */
module Monitor {
  import opened Common

  /** `collectionStatus`: idle, collecting, done or error. */
  datatype CollectionStatus = Idle | Collecting | Done | Error

  /** The monitoring summary the tab reads; only the run count matters here. */
  datatype MonitorSummary = MonitorSummary(totalRuns: int)

  /** The body of `POST /monitor/run`. */
  datatype RunRequest = RunRequest(startDate: string)

  /** What pressing "Iniciar Coleta Completa" leads to: a refusal toast, or a
      run request handed to the collection mutation. */
  datatype RunOutcome = RunRefused(toast: Toast) | RunSent(request: RunRequest)

  const MissingDateMessage := "Por favor, selecione uma data de início."
  const InvalidDateMessage := "Data inválida. Use o formato AAAA-MM-DD."
  const StartingMessage := "Iniciando coleta... (Isso pode levar vários minutos)"
  const CollectionDoneMessage := "Coleta concluída com sucesso!"
  const CollectionErrorDetail := "Ocorreu um erro durante a coleta."
  const CollectionErrorPrefix := "Erro na coleta: "
  const DeleteDoneMessage := "Todos os dados de monitoramento foram limpos!"
  const DeleteErrorMessage := "Falha ao limpar os dados."

  /** The query keys both mutations invalidate on success, in order. */
  const MonitorQueryKeys: seq<string> := ["latestMonitorData", "historicalMonitorData", "monitorSummary"]

  // ---- pure rules of the tab ----

  /** `summaryData ? summaryData.total_runs > 0 : false` */
  predicate HasAnyData(summary: Option<MonitorSummary>)
  {
    match summary
    case None => false
    case Some(s) => s.totalRuns > 0
  }

  /** `collectionMutation.isPending || deleteMutation.isPending` */
  predicate IsMutating(collectionPending: bool, deletePending: bool)
  {
    collectionPending || deletePending
  }

  /** The run button (and the date input) are enabled: `!(isMutating || hasAnyData)`. */
  predicate RunEnabled(collectionPending: bool, deletePending: bool, hasData: bool)
  {
    !(IsMutating(collectionPending, deletePending) || hasData)
  }

  /** The delete button is enabled: `!(isMutating || !hasAnyData)`. */
  predicate DeleteEnabled(collectionPending: bool, deletePending: bool, hasData: bool)
  {
    !(IsMutating(collectionPending, deletePending) || !hasData)
  }

  /** Start and delete are never offered together, both are withheld while
      either mutation is pending, and otherwise exactly one is offered: run
      when there is no data, delete when there is. */
  lemma GatingExclusive(collectionPending: bool, deletePending: bool, hasData: bool)
    ensures !(RunEnabled(collectionPending, deletePending, hasData)
              && DeleteEnabled(collectionPending, deletePending, hasData))
    ensures IsMutating(collectionPending, deletePending) ==>
              !RunEnabled(collectionPending, deletePending, hasData)
              && !DeleteEnabled(collectionPending, deletePending, hasData)
    ensures !IsMutating(collectionPending, deletePending) ==>
              (RunEnabled(collectionPending, deletePending, hasData) <==> !hasData)
              && (DeleteEnabled(collectionPending, deletePending, hasData) <==> hasData)
  {
  }

  /** The status message after a successful collection: the backend's
      message, or the default text when it is absent or empty. */
  function SuccessMessage(backendMessage: Option<string>): (m: string)
    ensures m != ""
    ensures backendMessage.Some? && backendMessage.value != "" ==> m == backendMessage.value
    ensures backendMessage.None? || backendMessage.value == "" ==> m == CollectionDoneMessage
  {
    OrElse(backendMessage, CollectionDoneMessage)
  }

  /** The status message after a failed collection: the fixed prefix followed
      by the response's detail, or by the default detail. */
  function FailureMessage(detail: Option<string>): (m: string)
    ensures |m| > |CollectionErrorPrefix| && m[..|CollectionErrorPrefix|] == CollectionErrorPrefix
    ensures detail.Some? && detail.value != "" ==> m[|CollectionErrorPrefix|..] == detail.value
    ensures detail.None? || detail.value == "" ==> m[|CollectionErrorPrefix|..] == CollectionErrorDetail
  {
    CollectionErrorPrefix + OrElse(detail, CollectionErrorDetail)
  }

  // ---- the tab's state ----

  // react-query runs a mutation's onSuccess/onError only while that mutation
  // is pending, which is what the completion methods below require.

  class CollectionsTab {
    /** The signed-in user (from the authentication context). */
    const user: Option<AppUser>
    /** The text of the date input (`startDate`). */
    var startDate: string
    var status: CollectionStatus
    var statusMessage: string
    /** The last summary the `monitorSummary` query delivered. */
    var summary: Option<MonitorSummary>
    /** `collectionMutation.isPending` and `deleteMutation.isPending`. */
    var collectionPending: bool
    var deletePending: bool
    /** Every query key invalidated so far, in order. */
    var invalidated: seq<string>

    /** At most one mutation is in flight, and a pending collection is shown
        as collecting. */
    predicate Valid()
      reads this
    {
      && !(collectionPending && deletePending)
      && (collectionPending ==> status == Collecting)
    }

    constructor (user: Option<AppUser>)
      ensures Valid()
      ensures this.user == user && startDate == "" && status == Idle && statusMessage == ""
      ensures summary == None && !collectionPending && !deletePending && invalidated == []
    {
      this.user := user;
      startDate := "";
      status := Idle;
      statusMessage := "";
      summary := None;
      collectionPending := false;
      deletePending := false;
      invalidated := [];
    }

    predicate HasData()
      reads this
    {
      HasAnyData(summary)
    }

    predicate RunButtonEnabled()
      reads this
    {
      RunEnabled(collectionPending, deletePending, HasData())
    }

    predicate DeleteButtonEnabled()
      reads this
    {
      DeleteEnabled(collectionPending, deletePending, HasData())
    }

    /** The status alert is rendered exactly when the status is not idle. */
    predicate StatusAlertShown()
      reads this
    {
      status != Idle
    }

    /** The data-management card holding the delete button exists only for
        an `ADM` user. */
    predicate DeleteControlShown()
      reads this
    {
      IsAdmin(user)
    }

    /** The `monitorSummary` query delivered new data (or none). */
    method SummaryArrived(s: Option<MonitorSummary>)
      requires Valid()
      modifies this
      ensures Valid()
      ensures summary == s
      ensures startDate == old(startDate) && status == old(status) && statusMessage == old(statusMessage)
      ensures collectionPending == old(collectionPending) && deletePending == old(deletePending)
      ensures invalidated == old(invalidated)
    {
      summary := s;
    }

    /** Typing in the date input; the input is disabled, and ignores typing,
        whenever the run button is. */
    method TypeStartDate(d: string)
      requires Valid()
      modifies this
      ensures Valid()
      ensures startDate == (if old(RunButtonEnabled()) then d else old(startDate))
      ensures status == old(status) && statusMessage == old(statusMessage) && summary == old(summary)
      ensures collectionPending == old(collectionPending) && deletePending == old(deletePending)
      ensures invalidated == old(invalidated)
    {
      if RunButtonEnabled() {
        startDate := d;
      }
    }

    /** `handleRunCollection` (reached only from the run button, so never
        while a deletion is pending). An empty date, or one the date library
        rejects, produces only a toast; otherwise the status becomes
        collecting before the request with the entered date is sent. */
    method HandleRunCollection(isValidDate: string -> bool) returns (outcome: RunOutcome)
      requires Valid()
      requires !deletePending
      modifies this
      ensures Valid()
      ensures startDate == "" ==> outcome == RunRefused(ErrorToast(MissingDateMessage))
      ensures startDate != "" && !isValidDate(startDate) ==> outcome == RunRefused(ErrorToast(InvalidDateMessage))
      ensures startDate != "" && isValidDate(startDate) ==> outcome == RunSent(RunRequest(startDate))
      ensures outcome.RunRefused? ==>
                status == old(status) && statusMessage == old(statusMessage)
                && collectionPending == old(collectionPending)
      ensures outcome.RunSent? ==>
                status == Collecting && statusMessage == StartingMessage && collectionPending
      ensures startDate == old(startDate) && summary == old(summary)
      ensures deletePending == old(deletePending) && invalidated == old(invalidated)
    {
      if startDate == "" {
        return RunRefused(ErrorToast(MissingDateMessage));
      }
      if !isValidDate(startDate) {
        return RunRefused(ErrorToast(InvalidDateMessage));
      }
      status := Collecting;
      statusMessage := StartingMessage;
      collectionPending := true;
      outcome := RunSent(RunRequest(startDate));
    }

    /** A click on the run button: a disabled button does nothing, an enabled
        one runs `handleRunCollection`. */
    method ClickRun(isValidDate: string -> bool) returns (outcome: Option<RunOutcome>)
      requires Valid()
      modifies this
      ensures Valid()
      ensures outcome.None? <==> !old(RunButtonEnabled())
      ensures outcome.None? ==>
                status == old(status) && statusMessage == old(statusMessage)
                && collectionPending == old(collectionPending)
      ensures old(RunButtonEnabled()) && startDate == "" ==>
                outcome == Some(RunRefused(ErrorToast(MissingDateMessage)))
      ensures old(RunButtonEnabled()) && startDate != "" && !isValidDate(startDate) ==>
                outcome == Some(RunRefused(ErrorToast(InvalidDateMessage)))
      ensures old(RunButtonEnabled()) && startDate != "" && isValidDate(startDate) ==>
                outcome == Some(RunSent(RunRequest(startDate)))
      ensures outcome.Some? && outcome.value.RunRefused? ==>
                status == old(status) && statusMessage == old(statusMessage)
                && collectionPending == old(collectionPending)
      ensures outcome.Some? && outcome.value.RunSent? ==>
                status == Collecting && statusMessage == StartingMessage
                && collectionPending && !deletePending
      ensures startDate == old(startDate) && summary == old(summary)
      ensures deletePending == old(deletePending) && invalidated == old(invalidated)
    {
      if !RunButtonEnabled() {
        return None;
      }
      var o := HandleRunCollection(isValidDate);
      outcome := Some(o);
    }

    /** `handleDeleteData` (reached only from the delete button, so never
        while a collection is pending): the delete mutation starts only when the user
        confirms the browser dialog. */
    method HandleDeleteData(confirmed: bool) returns (sent: bool)
      requires Valid()
      requires !collectionPending
      modifies this
      ensures Valid()
      ensures sent == confirmed
      ensures deletePending == (old(deletePending) || confirmed)
      ensures startDate == old(startDate) && status == old(status) && statusMessage == old(statusMessage)
      ensures summary == old(summary) && collectionPending == old(collectionPending)
      ensures invalidated == old(invalidated)
    {
      sent := confirmed;
      if confirmed {
        deletePending := true;
      }
    }

    /** A click on the delete button: it exists only for an `ADM` user and
        does nothing while disabled. */
    method ClickDelete(confirmed: bool) returns (sent: bool)
      requires Valid()
      modifies this
      ensures Valid()
      ensures sent <==> old(DeleteControlShown()) && old(DeleteButtonEnabled()) && confirmed
      ensures deletePending == (old(deletePending) || sent)
      ensures startDate == old(startDate) && status == old(status) && statusMessage == old(statusMessage)
      ensures summary == old(summary) && collectionPending == old(collectionPending)
      ensures invalidated == old(invalidated)
    {
      if !DeleteControlShown() || !DeleteButtonEnabled() {
        return false;
      }
      sent := HandleDeleteData(confirmed);
    }

    /** The collection mutation's `onSuccess`: status done, the backend's
        message (or the default), the three monitor queries invalidated. */
    method CollectionSucceeded(backendMessage: Option<string>) returns (toast: Toast)
      requires Valid()
      requires collectionPending
      modifies this
      ensures Valid()
      ensures status == Done && statusMessage == SuccessMessage(backendMessage)
      ensures toast == SuccessToast(statusMessage)
      ensures !collectionPending && deletePending == old(deletePending)
      ensures invalidated == old(invalidated) + MonitorQueryKeys
      ensures startDate == old(startDate) && summary == old(summary)
    {
      var message := SuccessMessage(backendMessage);
      statusMessage := message;
      toast := SuccessToast(message);
      invalidated := invalidated + MonitorQueryKeys;
      status := Done;
      collectionPending := false;
    }

    /** The collection mutation's `onError`: status error and the prefixed
        detail as message and toast. */
    method CollectionFailed(detail: Option<string>) returns (toast: Toast)
      requires Valid()
      requires collectionPending
      modifies this
      ensures Valid()
      ensures status == Error && statusMessage == FailureMessage(detail)
      ensures toast == ErrorToast(statusMessage)
      ensures !collectionPending && deletePending == old(deletePending)
      ensures invalidated == old(invalidated)
      ensures startDate == old(startDate) && summary == old(summary)
    {
      status := Error;
      statusMessage := FailureMessage(detail);
      toast := ErrorToast(statusMessage);
      collectionPending := false;
    }

    /** The delete mutation's `onSuccess`: the monitor queries are
        invalidated and the status returns to idle with an empty message,
        which hides the status alert. */
    method DeleteSucceeded() returns (toast: Toast)
      requires Valid()
      requires deletePending
      modifies this
      ensures Valid()
      ensures status == Idle && statusMessage == "" && !StatusAlertShown()
      ensures toast == SuccessToast(DeleteDoneMessage)
      ensures !deletePending && collectionPending == old(collectionPending)
      ensures invalidated == old(invalidated) + MonitorQueryKeys
      ensures startDate == old(startDate) && summary == old(summary)
    {
      toast := SuccessToast(DeleteDoneMessage);
      invalidated := invalidated + MonitorQueryKeys;
      status := Idle;
      statusMessage := "";
      deletePending := false;
    }

    /** The delete mutation's `onError`: only a toast; the status is kept. */
    method DeleteFailed(detail: Option<string>) returns (toast: Toast)
      requires Valid()
      requires deletePending
      modifies this
      ensures Valid()
      ensures toast == ErrorToast(OrElse(detail, DeleteErrorMessage))
      ensures status == old(status) && statusMessage == old(statusMessage)
      ensures !deletePending && collectionPending == old(collectionPending)
      ensures invalidated == old(invalidated)
      ensures startDate == old(startDate) && summary == old(summary)
    {
      toast := ErrorToast(OrElse(detail, DeleteErrorMessage));
      deletePending := false;
    }
  }
}
