/** The payment screen's view-model: four observers fold the outcomes of
    "fetch psychologist", "create transaction", "transaction status" and
    "cancel transaction" into its loading flag and five payload fields. */
module MidtransViewModels {
  import opened Results
  import opened Entities

  datatype MidtransScreenUiState = MidtransScreenUiState(isLoading: bool, success: bool, error: Option<string>)

  /** A repository call the view-model issues. */
  datatype MidtransCall =
    | GetPsychologistById(psychologistId: string)
    | CreateTransactionCall(price: int, itemId: string)
    | GetTransactionStatusCall(statusOrderId: string)
    | CancelTransactionCall(cancelOrderId: string)

  datatype MidtransState = MidtransState(
    ui: MidtransScreenUiState,
    orderId: Option<string>,
    redirectUrl: Option<string>,
    transactionStatus: Option<string>,
    transactionMessage: Option<string>,
    psychologistData: Option<Psychologist>,
    calls: seq<MidtransCall>)

  datatype MidtransEvent =
    | GetPsychologistData(psychologistId: string)
    | CreateTransaction(price: int, itemId: string)
    | GetTransactionStatus(orderId: string)
    | CancelTransaction(orderId: string)
    | PsychologistEmitted(psychologist: Result<Psychologist>)
    | TransactionCreated(created: Result<CreatedTransaction>)
    | StatusEmitted(status: Result<TransactionState>)
    | CancelEmitted(cancelled: Result<TransactionState>)

  function Initial(): (s: MidtransState)
    ensures s.ui == MidtransScreenUiState(true, false, None)
    ensures s.orderId == None && s.redirectUrl == None && s.transactionStatus == None
    ensures s.transactionMessage == None && s.psychologistData == None && s.calls == []
  {
    MidtransState(MidtransScreenUiState(true, false, None), None, None, None, None, None, [])
  }

  /** The loading flag after an emission: raised by `Loading`, lowered by
      either terminal outcome. Nothing else in the screen state is written. */
  function AfterEmission<T>(s: MidtransState, r: Result<T>): MidtransState {
    s.(ui := s.ui.(isLoading := r.Loading?))
  }

  /** A status or cancellation response's two fields. */
  function WithTransactionState(s: MidtransState, t: TransactionState): MidtransState {
    s.(transactionStatus := t.transactionStatus, transactionMessage := t.statusMessage)
  }

  function Step(s: MidtransState, e: MidtransEvent): MidtransState {
    match e
    case GetPsychologistData(id) => s.(calls := s.calls + [GetPsychologistById(id)])
    case CreateTransaction(p, item) => s.(calls := s.calls + [CreateTransactionCall(p, item)])
    case GetTransactionStatus(id) => s.(calls := s.calls + [GetTransactionStatusCall(id)])
    case CancelTransaction(id) => s.(calls := s.calls + [CancelTransactionCall(id)])
    case PsychologistEmitted(r) =>
      var t := AfterEmission(s, r);
      if r.Success? then t.(psychologistData := Some(r.data)) else t
    case TransactionCreated(r) =>
      var t := AfterEmission(s, r);
      if r.Success? then t.(orderId := r.data.orderId, redirectUrl := r.data.redirectUrl) else t
    case StatusEmitted(r) =>
      var t := AfterEmission(s, r);
      if r.Success? then WithTransactionState(t, r.data) else t
    case CancelEmitted(r) =>
      var t := AfterEmission(s, r);
      if r.Success? then WithTransactionState(t, r.data) else t
  }

  function Run(s: MidtransState, es: seq<MidtransEvent>): MidtransState
    decreases |es|
  {
    if es == [] then s else Step(Run(s, es[..|es| - 1]), es[|es| - 1])
  }

  lemma RunSnoc(s: MidtransState, es: seq<MidtransEvent>, e: MidtransEvent)
    ensures Run(s, es + [e]) == Step(Run(s, es), e)
  {
    assert (es + [e])[..|es|] == es;
  }

  /** An emission delivered to one of the four observers. */
  predicate IsEmission(e: MidtransEvent) {
    e.PsychologistEmitted? || e.TransactionCreated? || e.StatusEmitted? || e.CancelEmitted?
  }

  /** The repository call a public request issues. */
  function CallOf(e: MidtransEvent): MidtransCall
    requires !IsEmission(e)
  {
    match e
    case GetPsychologistData(id) => GetPsychologistById(id)
    case CreateTransaction(p, item) => CreateTransactionCall(p, item)
    case GetTransactionStatus(id) => GetTransactionStatusCall(id)
    case CancelTransaction(id) => CancelTransactionCall(id)
  }

  predicate EmissionLoading(e: MidtransEvent)
    requires IsEmission(e)
  {
    match e
    case PsychologistEmitted(r) => r.Loading?
    case TransactionCreated(r) => r.Loading?
    case StatusEmitted(r) => r.Loading?
    case CancelEmitted(r) => r.Loading?
  }

  predicate EmissionError(e: MidtransEvent)
    requires IsEmission(e)
  {
    match e
    case PsychologistEmitted(r) => r.Error?
    case TransactionCreated(r) => r.Error?
    case StatusEmitted(r) => r.Error?
    case CancelEmitted(r) => r.Error?
  }

  /** In all four observers: `Loading` raises the loading flag, `Success` and
      `Error` lower it; an `Error` changes nothing else (its message is only
      logged), and a `Loading` changes nothing else either. */
  lemma EmissionFlags(s: MidtransState, e: MidtransEvent)
    requires IsEmission(e)
    ensures Step(s, e).ui.isLoading <==> EmissionLoading(e)
    ensures EmissionLoading(e) || EmissionError(e) ==> Step(s, e) == s.(ui := s.ui.(isLoading := EmissionLoading(e)))
  {
  }

  /** The success payloads of the four observers. */
  lemma SuccessPayloads(s: MidtransState, p: Psychologist, c: CreatedTransaction, t: TransactionState)
    ensures Step(s, PsychologistEmitted(Success(p))) == s.(ui := s.ui.(isLoading := false), psychologistData := Some(p))
    ensures Step(s, TransactionCreated(Success(c))) == s.(ui := s.ui.(isLoading := false), orderId := c.orderId, redirectUrl := c.redirectUrl)
    ensures Step(s, StatusEmitted(Success(t))) == s.(ui := s.ui.(isLoading := false), transactionStatus := t.transactionStatus, transactionMessage := t.statusMessage)
    ensures Step(s, CancelEmitted(Success(t))) == Step(s, StatusEmitted(Success(t)))
  {
  }

  /** `success` and `error` keep their initial values forever: no event
      writes them. */
  lemma {:induction false} SuccessAndErrorNeverWritten(s: MidtransState, es: seq<MidtransEvent>)
    ensures Run(s, es).ui.success == s.ui.success && Run(s, es).ui.error == s.ui.error
    decreases |es|
  {
    if es != [] {
      SuccessAndErrorNeverWritten(s, es[..|es| - 1]);
    }
  }

  /** The order id and the redirect URL always come from the same created
      transaction (or are both still the initial ones). */
  lemma {:induction false} OrderAndRedirectPaired(s: MidtransState, es: seq<MidtransEvent>)
    ensures var t := Run(s, es);
      (t.orderId == s.orderId && t.redirectUrl == s.redirectUrl)
      || exists i :: 0 <= i < |es| && es[i].TransactionCreated? && es[i].created.Success?
           && t.orderId == es[i].created.data.orderId && t.redirectUrl == es[i].created.data.redirectUrl
    decreases |es|
  {
    if es != [] {
      var k := |es| - 1;
      var pre := es[..k];
      OrderAndRedirectPaired(s, pre);
      var b := Run(s, pre);
      var t := Run(s, es);
      if es[k].TransactionCreated? && es[k].created.Success? {
        assert t.orderId == es[k].created.data.orderId && t.redirectUrl == es[k].created.data.redirectUrl;
      } else {
        assert t.orderId == b.orderId && t.redirectUrl == b.redirectUrl;
        if !(b.orderId == s.orderId && b.redirectUrl == s.redirectUrl) {
          var i :| 0 <= i < |pre| && pre[i].TransactionCreated? && pre[i].created.Success?
            && b.orderId == pre[i].created.data.orderId && b.redirectUrl == pre[i].created.data.redirectUrl;
          assert es[i] == pre[i];
        }
      }
    }
  }

  /** Event `e` is a successful status or cancellation response carrying
      exactly this status and message. */
  predicate ReportsState(e: MidtransEvent, status: Option<string>, message: Option<string>) {
    (e.StatusEmitted? && e.status.Success? && TransactionState(status, message) == e.status.data)
    || (e.CancelEmitted? && e.cancelled.Success? && TransactionState(status, message) == e.cancelled.data)
  }

  /** The transaction status and message always come from the same status or
      cancellation response (or are both still the initial ones). */
  lemma {:induction false} StatusAndMessagePaired(s: MidtransState, es: seq<MidtransEvent>)
    ensures var t := Run(s, es);
      (t.transactionStatus == s.transactionStatus && t.transactionMessage == s.transactionMessage)
      || exists i :: 0 <= i < |es| && ReportsState(es[i], t.transactionStatus, t.transactionMessage)
    decreases |es|
  {
    if es != [] {
      var k := |es| - 1;
      var pre := es[..k];
      StatusAndMessagePaired(s, pre);
      var b := Run(s, pre);
      var t := Run(s, es);
      if (es[k].StatusEmitted? && es[k].status.Success?) || (es[k].CancelEmitted? && es[k].cancelled.Success?) {
        assert ReportsState(es[k], t.transactionStatus, t.transactionMessage);
      } else {
        assert t.transactionStatus == b.transactionStatus && t.transactionMessage == b.transactionMessage;
        if !(b.transactionStatus == s.transactionStatus && b.transactionMessage == s.transactionMessage) {
          var i :| 0 <= i < |pre| && ReportsState(pre[i], b.transactionStatus, b.transactionMessage);
          assert es[i] == pre[i];
        }
      }
    }
  }

  class MidtransViewModel {
    var uiState: MidtransScreenUiState
    var orderId: Option<string>
    var redirectUrl: Option<string>
    var transactionStatus: Option<string>
    var transactionMessage: Option<string>
    var psychologistData: Option<Psychologist>
    var calls: seq<MidtransCall>
    ghost var history: seq<MidtransEvent>

    function State(): MidtransState
      reads this
    {
      MidtransState(uiState, orderId, redirectUrl, transactionStatus, transactionMessage, psychologistData, calls)
    }

    ghost predicate Valid()
      reads this
    {
      State() == Run(Initial(), history)
    }

    constructor()
      ensures Valid() && history == []
      ensures uiState == MidtransScreenUiState(true, false, None)
      ensures orderId == None && redirectUrl == None && transactionStatus == None
      ensures transactionMessage == None && psychologistData == None && calls == []
    {
      uiState := MidtransScreenUiState(true, false, None);
      orderId, redirectUrl, transactionStatus, transactionMessage := None, None, None, None;
      psychologistData := None;
      calls := [];
      history := [];
    }

    method Record(ghost before: MidtransState, e: MidtransEvent)
      requires before == Run(Initial(), history)
      requires State() == Step(before, e)
      modifies this`history
      ensures Valid() && history == old(history) + [e]
    {
      RunSnoc(Initial(), history, e);
      history := history + [e];
    }

    /** Issue one repository call; the observer's emissions arrive later. */
    method Request(e: MidtransEvent)
      requires Valid() && !IsEmission(e)
      modifies this
      ensures Valid() && history == old(history) + [e]
      ensures calls == old(calls) + [CallOf(e)]
      ensures uiState == old(uiState) && orderId == old(orderId) && redirectUrl == old(redirectUrl)
      ensures transactionStatus == old(transactionStatus) && transactionMessage == old(transactionMessage)
      ensures psychologistData == old(psychologistData)
    {
      ghost var before := State();
      match e {
        case GetPsychologistData(id) => calls := calls + [GetPsychologistById(id)];
        case CreateTransaction(p, item) => calls := calls + [CreateTransactionCall(p, item)];
        case GetTransactionStatus(id) => calls := calls + [GetTransactionStatusCall(id)];
        case CancelTransaction(id) => calls := calls + [CancelTransactionCall(id)];
      }
      Record(before, e);
    }

    /** The observer of `getPsychologistData`. */
    method OnPsychologist(r: Result<Psychologist>)
      requires Valid()
      modifies this
      ensures Valid() && history == old(history) + [PsychologistEmitted(r)]
      ensures uiState == old(uiState).(isLoading := r.Loading?)
      ensures psychologistData == (if r.Success? then Some(r.data) else old(psychologistData))
      ensures orderId == old(orderId) && redirectUrl == old(redirectUrl) && calls == old(calls)
      ensures transactionStatus == old(transactionStatus) && transactionMessage == old(transactionMessage)
    {
      ghost var before := State();
      match r {
        case Loading => uiState := uiState.(isLoading := true);
        case Success(p) =>
          uiState := uiState.(isLoading := false);
          psychologistData := Some(p);
        case Error(_) => uiState := uiState.(isLoading := false);
      }
      Record(before, PsychologistEmitted(r));
    }

    /** The observer of `createTransaction`. */
    method OnTransactionCreated(r: Result<CreatedTransaction>)
      requires Valid()
      modifies this
      ensures Valid() && history == old(history) + [TransactionCreated(r)]
      ensures uiState == old(uiState).(isLoading := r.Loading?)
      ensures orderId == (if r.Success? then r.data.orderId else old(orderId))
      ensures redirectUrl == (if r.Success? then r.data.redirectUrl else old(redirectUrl))
      ensures psychologistData == old(psychologistData) && calls == old(calls)
      ensures transactionStatus == old(transactionStatus) && transactionMessage == old(transactionMessage)
    {
      ghost var before := State();
      match r {
        case Loading => uiState := uiState.(isLoading := true);
        case Success(c) =>
          uiState := uiState.(isLoading := false);
          orderId := c.orderId;
          redirectUrl := c.redirectUrl;
        case Error(_) => uiState := uiState.(isLoading := false);
      }
      Record(before, TransactionCreated(r));
    }

    /** The observers of `getTransactionStatus` (`cancelled` false) and
        `cancelTransaction` (`cancelled` true), which have the same body. */
    method OnTransactionState(cancelled: bool, r: Result<TransactionState>)
      requires Valid()
      modifies this
      ensures Valid() && history == old(history) + [if cancelled then CancelEmitted(r) else StatusEmitted(r)]
      ensures uiState == old(uiState).(isLoading := r.Loading?)
      ensures transactionStatus == (if r.Success? then r.data.transactionStatus else old(transactionStatus))
      ensures transactionMessage == (if r.Success? then r.data.statusMessage else old(transactionMessage))
      ensures orderId == old(orderId) && redirectUrl == old(redirectUrl)
      ensures psychologistData == old(psychologistData) && calls == old(calls)
    {
      ghost var before := State();
      match r {
        case Loading => uiState := uiState.(isLoading := true);
        case Success(t) =>
          uiState := uiState.(isLoading := false);
          transactionStatus := t.transactionStatus;
          transactionMessage := t.statusMessage;
        case Error(_) => uiState := uiState.(isLoading := false);
      }
      Record(before, if cancelled then CancelEmitted(r) else StatusEmitted(r));
    }
  }
}
