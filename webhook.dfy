/** The `/asaas-webhook` endpoint: on a `PAYMENT_RECEIVED` event, check the gateway balance, move
    the payment's net value to the bank by Pix when the balance covers it, and then record the net
    income as a transaction. The gateway client, the ledger and the environment are parameters;
    the HTTP status code is the result. */
module Webhook {
  import opened Wrappers
  import opened Asaas
  import Ledger
  import Tables

  const PaymentReceived := "PAYMENT_RECEIVED"
  const PixKeyVar := "INTER_PIX_KEY"
  const PixKeyTypeVar := "INTER_PIX_KEY_TYPE"
  const AsaasOrigin := "ASAAS"
  const DescriptionPrefix := "Auto-Transfer for Payment "

  /** A non-empty JSON body: its `event` and its `payment` (absent is `None`). */
  datatype Event = Event(event: Option<string>, payment: Option<Payment>)

  /** `data.get('payment', {})` when the field is absent. */
  const EmptyPayment := Payment(None, None, None, None, None, None, Absent, None, None, None, None, None)

  function PaymentOf(e: Event): Payment
  {
    e.payment.GetOr(EmptyPayment)
  }

  /** `float(payment.get('netValue', 0.0))`. */
  function NetValue(p: Payment): real
  {
    p.netValue.GetOr(0.0)
  }

  /** `paymentDate or clientPaymentDate`. */
  function PaymentDate(p: Payment): Option<string>
  {
    if Truthy(p.paymentDate) then p.paymentDate else p.clientPaymentDate
  }

  /** `os.getenv(name)`. */
  function Getenv(env: map<string, string>, name: string): Option<string>
  {
    if name in env then Some(env[name]) else None
  }

  /** The body is a payment-received event. */
  predicate Handles(body: Option<Event>)
  {
    body.Some? && body.value.event == Some(PaymentReceived)
  }

  /** A payment-received event with a Pix key configured: the balance is consulted. */
  predicate Armed(env: map<string, string>, body: Option<Event>)
  {
    Handles(body) && Truthy(Getenv(env, PixKeyVar))
  }

  /** What `get_balance` answers, by the client's configuration and the gateway. */
  function BalanceAnswer(configured: bool, api: Gateway): Result<real>
  {
    if !configured then Err(MissingKey)
    else match api.balance
      case Err(e) => Err(e)
      case Ok(b) => Ok(b.GetOr(0.0))
  }

  /** The balance covers the net value: the transfer is due. */
  predicate TransferDue(configured: bool, api: Gateway, env: map<string, string>, body: Option<Event>)
  {
    Armed(env, body) && BalanceAnswer(configured, api).Ok? &&
    BalanceAnswer(configured, api).value >= NetValue(PaymentOf(body.value))
  }

  /** The transfer sent for a payment: exactly its net value, to the configured key. */
  function Payload(env: map<string, string>, body: Option<Event>): TransferPayload
    requires Armed(env, body)
  {
    var p := PaymentOf(body.value);
    TransferPayload(NetValue(p), Getenv(env, PixKeyVar).value, Getenv(env, PixKeyTypeVar),
                    DescriptionPrefix + Tables.PyStr(p.id), "PIX")
  }

  /** The gateway requests one event causes: the balance query once armed with a configured client,
      then the transfer when it is due. */
  function WebhookRequests(configured: bool, api: Gateway, env: map<string, string>, body: Option<Event>): seq<Request>
  {
    (if Armed(env, body) && configured then [BalanceRequest] else []) +
    (if TransferDue(configured, api, env, body) then [TransferRequest(Payload(env, body))] else [])
  }

  /** A transfer is requested only when the balance covers the net value, and is for exactly the net
      value; nothing at all is requested without a payment-received event and a Pix key. */
  lemma TransferOnlyWhenCovered(configured: bool, api: Gateway, env: map<string, string>, body: Option<Event>, t: TransferPayload)
    ensures TransferRequest(t) in WebhookRequests(configured, api, env, body) <==>
      TransferDue(configured, api, env, body) && t == Payload(env, body)
    ensures TransferRequest(t) in WebhookRequests(configured, api, env, body) ==>
      BalanceAnswer(configured, api).value >= t.value && t.value == NetValue(PaymentOf(body.value))
    ensures !Armed(env, body) ==> WebhookRequests(configured, api, env, body) == []
  {
  }

  /** `asaas_webhook`. */
  method AsaasWebhook(asaas: AsaasClient, db: Ledger.LedgerStore, api: Gateway, env: map<string, string>, body: Option<Event>)
    returns (status: int)
    requires db.Valid()
    modifies asaas`log, db`transacoes
    ensures db.Valid()
    ensures body.None? ==> status == 400
    ensures body.Some? && !Handles(body) ==> status == 200
    ensures Handles(body) && !Armed(env, body) ==> status == 500
    ensures Armed(env, body) && BalanceAnswer(asaas.Configured(), api).Err? ==> status == 500
    ensures asaas.log == old(asaas.log) + WebhookRequests(asaas.Configured(), api, env, body)
    ensures (Armed(env, body) && BalanceAnswer(asaas.Configured(), api).Ok? &&
      !TransferDue(asaas.Configured(), api, env, body)) ==> status == 200
    ensures TransferDue(asaas.Configured(), api, env, body) && api.transfer(Payload(env, body)).Err? ==> status == 500
    ensures TransferDue(asaas.Configured(), api, env, body) && api.transfer(Payload(env, body)).Ok? ==>
      var p := PaymentOf(body.value);
      var placa := Tables.AttributedPlate(db.locacoes, p.cpfCnpj, PaymentDate(p), None);
      var ok := PaymentDate(p).Some? && (placa.None? || placa.value in db.motos);
      (ok ==> var row := Tables.Transacao(AsaasOrigin, Tables.EntradaLiquida, NetValue(p), PaymentDate(p).value, Tables.Pago, p.cpfCnpj, placa);
        status == 200 && db.transacoes == old(db.transacoes) + [row]) &&
      (!ok ==> status == 500 && db.transacoes == old(db.transacoes))
    ensures !(TransferDue(asaas.Configured(), api, env, body) && api.transfer(Payload(env, body)).Ok?) ==>
      db.transacoes == old(db.transacoes)
  {
    if body.None? {
      return 400;
    }
    if body.value.event != Some(PaymentReceived) {
      return 200;
    }
    var p := PaymentOf(body.value);
    var net := NetValue(p);
    var paymentDate := PaymentDate(p);
    var pixKey := Getenv(env, PixKeyVar);
    var pixKeyType := Getenv(env, PixKeyTypeVar);
    if !Truthy(pixKey) {
      return 500;
    }
    var balance := asaas.GetBalance(api);
    if balance.Err? {
      return 500;
    }
    if balance.value >= net {
      var transfer := asaas.CreatePixTransfer(api, pixKey.value, pixKeyType, net, DescriptionPrefix + Tables.PyStr(p.id));
      if transfer.Err? {
        return 500;
      }
      var recorded := db.AddTransaction(AsaasOrigin, Tables.EntradaLiquida, net, paymentDate, cpf := p.cpfCnpj);
      if recorded.Err? {
        return 500;
      }
    }
    status := 200;
  }
}
