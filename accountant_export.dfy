/** The monthly delivery of the bank's official statements (PDF and OFX) to the accountant, in its
    three copies: the manual "send now" button of the accountant screen, the automatic run the
    dashboard makes from the fifth day of a month on, and the scheduled job of the webhook server.
    Each delivery writes one `envios_contador` row, `sucesso` or `falha` by the mailer's answer,
    and none when the bank export raises. The bank export and the mailer are parameters; today's
    date and the current timestamp are parameters too.

    The manual button records the month as `MM/YYYY` while both automatic copies look for
    `YYYY-MM`, so a manual delivery never stops the automatic one (`ManualSendAsWritten`,
    `ManualRecordInvisibleToGate`); `ManualSend` records the `YYYY-MM` key instead. */
module AccountantExport {
  import opened Wrappers
  import opened Calendar
  import opened Tables
  import Ledger

  const EmailKey := "EMAIL_CONTADOR"
  const Robot := "Robô Automático"
  const Worker := "Worker Automático"
  const Pdf := "PDF"
  const Ofx := "OFX"
  /** The automatic run in the dashboard waits for this day of the month. */
  const FirstSendDay := 5

  /** `InterClient().get_extrato_export(data_inicio, data_fim, tipo_arquivo)`: the base64 file, or
      the exception the client raises. */
  type Exporter = (string, string, string) -> Result<string>

  /** `send_accountant_email(to, mes_referencia, ofx_b64, pdf_b64)`'s success flag (the mailer
      catches its own SMTP errors and reports success when no SMTP credentials are set). */
  type Mailer = (string, string, string, string) -> bool

  /** What one run did. */
  datatype Outcome =
    | NoEmail
    | TooEarly
    | AlreadySent
    | ClockOverflow
    | ExportFailed(error: Error)
    | Recorded(status: string)

  /** `env.get("EMAIL_CONTADOR", "")`. */
  function AccountantEmail(env: map<string, string>): string
  {
    if EmailKey in env then env[EmailKey] else ""
  }

  /** In January of year 1, `first_of_month - timedelta(days=1)` overflows. */
  predicate InFirstMonth(today: Date)
  {
    today.year == 1 && today.month == 1
  }

  /** The `YYYY-MM` key of the month before today's (`strftime("%Y-%m")`). */
  function PreviousMonthKey(today: Date): string
    requires Valid(today) && !InFirstMonth(today)
  {
    var (y, m) := PreviousMonth(today.year, today.month);
    IsoMonth(y, m)
  }

  /** The first and last day of a month as ISO dates. */
  function MonthBounds(y: int, m: int): (string, string)
    requires 1 <= y <= 9999 && 1 <= m <= 12
  {
    (Iso(Date(y, m, 1)), Iso(Date(y, m, DaysInMonth(y, m))))
  }

  /** Fetching both files and mailing them: the first failing export, or the row status. */
  function Delivery(exporter: Exporter, mail: Mailer, email: string, bounds: (string, string), mailLabel: string): Outcome
  {
    var pdf := exporter(bounds.0, bounds.1, Pdf);
    if pdf.Err? then ExportFailed(pdf.error)
    else
      var ofx := exporter(bounds.0, bounds.1, Ofx);
      if ofx.Err? then ExportFailed(ofx.error)
      else Recorded(if mail(email, mailLabel, ofx.value, pdf.value) then Sucesso else Falha)
  }

  /** A delivery records a row exactly when both exports succeed, and `sucesso` exactly when the
      mailer confirms; an export failure stops before the second export or the mail. */
  lemma DeliveryOutcomes(exporter: Exporter, mail: Mailer, email: string, bounds: (string, string), mailLabel: string)
    ensures var o := Delivery(exporter, mail, email, bounds, mailLabel);
      (o.Recorded? <==> exporter(bounds.0, bounds.1, Pdf).Ok? && exporter(bounds.0, bounds.1, Ofx).Ok?) &&
      (o.Recorded? ==> o.status in {Sucesso, Falha}) &&
      (o == Recorded(Sucesso) <==>
        o.Recorded? && mail(email, mailLabel, exporter(bounds.0, bounds.1, Ofx).value, exporter(bounds.0, bounds.1, Pdf).value)) &&
      (!o.Recorded? ==> o.ExportFailed?)
  {
  }

  /** The part the three copies share: both exports, the mail, one row. */
  method ExportAndRecord(db: Ledger.LedgerStore, email: string, bounds: (string, string), mailLabel: string,
                         recordKey: string, now: string, sender: string, exporter: Exporter, mail: Mailer)
    returns (o: Outcome)
    modifies db`envios
    ensures o == Delivery(exporter, mail, email, bounds, mailLabel)
    ensures !o.Recorded? ==> db.envios == old(db.envios)
    ensures o.Recorded? ==> db.envios == old(db.envios) + [Envio(recordKey, now, o.status, sender)]
  {
    var pdf := exporter(bounds.0, bounds.1, Pdf);
    if pdf.Err? {
      return ExportFailed(pdf.error);
    }
    var ofx := exporter(bounds.0, bounds.1, Ofx);
    if ofx.Err? {
      return ExportFailed(ofx.error);
    }
    var status := if mail(email, mailLabel, ofx.value, pdf.value) then Sucesso else Falha;
    var _ := db.RecordAccountantExport(recordKey, now, status, sender);
    o := Recorded(status);
  }

  /** The gated tail of both automatic copies: skip a month that already has a `sucesso` row,
      otherwise build the month range from the `YYYY-MM` key and deliver. */
  method GatedDelivery(db: Ledger.LedgerStore, email: string, today: Date, now: string, sender: string,
                       exporter: Exporter, mail: Mailer) returns (o: Outcome)
    requires Valid(today) && !InFirstMonth(today)
    modifies db`envios
    ensures var (y, m) := PreviousMonth(today.year, today.month);
      var key := IsoMonth(y, m);
      (HasSent(old(db.envios), key) ==> o == AlreadySent) &&
      (!HasSent(old(db.envios), key) ==> o == Delivery(exporter, mail, email, MonthBounds(y, m), key)) &&
      (!o.Recorded? ==> db.envios == old(db.envios)) &&
      (o.Recorded? ==> db.envios == old(db.envios) + [Envio(key, now, o.status, sender)])
  {
    var (y, m) := PreviousMonth(today.year, today.month);
    var key := IsoMonth(y, m);
    if db.HasSentExportForMonth(key) {
      return AlreadySent;
    }
    MonthRanges(y, m);
    var bounds := RangeFromIsoMonth(key);
    o := ExportAndRecord(db, email, bounds, key, key, now, sender, exporter, mail);
  }

  /** `auto_send_accountant_export` (dashboard): nothing without an accountant e-mail or before the
      fifth; then the gated delivery of the previous month, recorded as the robot. */
  method AutoSend(db: Ledger.LedgerStore, env: map<string, string>, today: Date, now: string,
                  exporter: Exporter, mail: Mailer) returns (o: Outcome)
    requires Valid(today)
    modifies db`envios
    ensures AccountantEmail(env) == "" ==> o == NoEmail
    ensures AccountantEmail(env) != "" && today.day < FirstSendDay ==> o == TooEarly
    ensures AccountantEmail(env) != "" && today.day >= FirstSendDay && InFirstMonth(today) ==> o == ClockOverflow
    ensures AccountantEmail(env) != "" && today.day >= FirstSendDay && !InFirstMonth(today) ==>
      var (y, m) := PreviousMonth(today.year, today.month);
      var key := IsoMonth(y, m);
      (HasSent(old(db.envios), key) ==> o == AlreadySent) &&
      (!HasSent(old(db.envios), key) ==> o == Delivery(exporter, mail, AccountantEmail(env), MonthBounds(y, m), key))
    ensures !o.Recorded? ==> db.envios == old(db.envios)
    ensures o.Recorded? ==> (!InFirstMonth(today) &&
      db.envios == old(db.envios) + [Envio(PreviousMonthKey(today), now, o.status, Robot)])
  {
    var email := AccountantEmail(env);
    if email == "" {
      return NoEmail;
    }
    if today.day < FirstSendDay {
      return TooEarly;
    }
    if InFirstMonth(today) {
      return ClockOverflow;
    }
    o := GatedDelivery(db, email, today, now, Robot, exporter, mail);
  }

  /** `auto_send_accountant_export_job` (webhook server): the same without the day-of-month check,
      recorded as the worker. */
  method ScheduledJob(db: Ledger.LedgerStore, env: map<string, string>, today: Date, now: string,
                      exporter: Exporter, mail: Mailer) returns (o: Outcome)
    requires Valid(today)
    modifies db`envios
    ensures AccountantEmail(env) == "" ==> o == NoEmail
    ensures AccountantEmail(env) != "" && InFirstMonth(today) ==> o == ClockOverflow
    ensures AccountantEmail(env) != "" && !InFirstMonth(today) ==>
      var (y, m) := PreviousMonth(today.year, today.month);
      var key := IsoMonth(y, m);
      (HasSent(old(db.envios), key) ==> o == AlreadySent) &&
      (!HasSent(old(db.envios), key) ==> o == Delivery(exporter, mail, AccountantEmail(env), MonthBounds(y, m), key))
    ensures !o.Recorded? ==> db.envios == old(db.envios)
    ensures o.Recorded? ==> (!InFirstMonth(today) &&
      db.envios == old(db.envios) + [Envio(PreviousMonthKey(today), now, o.status, Worker)])
  {
    var email := AccountantEmail(env);
    if email == "" {
      return NoEmail;
    }
    if InFirstMonth(today) {
      return ClockOverflow;
    }
    o := GatedDelivery(db, email, today, now, Worker, exporter, mail);
  }

  /** The gate sends a month at most once successfully: after a `sucesso` row the next run of either
      copy in that month skips, while a `falha` row (or no row) leaves it to retry. */
  lemma ExportOnce(rows: seq<Envio>, key: string, now: string, sender: string, status: string)
    requires status in {Sucesso, Falha}
    ensures status == Sucesso ==> HasSent(rows + [Envio(key, now, status, sender)], key)
    ensures status == Falha ==> HasSent(rows + [Envio(key, now, status, sender)], key) == HasSent(rows, key)
  {
    AppendEnvioEffect(rows, Envio(key, now, status, sender), key);
  }

  // ---------------------------------------------------------------------------
  // The manual button

  /** The two months the form offers: the current one and the previous one. */
  function SelectedMonth(today: Date, previous: bool): (r: (int, int))
    requires Valid(today) && !InFirstMonth(today)
    ensures 1 <= r.0 <= 9999 && 1 <= r.1 <= 12
  {
    if previous then PreviousMonth(today.year, today.month) else (today.year, today.month)
  }

  /** The manual button as written: the range and the mail use the `MM/YYYY` label, and the row
      records the label too. */
  method ManualSendAsWritten(db: Ledger.LedgerStore, env: map<string, string>, today: Date, previous: bool,
                             now: string, userName: string, exporter: Exporter, mail: Mailer)
    returns (o: Outcome)
    requires Valid(today)
    modifies db`envios
    ensures InFirstMonth(today) ==> o == ClockOverflow
    ensures !InFirstMonth(today) && AccountantEmail(env) == "" ==> o == NoEmail
    ensures !InFirstMonth(today) && AccountantEmail(env) != "" ==>
      var (y, m) := SelectedMonth(today, previous);
      o == Delivery(exporter, mail, AccountantEmail(env), MonthBounds(y, m), SlashMonth(y, m))
    ensures !o.Recorded? ==> db.envios == old(db.envios)
    ensures o.Recorded? ==> (!InFirstMonth(today) &&
      var (y, m) := SelectedMonth(today, previous);
      db.envios == old(db.envios) + [Envio(SlashMonth(y, m), now, o.status, userName)])
  {
    if InFirstMonth(today) {
      return ClockOverflow;
    }
    var (y, m) := SelectedMonth(today, previous);
    var monthLabel := SlashMonth(y, m);
    var email := AccountantEmail(env);
    if email == "" {
      return NoEmail;
    }
    MonthRanges(y, m);
    var bounds := RangeFromSlashMonth(monthLabel);
    o := ExportAndRecord(db, email, bounds, monthLabel, monthLabel, now, userName, exporter, mail);
  }

  /** A manual `sucesso` row, as written, never satisfies the automatic gate, for any month: the
      third character of `MM/YYYY` is '/', that of `YYYY-MM` a digit. */
  lemma ManualRecordInvisibleToGate(rows: seq<Envio>, y: int, m: int, y2: int, m2: int, now: string, sender: string)
    requires 1 <= y <= 9999 && 1 <= m <= 12 && 1 <= y2 <= 9999 && 1 <= m2 <= 12
    ensures HasSent(rows + [Envio(SlashMonth(y, m), now, Sucesso, sender)], IsoMonth(y2, m2)) == HasSent(rows, IsoMonth(y2, m2))
  {
    assert IsoMonth(y2, m2)[2] == Text.Pad(y2, 4)[2];
    assert Text.IsDigit(IsoMonth(y2, m2)[2]);
    assert SlashMonth(y, m) != IsoMonth(y2, m2);
    AppendEnvioEffect(rows, Envio(SlashMonth(y, m), now, Sucesso, sender), IsoMonth(y2, m2));
  }

  /** A concrete case: May 2024 sent by hand on 1 June, yet the automatic run of 5 June finds no
      delivery for "2024-05" and sends May again. */
  lemma ManualThenAutomaticSendsTwice()
    ensures var rows := [Envio(SlashMonth(2024, 5), "2024-06-01 10:00:00", Sucesso, "admin")];
      var today := Date(2024, 6, 5);
      Valid(today) && !InFirstMonth(today) && today.day >= FirstSendDay &&
      PreviousMonthKey(today) == IsoMonth(2024, 5) && !HasSent(rows, PreviousMonthKey(today))
  {
    ManualRecordInvisibleToGate([], 2024, 5, 2024, 5, "2024-06-01 10:00:00", "admin");
    assert [] + [Envio(SlashMonth(2024, 5), "2024-06-01 10:00:00", Sucesso, "admin")]
      == [Envio(SlashMonth(2024, 5), "2024-06-01 10:00:00", Sucesso, "admin")];
  }

  /** The manual button recording the `YYYY-MM` key the gate queries. */
  method ManualSend(db: Ledger.LedgerStore, env: map<string, string>, today: Date, previous: bool,
                    now: string, userName: string, exporter: Exporter, mail: Mailer)
    returns (o: Outcome)
    requires Valid(today)
    modifies db`envios
    ensures InFirstMonth(today) ==> o == ClockOverflow
    ensures !InFirstMonth(today) && AccountantEmail(env) == "" ==> o == NoEmail
    ensures !InFirstMonth(today) && AccountantEmail(env) != "" ==>
      var (y, m) := SelectedMonth(today, previous);
      o == Delivery(exporter, mail, AccountantEmail(env), MonthBounds(y, m), SlashMonth(y, m))
    ensures !o.Recorded? ==> db.envios == old(db.envios)
    ensures o.Recorded? ==> (!InFirstMonth(today) &&
      var (y, m) := SelectedMonth(today, previous);
      db.envios == old(db.envios) + [Envio(IsoMonth(y, m), now, o.status, userName)])
    ensures o == Recorded(Sucesso) ==> (!InFirstMonth(today) &&
      var (y, m) := SelectedMonth(today, previous);
      HasSent(db.envios, IsoMonth(y, m)))
  {
    if InFirstMonth(today) {
      return ClockOverflow;
    }
    var (y, m) := SelectedMonth(today, previous);
    var monthLabel := SlashMonth(y, m);
    var email := AccountantEmail(env);
    if email == "" {
      return NoEmail;
    }
    MonthRanges(y, m);
    var bounds := RangeFromSlashMonth(monthLabel);
    var key := IsoMonth(y, m);
    o := ExportAndRecord(db, email, bounds, monthLabel, key, now, userName, exporter, mail);
    if o.Recorded? {
      ExportOnce(old(db.envios), key, now, userName, o.status);
    }
  }

  /** With the `YYYY-MM` key, a manual success for a month stops the automatic copies on every later
      day whose previous month it is. */
  lemma ManualSuccessSatisfiesGate(rows: seq<Envio>, y: int, m: int, today: Date, now: string, sender: string)
    requires 1 <= y <= 9999 && 1 <= m <= 12
    requires Valid(today) && !InFirstMonth(today) && PreviousMonth(today.year, today.month) == (y, m)
    ensures HasSent(rows + [Envio(IsoMonth(y, m), now, Sucesso, sender)], PreviousMonthKey(today))
  {
    AppendEnvioEffect(rows, Envio(IsoMonth(y, m), now, Sucesso, sender), IsoMonth(y, m));
  }
}
