/** The ledger's MySQL tables as values, and the table operations of `DatabaseManager` as
    functions over them. The `LedgerStore` class (module `Ledger`) applies these functions to its
    fields; the properties of the operations are proved here. */
module Tables {
  import opened Wrappers
  import opened Text
  import Calendar
  import Asaas

  const Disponivel := "Disponível"
  const Alugado := "Alugado"
  const Pago := "pago"
  const Sucesso := "sucesso"
  const Falha := "falha"
  const Sistema := "Sistema"

  /** A stored file: raw content, file name and MIME type (`*_file`, `*_name`, `*_type`). */
  datatype Attachment = Attachment(file: Option<string>, name: Option<string>, mime: Option<string>)

  const NoAttachment := Attachment(None, None, None)

  /** The non-file columns of `motos` that `add_moto` and `update_moto` write. */
  datatype MotoData = MotoData(
    modelo: Option<string>, dataCompra: Option<string>, valorCompra: Option<real>,
    despesas: Option<real>, manutencao: Option<string>, revisao: Option<string>,
    trocaOleo: Option<string>, disponibilidade: Option<string>, locatario: Option<string>,
    odometro: real)

  /** A `motos` row (keyed by `placa` in the table map). */
  datatype Moto = Moto(data: MotoData, doc: Attachment, ipva: Attachment, crlv: Attachment)

  /** A `locatarios` row. */
  datatype Locatario = Locatario(
    nome: string, cpf: string, endereco: Option<string>, telefone: Option<string>,
    email: Option<string>, cnh: Option<string>, placaAssociada: Option<string>, cnhFile: Attachment)

  /** A `locacoes` row: dates are the `YYYY-MM-DD` strings the table stores. */
  datatype Locacao = Locacao(cpf: string, placa: string, inicio: string, fim: Option<string>)

  /** The `tipo` values of a `transacoes` row. */
  const Entrada := "entrada"
  const EntradaLiquida := "entrada_liquida"
  const Saida := "saida"

  /** Money coming in: `entrada` and the webhook's `entrada_liquida`. */
  predicate IsIncomeType(tipo: string)
  {
    tipo == Entrada || tipo == EntradaLiquida
  }

  /** A `transacoes` row. */
  datatype Transacao = Transacao(
    origem: string, tipo: string, valor: real, data: string, status: string,
    cpf: Option<string>, placa: Option<string>)

  /** An `envios_contador` row. */
  datatype Envio = Envio(mes: string, dataEnvio: string, status: string, enviadoPor: string)

  /** A `usuarios` row. */
  datatype Usuario = Usuario(
    nome: string, username: string, email: Option<string>, senhaHash: string,
    papel: string, status: string, permissoes: Option<string>)

  // ---------------------------------------------------------------------------
  // configuracoes

  /** `get_config`: the stored value, or `default` when the key is absent. */
  function ConfigValue(configs: map<string, string>, key: string, default: Option<string>): (r: Option<string>)
    ensures key in configs ==> r == Some(configs[key])
    ensures key !in configs ==> r == default
  {
    if key in configs then Some(configs[key]) else default
  }

  /** `set_config` is an insert-or-update: the key reads back the new value and no other key changes. */
  lemma SetConfigThenGet(configs: map<string, string>, key: string, value: string, other: string, default: Option<string>)
    ensures ConfigValue(configs[key := value], key, default) == Some(value)
    ensures other != key ==> ConfigValue(configs[key := value], other, default) == ConfigValue(configs, other, default)
  {
  }

  // ---------------------------------------------------------------------------
  // motos

  /** The file triple `update_moto` writes: replaced when a file or a name is given, else kept. */
  function UpdatedAttachment(current: Attachment, file: Option<string>, name: Option<string>, mime: Option<string>): (a: Attachment)
    ensures (file.Some? || name.Some?) ==> a == Attachment(file, name, mime)
    ensures (file.None? && name.None?) ==> a == current
  {
    if file.Some? || name.Some? then Attachment(file, name, mime) else current
  }

  // ---------------------------------------------------------------------------
  // locatarios <-> motos

  /** `UPDATE locatarios SET placa_associada = NULL WHERE placa_associada = placa`. */
  function ClearPlate(locs: seq<Locatario>, placa: string): (r: seq<Locatario>)
    ensures |r| == |locs|
    ensures forall i :: 0 <= i < |locs| ==>
      r[i] == if locs[i].placaAssociada == Some(placa) then locs[i].(placaAssociada := None) else locs[i]
  {
    seq(|locs|, i requires 0 <= i < |locs| =>
      if locs[i].placaAssociada == Some(placa) then locs[i].(placaAssociada := None) else locs[i])
  }

  /** `UPDATE locatarios SET placa_associada = placa WHERE nome = nome`. */
  function LinkPlate(locs: seq<Locatario>, nome: string, placa: string): (r: seq<Locatario>)
    ensures |r| == |locs|
    ensures forall i :: 0 <= i < |locs| ==>
      r[i] == if locs[i].nome == nome then locs[i].(placaAssociada := Some(placa)) else locs[i]
  {
    seq(|locs|, i requires 0 <= i < |locs| =>
      if locs[i].nome == nome then locs[i].(placaAssociada := Some(placa)) else locs[i])
  }

  /** `UPDATE motos SET locatario = ..., disponibilidade = ... WHERE placa = placa`. */
  function SetRenter(motos: map<string, Moto>, placa: string, locatario: Option<string>, status: string): (r: map<string, Moto>)
    ensures r.Keys == motos.Keys
    ensures forall p :: p in motos && p != placa ==> r[p] == motos[p]
    ensures placa in motos ==>
      r[placa] == motos[placa].(data := motos[placa].data.(locatario := locatario, disponibilidade := Some(status)))
  {
    if placa in motos then
      motos[placa := motos[placa].(data := motos[placa].data.(locatario := locatario, disponibilidade := Some(status)))]
    else motos
  }

  /** The renter rows after binding `placa` to `nome`: first cleared, then linked by name. */
  function BindRows(locs: seq<Locatario>, placa: string, nome: string): seq<Locatario>
  {
    LinkPlate(ClearPlate(locs, placa), nome, placa)
  }

  /** After a bind, the rows pointing at `placa` are exactly the rows named `nome`; rows with
      another name keep their link unless it was `placa`, and every other column is kept. */
  lemma BindLinksExactlyNamed(locs: seq<Locatario>, placa: string, nome: string)
    ensures |BindRows(locs, placa, nome)| == |locs|
    ensures forall i :: 0 <= i < |locs| ==>
      (BindRows(locs, placa, nome)[i].placaAssociada == Some(placa) <==> locs[i].nome == nome)
    ensures forall i :: 0 <= i < |locs| && locs[i].nome != nome && locs[i].placaAssociada != Some(placa) ==>
      BindRows(locs, placa, nome)[i] == locs[i]
    ensures forall i :: 0 <= i < |locs| ==>
      BindRows(locs, placa, nome)[i] == locs[i].(placaAssociada := BindRows(locs, placa, nome)[i].placaAssociada)
  {
  }

  /** After an unbind no renter row points at `placa`, and rows pointing elsewhere are untouched. */
  lemma UnbindClearsEveryLink(locs: seq<Locatario>, placa: string)
    ensures forall i :: 0 <= i < |locs| ==> ClearPlate(locs, placa)[i].placaAssociada != Some(placa)
    ensures forall i :: 0 <= i < |locs| && locs[i].placaAssociada != Some(placa) ==> ClearPlate(locs, placa)[i] == locs[i]
  {
  }

  /** Binding moto A to R1 and then to R2 leaves the rows named R1 with no moto, the rows named R2
      with A, and the moto's `locatario` naming R2. */
  lemma RebindMovesRenter(locs: seq<Locatario>, motos: map<string, Moto>, placa: string, r1: string, r2: string, status: string)
    requires r1 != r2
    ensures var once := BindRows(locs, placa, r1);
      var twice := BindRows(once, placa, r2);
      |twice| == |locs| &&
      (forall i :: 0 <= i < |locs| && locs[i].nome == r1 ==> twice[i].placaAssociada == None) &&
      (forall i :: 0 <= i < |locs| && locs[i].nome == r2 ==> twice[i].placaAssociada == Some(placa))
    ensures placa in motos ==>
      SetRenter(SetRenter(motos, placa, Some(r1), status), placa, Some(r2), status)[placa].data.locatario == Some(r2)
  {
    BindLinksExactlyNamed(locs, placa, r1);
    BindLinksExactlyNamed(BindRows(locs, placa, r1), placa, r2);
  }

  /** The bind is one-directional for the renter's previous moto: a moto `q` that named `nome`
      still names `nome` after `nome` is bound to another moto, although no row named `nome`
      points at `q` any more. */
  lemma BindKeepsPreviousMotoRenter(locs: seq<Locatario>, motos: map<string, Moto>, placa: string, q: string, nome: string, status: string)
    requires q != placa && q in motos && motos[q].data.locatario == Some(nome)
    ensures SetRenter(motos, placa, Some(nome), status)[q].data.locatario == Some(nome)
    ensures forall i :: 0 <= i < |locs| && locs[i].nome == nome ==> BindRows(locs, placa, nome)[i].placaAssociada != Some(q)
  {
  }

  // ---------------------------------------------------------------------------
  // locacoes

  /** The `WHERE` of `get_active_moto_for_cpf`: same CPF, started on or before the date, and open
      or ending on or after it, with the dates compared as strings. */
  predicate Covers(row: Locacao, cpf: string, date: string)
  {
    row.cpf == cpf && LexLe(row.inicio, date) && (row.fim.None? || LexLe(date, row.fim.value))
  }

  /** The index of a covering row with the greatest `data_inicio` (among equal starts, the first). */
  function LatestCovering(rows: seq<Locacao>, cpf: string, date: string): Option<nat>
  {
    if rows == [] then None
    else
      var best := LatestCovering(rows[..|rows| - 1], cpf, date);
      var last := |rows| - 1;
      if !Covers(rows[last], cpf, date) then best
      else if best.None? then Some(last)
      else if best.value < last && LexLess(rows[best.value].inicio, rows[last].inicio) then Some(last)
      else best
  }

  /** `ORDER BY data_inicio DESC LIMIT 1`: no answer exactly when no row covers the date,
      otherwise a covering row whose start is not before any other covering row's start. */
  lemma {:induction false} LatestCoveringSpec(rows: seq<Locacao>, cpf: string, date: string)
    ensures LatestCovering(rows, cpf, date).None? <==> forall i :: 0 <= i < |rows| ==> !Covers(rows[i], cpf, date)
    ensures LatestCovering(rows, cpf, date).Some? ==>
      var k := LatestCovering(rows, cpf, date).value;
      k < |rows| && Covers(rows[k], cpf, date) &&
      forall j :: 0 <= j < |rows| && Covers(rows[j], cpf, date) ==> LexLe(rows[j].inicio, rows[k].inicio)
  {
    if rows != [] {
      var init := rows[..|rows| - 1];
      var last := |rows| - 1;
      LatestCoveringSpec(init, cpf, date);
      assert forall i :: 0 <= i < |init| ==> init[i] == rows[i];
      var best := LatestCovering(init, cpf, date);
      if Covers(rows[last], cpf, date) && best.Some? {
        var b := best.value;
        LexLessTotal(rows[b].inicio, rows[last].inicio);
        if LexLess(rows[b].inicio, rows[last].inicio) {
          forall j | 0 <= j < |rows| && Covers(rows[j], cpf, date)
            ensures LexLe(rows[j].inicio, rows[last].inicio)
          {
            if j < last {
              LexLeTransitive(rows[j].inicio, rows[b].inicio, rows[last].inicio);
            }
          }
        }
      }
    }
  }

  /** `get_active_moto_for_cpf`: the plate of the latest rental covering the date; a missing CPF
      or date compares as SQL NULL and matches nothing. */
  function ActiveMoto(rows: seq<Locacao>, cpf: Option<string>, date: Option<string>): (r: Option<string>)
    ensures (cpf.None? || date.None?) ==> r.None?
    ensures cpf.Some? && date.Some? ==>
      (r.None? <==> forall i :: 0 <= i < |rows| ==> !Covers(rows[i], cpf.value, date.value))
    ensures r.Some? ==>
      exists k :: 0 <= k < |rows| && rows[k].placa == r.value &&
        Covers(rows[k], cpf.value, date.value) &&
        forall j :: 0 <= j < |rows| && Covers(rows[j], cpf.value, date.value) ==> LexLe(rows[j].inicio, rows[k].inicio)
  {
    if cpf.None? || date.None? then None
    else
      LatestCoveringSpec(rows, cpf.value, date.value);
      match LatestCovering(rows, cpf.value, date.value)
      case None => None
      case Some(k) => Some(rows[k].placa)
  }

  /** With ISO dates of real calendar days, the string test of `Covers` is the chronological one. */
  lemma CoversIsChronological(cpf: string, placa: string, inicio: Calendar.Date, fim: Option<Calendar.Date>, day: Calendar.Date)
    requires Calendar.Valid(inicio) && Calendar.Valid(day) && (fim.Some? ==> Calendar.Valid(fim.value))
    ensures var row := Locacao(cpf, placa, Calendar.Iso(inicio), if fim.Some? then Some(Calendar.Iso(fim.value)) else None);
      Covers(row, cpf, Calendar.Iso(day)) <==>
        Calendar.DayNumber(inicio) <= Calendar.DayNumber(day) &&
        (fim.None? || Calendar.DayNumber(day) <= Calendar.DayNumber(fim.value))
  {
    Calendar.IsoLeIsChronological(inicio, day);
    if fim.Some? {
      Calendar.IsoLeIsChronological(day, fim.value);
    }
  }

  /** `end_rental`: every open rental of the plate gets `data_fim`. */
  function CloseRentals(rows: seq<Locacao>, placa: string, fim: string): (r: seq<Locacao>)
    ensures |r| == |rows|
    ensures forall i :: 0 <= i < |rows| ==>
      r[i] == if rows[i].placa == placa && rows[i].fim.None? then rows[i].(fim := Some(fim)) else rows[i]
  {
    seq(|rows|, i requires 0 <= i < |rows| =>
      if rows[i].placa == placa && rows[i].fim.None? then rows[i].(fim := Some(fim)) else rows[i])
  }

  /** After `end_rental` the plate has no open rental; other plates' rentals and closed rentals are
      unchanged. */
  lemma CloseRentalsEffect(rows: seq<Locacao>, placa: string, fim: string)
    ensures forall i :: 0 <= i < |rows| && CloseRentals(rows, placa, fim)[i].placa == placa ==>
      CloseRentals(rows, placa, fim)[i].fim.Some?
    ensures forall i :: 0 <= i < |rows| && (rows[i].placa != placa || rows[i].fim.Some?) ==>
      CloseRentals(rows, placa, fim)[i] == rows[i]
  {
  }

  // ---------------------------------------------------------------------------
  // transacoes

  /** The plate `add_transaction` stores: an explicit non-empty plate, else the attributed one. */
  function AttributedPlate(rentals: seq<Locacao>, cpf: Option<string>, data: Option<string>, placaMoto: Option<string>): (r: Option<string>)
    ensures Truthy(placaMoto) ==> r == placaMoto
    ensures !Truthy(placaMoto) ==> r == ActiveMoto(rentals, cpf, data)
  {
    if Truthy(placaMoto) then placaMoto else ActiveMoto(rentals, cpf, data)
  }

  /** A transaction without an explicit plate, for a renter with exactly one rental covering the
      date, is attributed to that rental's moto. */
  lemma SingleCoveringRentalAttributed(rentals: seq<Locacao>, cpf: string, data: string, k: nat)
    requires k < |rentals| && Covers(rentals[k], cpf, data)
    requires forall j :: 0 <= j < |rentals| && j != k ==> !Covers(rentals[j], cpf, data)
    ensures AttributedPlate(rentals, Some(cpf), Some(data), None) == Some(rentals[k].placa)
  {
  }

  // ---------------------------------------------------------------------------
  // envios_contador

  /** `SELECT COUNT(*) ... WHERE mes_referencia = mes AND status = 'sucesso'`. */
  function CountSuccess(rows: seq<Envio>, mes: string): nat
  {
    if rows == [] then 0
    else CountSuccess(rows[..|rows| - 1], mes) + (if rows[|rows| - 1].mes == mes && rows[|rows| - 1].status == Sucesso then 1 else 0)
  }

  /** `has_sent_export_for_month`. */
  predicate HasSent(rows: seq<Envio>, mes: string)
  {
    CountSuccess(rows, mes) > 0
  }

  /** The gate holds exactly when some row has that month and status `sucesso`. */
  lemma {:induction false} HasSentIff(rows: seq<Envio>, mes: string)
    ensures HasSent(rows, mes) <==> exists i :: 0 <= i < |rows| && rows[i].mes == mes && rows[i].status == Sucesso
  {
    if rows != [] {
      var init := rows[..|rows| - 1];
      HasSentIff(init, mes);
      assert forall i :: 0 <= i < |init| ==> init[i] == rows[i];
      if HasSent(init, mes) {
        var i :| 0 <= i < |init| && init[i].mes == mes && init[i].status == Sucesso;
        assert rows[i].mes == mes;
      }
    }
  }

  /** Appending a row: only a `sucesso` row for the same month can change the gate, and it opens it. */
  lemma AppendEnvioEffect(rows: seq<Envio>, e: Envio, mes: string)
    ensures e.status != Sucesso || e.mes != mes ==> (HasSent(rows + [e], mes) <==> HasSent(rows, mes))
    ensures e.status == Sucesso && e.mes == mes ==> HasSent(rows + [e], mes)
  {
    assert (rows + [e])[..|rows|] == rows;
  }

  // ---------------------------------------------------------------------------
  // locatarios and usuarios: UNIQUE columns

  predicate CpfUnique(locs: seq<Locatario>)
  {
    forall i, j :: 0 <= i < j < |locs| ==> locs[i].cpf != locs[j].cpf
  }

  predicate UsernamesUnique(users: seq<Usuario>)
  {
    forall i, j :: 0 <= i < j < |users| ==> users[i].username != users[j].username
  }

  predicate HasCpf(locs: seq<Locatario>, cpf: string)
  {
    exists i :: 0 <= i < |locs| && locs[i].cpf == cpf
  }

  predicate HasUsername(users: seq<Usuario>, username: string)
  {
    exists i :: 0 <= i < |users| && users[i].username == username
  }

  /** An insert of a fresh key keeps the column unique. */
  lemma InsertKeepsCpfUnique(locs: seq<Locatario>, row: Locatario)
    requires CpfUnique(locs) && !HasCpf(locs, row.cpf)
    ensures CpfUnique(locs + [row])
  {
    forall i, j | 0 <= i < j < |locs| + 1
      ensures (locs + [row])[i].cpf != (locs + [row])[j].cpf
    {
      if j == |locs| {
        assert locs[i].cpf != row.cpf;
      }
    }
  }

  lemma InsertKeepsUsernamesUnique(users: seq<Usuario>, row: Usuario)
    requires UsernamesUnique(users) && !HasUsername(users, row.username)
    ensures UsernamesUnique(users + [row])
  {
    forall i, j | 0 <= i < j < |users| + 1
      ensures (users + [row])[i].username != (users + [row])[j].username
    {
      if j == |users| {
        assert users[i].username != row.username;
      }
    }
  }

  /** Binding and unbinding never touch `cpf`, so the UNIQUE column stays unique. */
  lemma BindKeepsCpfUnique(locs: seq<Locatario>, placa: string, nome: string)
    requires CpfUnique(locs)
    ensures CpfUnique(ClearPlate(locs, placa)) && CpfUnique(BindRows(locs, placa, nome))
  {
    var cleared := ClearPlate(locs, placa);
    assert forall i :: 0 <= i < |locs| ==> cleared[i].cpf == locs[i].cpf;
    var bound := BindRows(locs, placa, nome);
    assert forall i :: 0 <= i < |locs| ==> bound[i].cpf == locs[i].cpf;
  }

  // ---------------------------------------------------------------------------
  // upsert_asaas_customers

  /** `str(x)` of an optional string in an f-string: `None` renders as "None". */
  function PyStr(s: Option<string>): string
  {
    if s.None? then "None" else s.value
  }

  /** `mobilePhone or phone or ''`. */
  function Telefone(c: Asaas.Customer): (t: string)
    ensures Truthy(c.mobilePhone) ==> t == c.mobilePhone.value
    ensures !Truthy(c.mobilePhone) && Truthy(c.phone) ==> t == c.phone.value
    ensures !Truthy(c.mobilePhone) && !Truthy(c.phone) ==> t == ""
  {
    if Truthy(c.mobilePhone) then c.mobilePhone.value
    else if Truthy(c.phone) then c.phone.value
    else ""
  }

  /** The five address parts, before empty ones are dropped. */
  function AddressParts(c: Asaas.Customer): seq<string>
  {
    [PyStr(c.address) + ", " + PyStr(c.addressNumber),
     c.complement.GetOr(""),
     c.province.GetOr(""),
     PyStr(c.city) + "-" + PyStr(c.state),
     c.postalCode.GetOr("")]
  }

  /** `[p for p in parts if p]`. */
  function NonEmpty(parts: seq<string>): (r: seq<string>)
    ensures |r| <= |parts|
    ensures forall i :: 0 <= i < |r| ==> r[i] != ""
    ensures forall p :: p in r <==> p in parts && p != ""
  {
    if parts == [] then []
    else if parts[0] == "" then NonEmpty(parts[1..])
    else [parts[0]] + NonEmpty(parts[1..])
  }

  /** The `endereco` column: the non-empty parts joined by " | ", or "" without an address. */
  function Endereco(c: Asaas.Customer): (e: string)
    ensures !Truthy(c.address) ==> e == ""
  {
    if Truthy(c.address) then Join(NonEmpty(AddressParts(c)), " | ") else ""
  }

  /** With an address, the street part always survives the filter and leads the joined text. */
  lemma EnderecoStartsWithStreet(c: Asaas.Customer)
    requires Truthy(c.address)
    ensures var street := c.address.value + ", " + PyStr(c.addressNumber);
      |Endereco(c)| >= |street| && Endereco(c)[..|street|] == street
  {
    var parts := AddressParts(c);
    var kept := NonEmpty(parts);
    assert parts[0] != "";
    assert kept == [parts[0]] + NonEmpty(parts[1..]);
    var street := parts[0];
    if |kept| == 1 {
      assert Endereco(c) == street;
    } else {
      assert Endereco(c) == street + " | " + Join(kept[1..], " | ");
    }
  }

  /** Index of the row with this CPF, if any. */
  function FindCpf(locs: seq<Locatario>, cpf: string): (r: Option<nat>)
    ensures r.None? <==> !HasCpf(locs, cpf)
    ensures r.Some? ==> r.value < |locs| && locs[r.value].cpf == cpf
  {
    if locs == [] then None
    else if locs[|locs| - 1].cpf == cpf then Some(|locs| - 1)
    else
      var r := FindCpf(locs[..|locs| - 1], cpf);
      assert forall i :: 0 <= i < |locs| - 1 ==> locs[..|locs| - 1][i] == locs[i];
      r
  }

  /** The values one customer contributes: nome, endereco, telefone, email. */
  datatype Contact = Contact(nome: string, endereco: string, telefone: string, email: string)

  function ContactOf(c: Asaas.Customer): Contact
  {
    Contact(c.name.GetOr(""), Endereco(c), Telefone(c), c.email.GetOr(""))
  }

  /** A fresh row for a new CPF: no CNH, no moto, no file. */
  function NewRenter(cpf: string, k: Contact): Locatario
  {
    Locatario(k.nome, cpf, Some(k.endereco), Some(k.telefone), Some(k.email), None, None, NoAttachment)
  }

  /** `ON DUPLICATE KEY UPDATE` of the four contact columns. */
  function WithContact(row: Locatario, k: Contact): Locatario
  {
    row.(nome := k.nome, endereco := Some(k.endereco), telefone := Some(k.telefone), email := Some(k.email))
  }

  /** One upsert: the new rows and MySQL's affected-row count (1 inserted, 2 changed, 0 unchanged). */
  function UpsertOne(locs: seq<Locatario>, cpf: string, k: Contact): (r: (seq<Locatario>, nat))
  {
    match FindCpf(locs, cpf)
    case None => (locs + [NewRenter(cpf, k)], 1)
    case Some(i) =>
      if WithContact(locs[i], k) == locs[i] then (locs, 0) else (locs[i := WithContact(locs[i], k)], 2)
  }

  /** The loop of `upsert_asaas_customers` over a prefix of the customers: rows, inserted, updated. */
  function UpsertAll(locs: seq<Locatario>, cs: seq<Asaas.Customer>): (seq<Locatario>, nat, nat)
  {
    if cs == [] then (locs, 0, 0)
    else
      var (rows, inserted, updated) := UpsertAll(locs, cs[..|cs| - 1]);
      var c := cs[|cs| - 1];
      if !Truthy(c.cpfCnpj) then (rows, inserted, updated)
      else
        var (rows', affected) := UpsertOne(rows, c.cpfCnpj.value, ContactOf(c));
        (rows', inserted + (if affected == 1 then 1 else 0), updated + (if affected == 2 then 1 else 0))
  }

  /** One upsert: a new CPF appends exactly one row; an existing CPF rewrites only that row's four
      contact columns; nothing else changes; CPF uniqueness is kept. */
  lemma UpsertOneEffect(locs: seq<Locatario>, cpf: string, k: Contact)
    requires CpfUnique(locs)
    ensures var (rows, affected) := UpsertOne(locs, cpf, k);
      CpfUnique(rows) && HasCpf(rows, cpf) &&
      (!HasCpf(locs, cpf) ==> rows == locs + [NewRenter(cpf, k)] && affected == 1) &&
      (HasCpf(locs, cpf) ==>
        |rows| == |locs| && affected != 1 &&
        forall i :: 0 <= i < |locs| ==>
          rows[i] == if locs[i].cpf == cpf then WithContact(locs[i], k) else locs[i])
  {
    match FindCpf(locs, cpf)
    case None =>
      InsertKeepsCpfUnique(locs, NewRenter(cpf, k));
      assert (locs + [NewRenter(cpf, k)])[|locs|].cpf == cpf;
    case Some(i) =>
      var rows := UpsertOne(locs, cpf, k).0;
      assert forall j :: 0 <= j < |locs| ==> rows[j].cpf == locs[j].cpf;
      assert rows[i].cpf == cpf;
  }

  /** The counters never exceed the number of customers with a CPF, and the rows stay CPF-unique. */
  lemma {:induction false} UpsertAllCounts(locs: seq<Locatario>, cs: seq<Asaas.Customer>)
    requires CpfUnique(locs)
    ensures var (rows, inserted, updated) := UpsertAll(locs, cs);
      CpfUnique(rows) && inserted + updated <= |cs| && |rows| == |locs| + inserted
  {
    if cs != [] {
      UpsertAllCounts(locs, cs[..|cs| - 1]);
      var c := cs[|cs| - 1];
      if Truthy(c.cpfCnpj) {
        UpsertOneEffect(UpsertAll(locs, cs[..|cs| - 1]).0, c.cpfCnpj.value, ContactOf(c));
      }
    }
  }

  /** Customers without a CPF are skipped: they change neither the rows nor the counters. */
  lemma UpsertSkipsMissingCpf(locs: seq<Locatario>, cs: seq<Asaas.Customer>, c: Asaas.Customer)
    requires !Truthy(c.cpfCnpj)
    ensures UpsertAll(locs, cs + [c]) == UpsertAll(locs, cs)
  {
    assert (cs + [c])[..|cs|] == cs;
  }

  /** Some row with this CPF holds exactly these contact values. */
  predicate CarriesContact(rows: seq<Locatario>, cpf: string, k: Contact)
  {
    exists i :: 0 <= i < |rows| && rows[i].cpf == cpf && rows[i] == WithContact(rows[i], k)
  }

  /** After the loop the last customer with a CPF has a row carrying exactly its contact values. */
  lemma UpsertLastWins(locs: seq<Locatario>, cs: seq<Asaas.Customer>, c: Asaas.Customer)
    requires CpfUnique(locs) && Truthy(c.cpfCnpj)
    ensures CarriesContact(UpsertAll(locs, cs + [c]).0, c.cpfCnpj.value, ContactOf(c))
  {
    assert (cs + [c])[..|cs|] == cs;
    var before := UpsertAll(locs, cs).0;
    UpsertAllCounts(locs, cs);
    UpsertOneEffect(before, c.cpfCnpj.value, ContactOf(c));
    var rows := UpsertAll(locs, cs + [c]).0;
    assert rows == UpsertOne(before, c.cpfCnpj.value, ContactOf(c)).0;
    if HasCpf(before, c.cpfCnpj.value) {
      var i :| 0 <= i < |before| && before[i].cpf == c.cpfCnpj.value;
      assert rows[i] == WithContact(before[i], ContactOf(c));
    } else {
      assert rows[|before|] == NewRenter(c.cpfCnpj.value, ContactOf(c));
    }
  }
}
