/** `DatabaseManager` as an object whose fields are the MySQL tables. Each method performs the
    statements of its Python counterpart in order; a statement that violates a NOT NULL, UNIQUE or
    FOREIGN KEY constraint of the schema is the `IntegrityError` the Python code catches (returning
    `False`) or lets through (an `Err` result here). Connections, cursors and commits are not modelled. */
module Ledger {
  import opened Wrappers
  import opened Tables
  import Asaas

  const DuplicateKey := IntegrityError("Duplicate entry")
  const NullColumn := IntegrityError("Column cannot be null")
  const ForeignKey := IntegrityError("Cannot add or update a child row: a foreign key constraint fails")

  class LedgerStore {
    var configs: map<string, string>
    var motos: map<string, Moto>
    var locatarios: seq<Locatario>
    var locacoes: seq<Locacao>
    var transacoes: seq<Transacao>
    var envios: seq<Envio>
    var usuarios: seq<Usuario>

    /** The schema's constraints on the stored rows: UNIQUE `cpf` and `username`, and the foreign
        keys of `locacoes` and `transacoes` to `motos`. Every data column of `motos` is nullable. */
    predicate Valid()
      reads this
    {
      CpfUnique(locatarios) && UsernamesUnique(usuarios) &&
      (forall i :: 0 <= i < |locacoes| ==> locacoes[i].placa in motos) &&
      (forall i :: 0 <= i < |transacoes| && transacoes[i].placa.Some? ==> transacoes[i].placa.value in motos)
    }

    constructor ()
      ensures Valid()
      ensures configs == map[] && motos == map[]
      ensures locatarios == [] && locacoes == [] && transacoes == [] && envios == [] && usuarios == []
    {
      configs := map[];
      motos := map[];
      locatarios := [];
      locacoes := [];
      transacoes := [];
      envios := [];
      usuarios := [];
    }

    // --- configuracoes

    /** `set_config`: insert or update the key. */
    method SetConfig(key: string, value: string) returns (ok: bool)
      modifies this`configs
      ensures configs == old(configs)[key := value] && ok
    {
      configs := configs[key := value];
      ok := true;
    }

    /** `get_config`. */
    function GetConfig(key: string, default: Option<string>): (r: Option<string>)
      reads this
      ensures key in configs ==> r == Some(configs[key])
      ensures key !in configs ==> r == default
    {
      ConfigValue(configs, key, default)
    }

    /** `get_all_configs`: every stored pair and nothing else. */
    function GetAllConfigs(): (r: map<string, string>)
      reads this
      ensures forall k :: k in r <==> k in configs
      ensures forall k :: k in r ==> r[k] == configs[k]
    {
      configs
    }

    // --- motos

    /** `add_moto`: a new plate is inserted with whatever data is given, NULLs included; a
        duplicate plate is an IntegrityError and yields false. */
    method AddMoto(placa: string, d: MotoData, doc: Attachment, ipva: Attachment, crlv: Attachment) returns (ok: bool)
      requires Valid()
      modifies this`motos
      ensures Valid()
      ensures ok <==> placa !in old(motos)
      ensures ok ==> motos == old(motos)[placa := Moto(d, doc, ipva, crlv)]
      ensures !ok ==> motos == old(motos)
    {
      if placa in motos {
        return false;
      }
      motos := motos[placa := Moto(d, doc, ipva, crlv)];
      ok := true;
    }

    /** `update_moto`: every data column of the plate's row is overwritten, NULLs included; a file
        triple is replaced only when its file or its name is given. An unknown plate matches no row.
        The call answers True either way. */
    method UpdateMoto(placa: string, d: MotoData, doc: Attachment, ipva: Attachment, crlv: Attachment) returns (ok: bool)
      requires Valid()
      modifies this`motos
      ensures Valid()
      ensures ok
      ensures placa !in old(motos) ==> motos == old(motos)
      ensures placa in old(motos) ==>
        var m := old(motos)[placa];
        motos == old(motos)[placa := Moto(d,
          UpdatedAttachment(m.doc, doc.file, doc.name, doc.mime),
          UpdatedAttachment(m.ipva, ipva.file, ipva.name, ipva.mime),
          UpdatedAttachment(m.crlv, crlv.file, crlv.name, crlv.mime))]
    {
      if placa in motos {
        var m := motos[placa];
        motos := motos[placa := Moto(d,
          UpdatedAttachment(m.doc, doc.file, doc.name, doc.mime),
          UpdatedAttachment(m.ipva, ipva.file, ipva.name, ipva.mime),
          UpdatedAttachment(m.crlv, crlv.file, crlv.name, crlv.mime))];
      }
      ok := true;
    }

    /** `sync_moto_association`: with a non-empty name, clear every renter row pointing at the
        plate, set the moto's renter and status, then link every row with that name; without one,
        clear the moto's renter, mark it available and clear the rows pointing at the plate. */
    method SyncMotoAssociation(placa: string, nome: Option<string>, moveToStatus: string := Alugado) returns (ok: bool)
      requires Valid()
      modifies this`motos, this`locatarios
      ensures Valid() && ok
      ensures Truthy(nome) ==>
        locatarios == BindRows(old(locatarios), placa, nome.value) &&
        motos == SetRenter(old(motos), placa, nome, moveToStatus)
      ensures !Truthy(nome) ==>
        locatarios == ClearPlate(old(locatarios), placa) &&
        motos == SetRenter(old(motos), placa, None, Disponivel)
    {
      BindKeepsCpfUnique(locatarios, placa, if nome.Some? then nome.value else "");
      if Truthy(nome) {
        locatarios := ClearPlate(locatarios, placa);
        motos := SetRenter(motos, placa, nome, moveToStatus);
        locatarios := LinkPlate(locatarios, nome.value, placa);
      } else {
        motos := SetRenter(motos, placa, None, Disponivel);
        locatarios := ClearPlate(locatarios, placa);
      }
      ok := true;
    }

    // --- locacoes

    /** `start_rental`: an open rental is added only for a plate that exists. */
    method StartRental(cpf: string, placa: string, inicio: string)
      requires Valid()
      modifies this`locacoes
      ensures Valid()
      ensures placa in motos ==> locacoes == old(locacoes) + [Locacao(cpf, placa, inicio, None)]
      ensures placa !in motos ==> locacoes == old(locacoes)
    {
      if placa !in motos {
        return;
      }
      locacoes := locacoes + [Locacao(cpf, placa, inicio, None)];
    }

    /** `end_rental`: close every open rental of the plate. */
    method EndRental(placa: string, fim: string)
      requires Valid()
      modifies this`locacoes
      ensures Valid()
      ensures locacoes == CloseRentals(old(locacoes), placa, fim)
    {
      locacoes := CloseRentals(locacoes, placa, fim);
    }

    // --- transacoes

    /** `add_transaction`: one row whose plate is the explicit one or the attributed one; a missing
        date (NOT NULL) or a plate absent from `motos` (FOREIGN KEY) raises and inserts nothing. */
    method AddTransaction(origem: string, tipo: string, valor: real, data: Option<string>,
                          status: string := Pago, cpf: Option<string> := None, placaMoto: Option<string> := None)
      returns (r: Result<()>)
      requires Valid()
      modifies this`transacoes
      ensures Valid()
      ensures var placa := AttributedPlate(locacoes, cpf, data, placaMoto);
        (r.Ok? <==> data.Some? && (placa.None? || placa.value in motos)) &&
        (r.Ok? ==> transacoes == old(transacoes) + [Transacao(origem, tipo, valor, data.value, status, cpf, placa)]) &&
        (r.Err? ==> transacoes == old(transacoes))
    {
      var placa := if Truthy(placaMoto) then placaMoto else ActiveMoto(locacoes, cpf, data);
      if data.None? {
        return Err(NullColumn);
      }
      if placa.Some? && placa.value !in motos {
        return Err(ForeignKey);
      }
      transacoes := transacoes + [Transacao(origem, tipo, valor, data.value, status, cpf, placa)];
      r := Ok(());
    }

    // --- envios_contador

    /** `record_accountant_export`: always appends one row. */
    method RecordAccountantExport(mes: string, dataEnvio: string, status: string := Sucesso, enviadoPor: string := Sistema)
      returns (ok: bool)
      modifies this`envios
      ensures envios == old(envios) + [Envio(mes, dataEnvio, status, enviadoPor)] && ok
    {
      envios := envios + [Envio(mes, dataEnvio, status, enviadoPor)];
      ok := true;
    }

    /** `has_sent_export_for_month`: some row has that month and status `sucesso`. */
    function HasSentExportForMonth(mes: string): (r: bool)
      reads this
      ensures r <==> exists i :: 0 <= i < |envios| && envios[i].mes == mes && envios[i].status == Sucesso
    {
      HasSentIff(envios, mes);
      HasSent(envios, mes)
    }

    // --- locatarios and usuarios

    /** `add_locatario`: a missing name or CPF (NOT NULL) or a CPF already stored (UNIQUE) yields
        false and stores nothing. */
    method AddLocatario(nome: Option<string>, cpf: Option<string>, endereco: Option<string>, telefone: Option<string>,
                        email: Option<string>, cnh: Option<string>, placaAssociada: Option<string>, cnhFile: Attachment := NoAttachment)
      returns (ok: bool)
      requires Valid()
      modifies this`locatarios
      ensures Valid()
      ensures ok <==> nome.Some? && cpf.Some? && !HasCpf(old(locatarios), cpf.value)
      ensures ok ==> locatarios == old(locatarios) + [Locatario(nome.value, cpf.value, endereco, telefone, email, cnh, placaAssociada, cnhFile)]
      ensures !ok ==> locatarios == old(locatarios)
    {
      if nome.None? || cpf.None? || FindCpf(locatarios, cpf.value).Some? {
        return false;
      }
      var row := Locatario(nome.value, cpf.value, endereco, telefone, email, cnh, placaAssociada, cnhFile);
      InsertKeepsCpfUnique(locatarios, row);
      locatarios := locatarios + [row];
      ok := true;
    }

    /** `create_user`: a missing NOT NULL column or a username already stored yields false. */
    method CreateUser(nome: Option<string>, username: Option<string>, email: Option<string>, senhaHash: Option<string>,
                      papel: Option<string>, status: Option<string>, permissoes: Option<string> := Some("Dashboard"))
      returns (ok: bool)
      requires Valid()
      modifies this`usuarios
      ensures Valid()
      ensures ok <==>
        nome.Some? && username.Some? && senhaHash.Some? && papel.Some? && status.Some? &&
        !HasUsername(old(usuarios), username.value)
      ensures ok ==>
        usuarios == old(usuarios) + [Usuario(nome.value, username.value, email, senhaHash.value, papel.value, status.value, permissoes)]
      ensures !ok ==> usuarios == old(usuarios)
    {
      if nome.None? || username.None? || senhaHash.None? || papel.None? || status.None? || HasUsername(usuarios, username.value) {
        return false;
      }
      var row := Usuario(nome.value, username.value, email, senhaHash.value, papel.value, status.value, permissoes);
      InsertKeepsUsernamesUnique(usuarios, row);
      usuarios := usuarios + [row];
      ok := true;
    }

    /** `upsert_asaas_customers`: customers without a CPF are skipped; the others are inserted or
        have their four contact columns overwritten, counted by MySQL's affected-row number. */
    method UpsertAsaasCustomers(customers: seq<Asaas.Customer>) returns (inserted: nat, updated: nat)
      requires Valid()
      modifies this`locatarios
      ensures Valid()
      ensures (locatarios, inserted, updated) == UpsertAll(old(locatarios), customers)
    {
      inserted, updated := 0, 0;
      var i := 0;
      while i < |customers|
        invariant 0 <= i <= |customers|
        invariant (locatarios, inserted, updated) == UpsertAll(old(locatarios), customers[..i])
        invariant CpfUnique(locatarios)
      {
        var c := customers[i];
        assert customers[..i + 1][..i] == customers[..i];
        if !Truthy(c.cpfCnpj) {
          i := i + 1;
          continue;
        }
        var nome := c.name.GetOr("");
        var email := c.email.GetOr("");
        var telefone := Telefone(c);
        var endereco := Endereco(c);
        UpsertOneEffect(locatarios, c.cpfCnpj.value, Contact(nome, endereco, telefone, email));
        var (rows, affected) := UpsertOne(locatarios, c.cpfCnpj.value, Contact(nome, endereco, telefone, email));
        locatarios := rows;
        if affected == 1 {
          inserted := inserted + 1;
        } else if affected == 2 {
          updated := updated + 1;
        }
        i := i + 1;
      }
      assert customers[..i] == customers;
    }
  }
}
