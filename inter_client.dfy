/** The bank client (`InterClient`): certificate materialisation, the OAuth2 token cached for the
    life of the instance, and the statement query split into windows of at most 90 days.
    Dates inside the statement loop are day numbers (`Calendar.DayNumber`); HTTP is abstracted:
    the bank is a set of functions from request parameters to responses, and every request is
    appended to a log. */
module Inter {
  import opened Wrappers

  /** Days per statement request, both ends included. */
  const WindowDays: nat := 90

  /** Settings read from the environment when the client is built. */
  datatype BankConfig = BankConfig(
    certPath: string, keyPath: string,
    certContent: Option<string>, keyContent: Option<string>,
    clientId: Option<string>, clientSecret: Option<string>)

  function Lookup(env: map<string, string>, key: string): Option<string>
  {
    if key in env then Some(env[key]) else None
  }

  /** `os.getenv(...)` as `__init__` does it, with the default certificate paths. */
  function ConfigFromEnv(env: map<string, string>): (c: BankConfig)
    ensures "INTER_CERT" !in env ==> c.certPath == "certs/inter.crt"
    ensures "INTER_KEY" !in env ==> c.keyPath == "certs/inter.key"
  {
    BankConfig(
      Lookup(env, "INTER_CERT").GetOr("certs/inter.crt"),
      Lookup(env, "INTER_KEY").GetOr("certs/inter.key"),
      Lookup(env, "INTER_CERT_RAW"), Lookup(env, "INTER_KEY_RAW"),
      Lookup(env, "INTER_CLIENT_ID"), Lookup(env, "INTER_CLIENT_SECRET"))
  }

  /** `content.replace("\\n", "\n")`: each backslash-n pair becomes a newline, scanning left to
      right without overlap, so no pair is left in the result. */
  function Unescape(s: string): (r: string)
    ensures |r| <= |s|
    ensures |s| > 0 ==> |r| > 0 && r[0] == (if |s| >= 2 && s[0] == '\\' && s[1] == 'n' then '\n' else s[0])
    ensures NoEscapedNewline(r)
  {
    if |s| < 2 then s
    else if s[0] == '\\' && s[1] == 'n' then "\n" + Unescape(s[2..])
    else [s[0]] + Unescape(s[1..])
  }

  /** No backslash is directly followed by 'n'. */
  predicate NoEscapedNewline(s: string)
  {
    forall i :: 0 <= i < |s| - 1 ==> !(s[i] == '\\' && s[i + 1] == 'n')
  }

  /** A text without a backslash-n pair, such as a PEM file, is left as it is. */
  lemma {:induction false} UnescapeKeepsPlainText(s: string)
    requires NoEscapedNewline(s)
    ensures Unescape(s) == s
  {
    if |s| >= 2 {
      assert NoEscapedNewline(s[1..]);
      UnescapeKeepsPlainText(s[1..]);
    }
  }

  /** How a multi-line certificate is stored in a one-line environment variable: every newline
      written as a backslash-n pair. */
  function Escape(t: string): (s: string)
    ensures |s| >= |t|
  {
    if |t| == 0 then "" else (if t[0] == '\n' then "\\n" else [t[0]]) + Escape(t[1..])
  }

  /** Unescaping gives back the original text whenever the text holds no backslash. */
  lemma {:induction false} UnescapeEscape(t: string)
    requires '\\' !in t
    ensures Unescape(Escape(t)) == t
  {
    if |t| > 0 {
      var s := Escape(t);
      UnescapeEscape(t[1..]);
      if t[0] == '\n' {
        assert s[2..] == Escape(t[1..]);
      } else {
        assert s[1..] == Escape(t[1..]);
      }
    }
  }

  /** One line of the statement's `transacoes` list, kept opaque. */
  datatype StatementLine = StatementLine(fields: map<string, string>)

  /** A decoded statement answer: its other top-level fields and its `transacoes` (absent is `None`). */
  datatype Statement = Statement(others: map<string, string>, transacoes: Option<seq<StatementLine>>)

  datatype BankRequest =
    | TokenRequest(clientId: string, clientSecret: string, scope: string, grantType: string)
    | StatementRequest(token: Option<string>, startDay: int, endDay: int)
    | BalanceRequest(token: Option<string>, dataSaldo: Option<string>)
    | ExportRequest(token: Option<string>, dataInicio: string, dataFim: string, tipoArquivo: string)

  /** The bank as functions from request parameters to decoded responses. */
  datatype Bank = Bank(
    token: (string, string) -> Result<Option<string>>,
    statement: (int, int) -> Result<Statement>,
    balance: Option<string> -> Result<map<string, real>>,
    exportPdf: (string, string, string) -> Result<Option<string>>)

  // ---------------------------------------------------------------------------
  // Statement windows

  /** The windows the `while current_start <= end_dt` loop requests: each ends at
      `min(start + 89, fim)` and the next starts the day after. */
  function Windows(start: int, fim: int): (ws: seq<(int, int)>)
    decreases fim - start + 1
  {
    if start > fim then [] else [(start, WindowEnd(start, fim))] + Windows(WindowEnd(start, fim) + 1, fim)
  }

  /** `current_start + timedelta(days=89)`, cut back to the last requested day. */
  function WindowEnd(start: int, fim: int): (e: int)
    ensures e <= start + (WindowDays - 1) && e <= fim
    ensures e == start + (WindowDays - 1) || e == fim
  {
    if start + (WindowDays - 1) > fim then fim else start + (WindowDays - 1)
  }

  /** Each window is non-empty and spans at most 90 days, both ends included. */
  lemma {:induction false} WindowsBounded(start: int, fim: int)
    ensures forall i :: 0 <= i < |Windows(start, fim)| ==>
      var w := Windows(start, fim)[i]; w.0 <= w.1 <= w.0 + (WindowDays - 1) && start <= w.0 && w.1 <= fim
    decreases fim - start + 1
  {
    if start <= fim {
      var e := WindowEnd(start, fim);
      WindowsBounded(e + 1, fim);
    }
  }

  /** The windows tile `[start, fim]`: the first starts at `start`, each next one starts the day
      after the previous one ends, and the last ends at `fim`. */
  lemma {:induction false} WindowsContiguous(start: int, fim: int)
    requires start <= fim
    ensures var ws := Windows(start, fim);
      |ws| > 0 && ws[0].0 == start && ws[|ws| - 1].1 == fim &&
      forall i :: 0 <= i < |ws| - 1 ==> ws[i + 1].0 == ws[i].1 + 1
    decreases fim - start + 1
  {
    var e := WindowEnd(start, fim);
    var rest := Windows(e + 1, fim);
    var ws := Windows(start, fim);
    assert ws == [(start, e)] + rest;
    if e < fim {
      WindowsContiguous(e + 1, fim);
      forall i | 0 <= i < |ws| - 1
        ensures ws[i + 1].0 == ws[i].1 + 1
      {
        if i > 0 {
          assert ws[i] == rest[i - 1] && ws[i + 1] == rest[i];
        }
      }
    } else {
      assert rest == [];
    }
  }

  /** `ceil((fim - start + 1) / 90)` requests for a non-empty range, none for an empty one. */
  lemma {:induction false} WindowsCount(start: int, fim: int)
    ensures start > fim ==> |Windows(start, fim)| == 0
    ensures start <= fim ==> |Windows(start, fim)| == (fim - start + 1 + (WindowDays - 1)) / WindowDays
    decreases fim - start + 1
  {
    if start <= fim {
      var e := WindowEnd(start, fim);
      WindowsCount(e + 1, fim);
      var n := fim - start + 1;
      if e < fim {
        assert (n - WindowDays + (WindowDays - 1)) / WindowDays + 1 == (n + (WindowDays - 1)) / WindowDays;
      }
    }
  }

  /** No gaps and no overlaps: every day of `[start, fim]` lies in exactly one window. */
  lemma WindowsPartition(start: int, fim: int, d: int)
    requires start <= d <= fim
    ensures exists i :: 0 <= i < |Windows(start, fim)| && Windows(start, fim)[i].0 <= d <= Windows(start, fim)[i].1
    ensures forall i, j ::
      (0 <= i < |Windows(start, fim)| && 0 <= j < |Windows(start, fim)| &&
       Windows(start, fim)[i].0 <= d <= Windows(start, fim)[i].1 &&
       Windows(start, fim)[j].0 <= d <= Windows(start, fim)[j].1) ==> i == j
  {
    var ws := Windows(start, fim);
    WindowsContiguous(start, fim);
    WindowsBounded(start, fim);
    WindowsAscending(ws);
    var k := FindWindow(ws, d);
  }

  /** Windows whose starts follow their predecessors' ends are strictly ordered. */
  lemma {:induction false} WindowsAscending(ws: seq<(int, int)>)
    requires forall i :: 0 <= i < |ws| ==> ws[i].0 <= ws[i].1
    requires forall i :: 0 <= i < |ws| - 1 ==> ws[i + 1].0 == ws[i].1 + 1
    ensures forall i, j :: 0 <= i < j < |ws| ==> ws[i].1 < ws[j].0
    decreases |ws|
  {
    if |ws| > 1 {
      WindowsAscending(ws[1..]);
      assert forall j :: 1 <= j < |ws| ==> ws[j] == ws[1..][j - 1];
      forall j | 1 <= j < |ws|
        ensures ws[0].1 < ws[j].0
      {
        if j > 1 {
          assert ws[1..][0].1 < ws[1..][j - 1].0;
        }
      }
    }
  }

  lemma {:induction false} FindWindow(ws: seq<(int, int)>, d: int) returns (k: nat)
    requires |ws| > 0 && ws[0].0 <= d <= ws[|ws| - 1].1
    requires forall i :: 0 <= i < |ws| - 1 ==> ws[i + 1].0 == ws[i].1 + 1
    ensures k < |ws| && ws[k].0 <= d <= ws[k].1
    decreases |ws|
  {
    if d <= ws[0].1 {
      k := 0;
    } else {
      var k' := FindWindow(ws[1..], d);
      k := k' + 1;
    }
  }

  // ---------------------------------------------------------------------------
  // Merging the window answers

  predicate IsEmptyDict(s: Statement)
  {
    s.others == map[] && s.transacoes.None?
  }

  function Lines(s: Statement): seq<StatementLine>
  {
    s.transacoes.GetOr([])
  }

  /** One iteration's bookkeeping: the first non-empty answer becomes `base_response` and its
      lines start `all_transacoes`; later answers only extend the lines. */
  function MergeStep(acc: (Statement, seq<StatementLine>), data: Statement): (Statement, seq<StatementLine>)
  {
    if IsEmptyDict(acc.0) then (data, Lines(data)) else (acc.0, acc.1 + Lines(data))
  }

  function MergeAll(rs: seq<Statement>): (Statement, seq<StatementLine>)
  {
    if rs == [] then (Statement(map[], None), []) else MergeStep(MergeAll(rs[..|rs| - 1]), rs[|rs| - 1])
  }

  /** `base_response["transacoes"] = all_transacoes`. */
  function Assemble(rs: seq<Statement>): Statement
  {
    MergeAll(rs).0.(transacoes := Some(MergeAll(rs).1))
  }

  function ConcatLines(rs: seq<Statement>): seq<StatementLine>
  {
    if rs == [] then [] else ConcatLines(rs[..|rs| - 1]) + Lines(rs[|rs| - 1])
  }

  /** Index of the first answer that is not an empty dict, or |rs| if there is none. */
  function FirstNonEmpty(rs: seq<Statement>): (k: nat)
    ensures k <= |rs| && (k < |rs| ==> !IsEmptyDict(rs[k]))
    ensures forall i :: 0 <= i < k ==> IsEmptyDict(rs[i])
  {
    if rs == [] then 0
    else if FirstNonEmpty(rs[..|rs| - 1]) < |rs| - 1 then FirstNonEmpty(rs[..|rs| - 1])
    else if IsEmptyDict(rs[|rs| - 1]) then |rs| else |rs| - 1
  }

  /** The merged `transacoes` is the concatenation of every window's `transacoes` in request
      order, and the other fields come from the first answer that is not an empty dict. */
  lemma {:induction false} MergeAllConcatenates(rs: seq<Statement>)
    ensures MergeAll(rs).1 == ConcatLines(rs)
    ensures FirstNonEmpty(rs) < |rs| ==> MergeAll(rs).0 == rs[FirstNonEmpty(rs)]
    ensures FirstNonEmpty(rs) == |rs| ==> IsEmptyDict(MergeAll(rs).0) && ConcatLines(rs) == []
  {
    if rs != [] {
      var init := rs[..|rs| - 1];
      MergeAllConcatenates(init);
      assert forall i :: 0 <= i < |init| ==> init[i] == rs[i];
    }
  }

  lemma AssembleLines(rs: seq<Statement>)
    ensures Assemble(rs).transacoes == Some(ConcatLines(rs))
    ensures rs == [] ==> Assemble(rs) == Statement(map[], Some([]))
  {
    MergeAllConcatenates(rs);
  }

  // ---------------------------------------------------------------------------
  // Specifications of the request sequences

  function StatementRequests(token: Option<string>, ws: seq<(int, int)>): (rs: seq<BankRequest>)
    ensures |rs| == |ws|
  {
    if ws == [] then []
    else StatementRequests(token, ws[..|ws| - 1]) + [StatementRequest(token, ws[|ws| - 1].0, ws[|ws| - 1].1)]
  }

  /** The answers to the window requests, or the first failure. */
  function Answers(api: Bank, ws: seq<(int, int)>): (r: Result<seq<Statement>>)
    ensures r.Ok? ==> |r.value| == |ws|
  {
    if ws == [] then Ok([])
    else
      match Answers(api, ws[..|ws| - 1])
      case Err(e) => Err(e)
      case Ok(rs) =>
        match api.statement(ws[|ws| - 1].0, ws[|ws| - 1].1)
        case Err(e) => Err(e)
        case Ok(s) => Ok(rs + [s])
  }

  /** How many window requests are issued: all of them, or up to and including the first failure. */
  function Attempted(api: Bank, ws: seq<(int, int)>): (k: nat)
    ensures k <= |ws|
    ensures Answers(api, ws).Ok? ==> k == |ws|
  {
    if ws == [] then 0
    else if Answers(api, ws[..|ws| - 1]).Err? then Attempted(api, ws[..|ws| - 1])
    else |ws|
  }

  /** Writes the unescaped raw content to `path` when no file is there and the content is
      non-empty; `open("")` fails. */
  function WriteIfMissing(path: string, content: Option<string>, files: map<string, string>): (r: (map<string, string>, Option<Error>))
    ensures forall p :: p in files ==> p in r.0 && r.0[p] == files[p]
    ensures r.1.None? ==> (path in r.0 <==> path in files || Truthy(content))
    ensures r.1.None? ==> forall p :: p in r.0 && p !in files ==> p == path
    ensures r.1.Some? ==> r.0 == files && path == "" && Truthy(content)
  {
    if path !in files && Truthy(content) then
      if path == "" then (files, Some(FileNotFound(""))) else (files[path := Unescape(content.value)], None)
    else (files, None)
  }

  /** The certificate check and write-out of `_check_certs` on the files the client sees:
      the new file map, or the error raised. */
  function CheckCerts(c: BankConfig, files: map<string, string>): (r: (map<string, string>, Option<Error>))
    ensures r.1.None? ==> c.certPath in r.0 && c.keyPath in r.0 && c.certPath != "" && c.keyPath != ""
    ensures forall p :: p in files ==> p in r.0 && r.0[p] == files[p]
    ensures c.certPath in files && c.keyPath in files && c.certPath != "" && c.keyPath != "" ==> r == (files, None)
  {
    var afterCert := WriteIfMissing(c.certPath, c.certContent, files);
    if afterCert.1.Some? then afterCert
    else
      var afterKey := WriteIfMissing(c.keyPath, c.keyContent, afterCert.0);
      if afterKey.1.Some? then afterKey
      else if c.certPath == "" || c.keyPath == "" then
        (afterKey.0, Some(MissingCertPaths))
      else if c.certPath !in afterKey.0 || c.keyPath !in afterKey.0 then
        (afterKey.0, Some(CertsNotFound))
      else (afterKey.0, None)
  }

  const TokenScope := "extrato.read"
  const GrantType := "client_credentials"
  const MissingCertPaths := ValueError("Inter Digital Certificate paths are not defined in the .env file.")
  const CertsNotFound := FileNotFound("Inter Certificates not found at the specified paths. Check your Streamlit Secrets.")
  const MissingCredentials := ValueError("Inter Client ID and Secret are missing. Please add them to .env")

  /** What `get_token` does, as a value: the file map after the certificate check, the error it
      raises, the requests it sends, and whether a token was granted and which. */
  datatype TokenOutcome = TokenOutcome(files: map<string, string>, err: Option<Error>,
    requests: seq<BankRequest>, granted: bool, token: Option<string>)

  /** The token step: certificates first, then the credentials, then one token request. */
  function TokenAttempt(c: BankConfig, files: map<string, string>, api: Bank): (o: TokenOutcome)
    ensures o.files == CheckCerts(c, files).0
    ensures o.granted <==> o.err.None?
    ensures |o.requests| <= 1 && (o.granted ==> |o.requests| == 1)
    ensures |o.requests| == 1 <==> CheckCerts(c, files).1.None? && Truthy(c.clientId) && Truthy(c.clientSecret)
    ensures |o.requests| == 1 ==> o.requests[0] == TokenRequest(c.clientId.value, c.clientSecret.value, TokenScope, GrantType)
    ensures CheckCerts(c, files).1.Some? ==> o.err == CheckCerts(c, files).1
    ensures o.granted ==> api.token(c.clientId.value, c.clientSecret.value) == Ok(o.token)
  {
    var (fs, certErr) := CheckCerts(c, files);
    if certErr.Some? then TokenOutcome(fs, certErr, [], false, None)
    else if !Truthy(c.clientId) || !Truthy(c.clientSecret) then TokenOutcome(fs, Some(MissingCredentials), [], false, None)
    else
      var req := TokenRequest(c.clientId.value, c.clientSecret.value, TokenScope, GrantType);
      match api.token(c.clientId.value, c.clientSecret.value)
      case Err(e) => TokenOutcome(fs, Some(e), [req], false, None)
      case Ok(t) => TokenOutcome(fs, None, [req], true, t)
  }

  class InterClient {
    const config: BankConfig
    /** The cached OAuth2 token (`None` until fetched, and again if the answer had none). */
    var accessToken: Option<string>
    /** The certificate files visible to the client, by path. */
    var files: map<string, string>
    /** Every request issued so far, in order. */
    var log: seq<BankRequest>

    constructor (env: map<string, string>, files: map<string, string>)
      ensures config == ConfigFromEnv(env) && this.files == files
      ensures accessToken == None && log == []
    {
      config := ConfigFromEnv(env);
      this.files := files;
      accessToken := None;
      log := [];
    }

    /** `if not self.access_token`: a missing or empty token must be fetched. */
    predicate HasToken()
      reads this
    {
      Truthy(accessToken)
    }

    /** `get_token`: check certificates, then credentials, then ask the token endpoint. */
    method GetToken(api: Bank) returns (err: Option<Error>)
      modifies this
      ensures var o := TokenAttempt(config, old(files), api);
        files == o.files && err == o.err && log == old(log) + o.requests &&
        accessToken == (if o.granted then o.token else old(accessToken))
    {
      var checked := CheckCerts(config, files);
      files := checked.0;
      if checked.1.Some? {
        return checked.1;
      }
      if !Truthy(config.clientId) || !Truthy(config.clientSecret) {
        return Some(MissingCredentials);
      }
      log := log + [TokenRequest(config.clientId.value, config.clientSecret.value, TokenScope, GrantType)];
      var resp := api.token(config.clientId.value, config.clientSecret.value);
      if resp.Err? {
        return Some(resp.error);
      }
      accessToken := resp.value;
      err := None;
    }

    /** The token step every query starts with: a token is requested only when none is cached. */
    method EnsureToken(api: Bank) returns (err: Option<Error>)
      modifies this
      ensures old(HasToken()) ==> err == None && unchanged(this)
      ensures !old(HasToken()) ==>
        log == old(log) || (|log| == |old(log)| + 1 && log[..|old(log)|] == old(log) && log[|old(log)|].TokenRequest?)
      ensures !old(HasToken()) ==> var o := TokenAttempt(config, old(files), api);
        files == o.files && err == o.err && log == old(log) + o.requests &&
        accessToken == (if o.granted then o.token else old(accessToken))
      ensures err.None? && !old(HasToken()) ==>
        Truthy(config.clientId) && Truthy(config.clientSecret) &&
        log == old(log) + [TokenRequest(config.clientId.value, config.clientSecret.value, TokenScope, GrantType)] &&
        api.token(config.clientId.value, config.clientSecret.value) == Ok(accessToken)
    {
      if !HasToken() {
        err := GetToken(api);
      } else {
        err := None;
      }
    }

    /** `get_bank_statement`: the token step, then one request per window of
        `Windows(inicio, fim)`, in order, with the answers merged by `Assemble`. */
    method GetBankStatement(api: Bank, inicio: int, fim: int) returns (r: Result<Statement>)
      modifies this
      ensures old(HasToken()) ==> accessToken == old(accessToken) && files == old(files)
      ensures r.Ok? ==>
        Answers(api, Windows(inicio, fim)).Ok? &&
        r.value == Assemble(Answers(api, Windows(inicio, fim)).value) &&
        exists tokenPart :: log == old(log) + tokenPart + StatementRequests(accessToken, Windows(inicio, fim)) &&
          (old(HasToken()) ==> tokenPart == [])
      ensures old(HasToken()) ==>
        log == old(log) + StatementRequests(accessToken, Windows(inicio, fim)[..Attempted(api, Windows(inicio, fim))]) &&
        (r.Ok? <==> Answers(api, Windows(inicio, fim)).Ok?) &&
        (r.Err? ==> r == Err(Answers(api, Windows(inicio, fim)).error))
      ensures !old(HasToken()) ==> var o := TokenAttempt(config, old(files), api);
        files == o.files &&
        (o.err.Some? ==> r == Err(o.err.value) && log == old(log) + o.requests && accessToken == old(accessToken)) &&
        (o.err.None? ==>
          accessToken == o.token &&
          log == old(log) + o.requests + StatementRequests(accessToken, Windows(inicio, fim)[..Attempted(api, Windows(inicio, fim))]) &&
          (r.Ok? <==> Answers(api, Windows(inicio, fim)).Ok?) &&
          (r.Err? ==> r == Err(Answers(api, Windows(inicio, fim)).error)))
    {
      var tokenErr := EnsureToken(api);
      if tokenErr.Some? {
        return Err(tokenErr.value);
      }
      ghost var mid := log;
      r := QueryWindows(api, inicio, fim);
      ghost var ws := Windows(inicio, fim);
      assert log == old(log) + mid[|old(log)|..] + StatementRequests(accessToken, ws[..Attempted(api, ws)]);
      if r.Ok? {
        assert ws[..Attempted(api, ws)] == ws;
      }
    }

    /** The `while current_start <= end_dt` loop of `get_bank_statement`, with the token in hand. */
    method QueryWindows(api: Bank, inicio: int, fim: int) returns (r: Result<Statement>)
      modifies this`log
      ensures log == old(log) + StatementRequests(accessToken, Windows(inicio, fim)[..Attempted(api, Windows(inicio, fim))])
      ensures r.Ok? <==> Answers(api, Windows(inicio, fim)).Ok?
      ensures r.Ok? ==> r.value == Assemble(Answers(api, Windows(inicio, fim)).value)
      ensures r.Err? ==> r == Err(Answers(api, Windows(inicio, fim)).error)
    {
      ghost var ws := Windows(inicio, fim);
      var base := Statement(map[], None);
      var all: seq<StatementLine> := [];
      var current := inicio;
      ghost var done: seq<(int, int)> := [];
      while current <= fim
        invariant ws == done + Windows(current, fim)
        invariant Answers(api, done).Ok? && (base, all) == MergeAll(Answers(api, done).value)
        invariant log == old(log) + StatementRequests(accessToken, done)
        decreases fim - current + 1
      {
        var currentEnd := WindowEnd(current, fim);
        var resp := RequestStatement(api, current, currentEnd);
        if resp.Err? {
          WindowFails(api, accessToken, ws, done, current, fim);
          r := Err(resp.error);
          return;
        }
        WindowAnswers(api, accessToken, ws, done, current, fim);
        if IsEmptyDict(base) {
          base := resp.value;
          all := Lines(resp.value);
        } else {
          all := all + Lines(resp.value);
        }
        done := done + [(current, currentEnd)];
        current := currentEnd + 1;
      }
      AllWindowsAnswered(api, ws, done, current, fim);
      r := Ok(base.(transacoes := Some(all)));
    }

    /** One `GET /banking/v2/extrato` for the days `[start, end]`. */
    method RequestStatement(api: Bank, start: int, end: int) returns (resp: Result<Statement>)
      modifies this`log
      ensures log == old(log) + [StatementRequest(accessToken, start, end)]
      ensures resp == api.statement(start, end)
    {
      log := log + [StatementRequest(accessToken, start, end)];
      resp := api.statement(start, end);
    }

    /** `get_balance`: the decoded answer, with `dataSaldo` sent only when given. */
    method GetBalance(api: Bank, dataSaldo: Option<string>) returns (r: Result<map<string, real>>)
      modifies this
      ensures old(HasToken()) ==> accessToken == old(accessToken) && files == old(files)
      ensures old(HasToken()) ==>
        var param := if Truthy(dataSaldo) then dataSaldo else None;
        log == old(log) + [BalanceRequest(accessToken, param)] && r == api.balance(param)
      ensures !old(HasToken()) ==> var o := TokenAttempt(config, old(files), api);
        files == o.files &&
        (o.err.Some? ==> r == Err(o.err.value) && log == old(log) + o.requests && accessToken == old(accessToken)) &&
        (o.err.None? ==>
          var param := if Truthy(dataSaldo) then dataSaldo else None;
          accessToken == o.token &&
          log == old(log) + o.requests + [BalanceRequest(accessToken, param)] && r == api.balance(param))
    {
      var tokenErr := EnsureToken(api);
      if tokenErr.Some? {
        return Err(tokenErr.value);
      }
      var param := if Truthy(dataSaldo) then dataSaldo else None;
      log := log + [BalanceRequest(accessToken, param)];
      r := api.balance(param);
    }

    /** `get_extrato_export`: the answer's `pdf` field (or "") whatever `tipoArquivo` asked for. */
    method GetExtratoExport(api: Bank, dataInicio: string, dataFim: string, tipoArquivo: string) returns (r: Result<string>)
      modifies this
      ensures old(HasToken()) ==> accessToken == old(accessToken) && files == old(files)
      ensures old(HasToken()) ==> log == old(log) + [ExportRequest(accessToken, dataInicio, dataFim, tipoArquivo)]
      ensures r.Ok? ==>
        (|log| > 0 && log[|log| - 1] == ExportRequest(accessToken, dataInicio, dataFim, tipoArquivo) &&
         (api.exportPdf(dataInicio, dataFim, tipoArquivo) == Ok(Some(r.value)) ||
          (api.exportPdf(dataInicio, dataFim, tipoArquivo) == Ok(None) && r.value == "")))
      ensures old(HasToken()) ==> (r.Ok? <==> api.exportPdf(dataInicio, dataFim, tipoArquivo).Ok?)
      ensures old(HasToken()) && r.Err? ==> r == Err(api.exportPdf(dataInicio, dataFim, tipoArquivo).error)
      ensures !old(HasToken()) ==> var o := TokenAttempt(config, old(files), api);
        files == o.files &&
        (o.err.Some? ==> r == Err(o.err.value) && log == old(log) + o.requests && accessToken == old(accessToken)) &&
        (o.err.None? ==>
          accessToken == o.token &&
          log == old(log) + o.requests + [ExportRequest(accessToken, dataInicio, dataFim, tipoArquivo)] &&
          (r.Ok? <==> api.exportPdf(dataInicio, dataFim, tipoArquivo).Ok?) &&
          (r.Err? ==> r == Err(api.exportPdf(dataInicio, dataFim, tipoArquivo).error)))
    {
      var tokenErr := EnsureToken(api);
      if tokenErr.Some? {
        return Err(tokenErr.value);
      }
      log := log + [ExportRequest(accessToken, dataInicio, dataFim, tipoArquivo)];
      var resp := api.exportPdf(dataInicio, dataFim, tipoArquivo);
      if resp.Err? {
        return Err(resp.error);
      }
      r := Ok(resp.value.GetOr(""));
    }
  }

  /** When the window answers for `done` all succeeded and the next one fails, exactly
      `|done|` window requests were made. */
  lemma PrefixAttempted(api: Bank, ws: seq<(int, int)>, done: seq<(int, int)>)
    requires |done| > 0 && done <= ws
    requires Answers(api, done[..|done| - 1]).Ok?
    requires api.statement(done[|done| - 1].0, done[|done| - 1].1).Err?
    ensures Attempted(api, ws) == |done|
    ensures Answers(api, ws) == Err(api.statement(done[|done| - 1].0, done[|done| - 1].1).error)
    ensures ws[..Attempted(api, ws)] == done
  {
    if ws != done {
      var init := ws[..|ws| - 1];
      assert done <= init;
      PrefixAttempted(api, init, done);
    }
  }

  lemma ExtendRequests(token: Option<string>, done: seq<(int, int)>, w: (int, int))
    ensures StatementRequests(token, done + [w]) == StatementRequests(token, done) + [StatementRequest(token, w.0, w.1)]
  {
    assert (done + [w])[..|done|] == done;
  }

  /** One more successful window answer extends the answers and the merge by one step. */
  lemma ExtendAnswers(api: Bank, done: seq<(int, int)>, w: (int, int))
    requires Answers(api, done).Ok?
    requires api.statement(w.0, w.1).Ok?
    ensures Answers(api, done + [w]) == Ok(Answers(api, done).value + [api.statement(w.0, w.1).value])
    ensures Attempted(api, done + [w]) == |done| + 1
    ensures MergeAll(Answers(api, done + [w]).value) == MergeStep(MergeAll(Answers(api, done).value), api.statement(w.0, w.1).value)
  {
    assert (done + [w])[..|done|] == done;
    var answered := Answers(api, done).value;
    assert (answered + [api.statement(w.0, w.1).value])[..|answered|] == answered;
  }

  /** A successful answer for the next window extends every loop fact by one window. */
  lemma WindowAnswers(api: Bank, token: Option<string>, ws: seq<(int, int)>, done: seq<(int, int)>, current: int, fim: int)
    requires ws == done + Windows(current, fim) && current <= fim
    requires Answers(api, done).Ok?
    requires api.statement(current, WindowEnd(current, fim)).Ok?
    ensures var w := (current, WindowEnd(current, fim));
      ws == (done + [w]) + Windows(WindowEnd(current, fim) + 1, fim) &&
      Answers(api, done + [w]).Ok? && Attempted(api, done + [w]) == |done| + 1 &&
      MergeAll(Answers(api, done + [w]).value) == MergeStep(MergeAll(Answers(api, done).value), api.statement(w.0, w.1).value) &&
      StatementRequests(token, done + [w]) == StatementRequests(token, done) + [StatementRequest(token, w.0, w.1)]
  {
    var w := (current, WindowEnd(current, fim));
    WindowsUnfold(current, fim);
    SeqShift(done, w, Windows(WindowEnd(current, fim) + 1, fim));
    ExtendAnswers(api, done, w);
    ExtendRequests(token, done, w);
  }

  /** A failed answer for the next window: that window was the last one requested. */
  lemma WindowFails(api: Bank, token: Option<string>, ws: seq<(int, int)>, done: seq<(int, int)>, current: int, fim: int)
    requires ws == done + Windows(current, fim) && current <= fim
    requires Answers(api, done).Ok?
    requires api.statement(current, WindowEnd(current, fim)).Err?
    ensures Answers(api, ws) == Err(api.statement(current, WindowEnd(current, fim)).error)
    ensures StatementRequests(token, ws[..Attempted(api, ws)]) ==
      StatementRequests(token, done) + [StatementRequest(token, current, WindowEnd(current, fim))]
  {
    var w := (current, WindowEnd(current, fim));
    WindowsUnfold(current, fim);
    SeqShift(done, w, Windows(WindowEnd(current, fim) + 1, fim));
    assert (done + [w])[..|done|] == done;
    PrefixAttempted(api, ws, done + [w]);
    ExtendRequests(token, done, w);
  }

  /** After the last window every answer is in and every window was requested. */
  lemma AllWindowsAnswered(api: Bank, ws: seq<(int, int)>, done: seq<(int, int)>, current: int, fim: int)
    requires ws == done + Windows(current, fim) && current > fim
    requires Answers(api, done).Ok?
    ensures ws == done && ws[..Attempted(api, ws)] == ws
  {
  }

  lemma WindowsUnfold(start: int, fim: int)
    requires start <= fim
    ensures Windows(start, fim) == [(start, WindowEnd(start, fim))] + Windows(WindowEnd(start, fim) + 1, fim)
  {
  }

  lemma SeqShift<T>(done: seq<T>, w: T, rest: seq<T>)
    ensures done + ([w] + rest) == (done + [w]) + rest
    ensures (done + ([w] + rest))[..|done| + 1] == done + [w]
  {
  }
}
