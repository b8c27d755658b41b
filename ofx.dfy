/** `generate_ofx`: the accountant's statement in Open Financial Exchange 1.0.2 SGML form. The
    fixed signon and statement header, one seven-line `<STMTTRN>` aggregate per transaction in row
    order, and the closing ledger balance, joined with newlines. The generation timestamp is a
    parameter. */
module Ofx {
  import opened Wrappers
  import opened Text
  import opened Calendar
  import Tables

  const Credit := "CREDIT"
  const Debit := "DEBIT"
  const StmtTrnOpen := "          <STMTTRN>"
  const StmtTrnClose := "          </STMTTRN>"
  const NoPlate := "N/A"

  /** One row of the transactions table handed to the serialiser: its index, `Data`, `Tipo`,
      `Valor` (exactly, in cents), `Origem` and `Placa da Moto` (`None` when the column is absent). */
  datatype Row = Row(index: int, date: Date, tipo: string, cents: int, origem: string, placa: Option<string>)

  predicate ValidRows(rows: seq<Row>)
  {
    forall i :: 0 <= i < |rows| ==> Valid(rows[i].date)
  }

  /** `agora[:8]`. */
  function DatePart(agora: string): string
  {
    if |agora| <= 8 then agora else agora[..8]
  }

  /** Line `k` of the lines before the first transaction: the OFX header, the signon response and
      the statement's opening. */
  function HeaderLine(agora: string, k: nat): string
    requires k < 38
  {
    if k == 0 then "OFXHEADER:100"
    else if k == 1 then "DATA:OFXSGML"
    else if k == 2 then "VERSION:102"
    else if k == 3 then "SECURITY:NONE"
    else if k == 4 then "ENCODING:UTF-8"
    else if k == 5 then "CHARSET:NONE"
    else if k == 6 then "COMPRESSION:NONE"
    else if k == 7 then "OLDFILEUID:NONE"
    else if k == 8 then "NEWFILEUID:NONE"
    else if k == 9 then ""
    else if k == 10 then "<OFX>"
    else if k == 11 then "  <SIGNONMSGSRSV1>"
    else if k == 12 then "    <SONRS>"
    else if k == 13 then "      <STATUS>"
    else if k == 14 then "        <CODE>0</CODE>"
    else if k == 15 then "        <SEVERITY>INFO</SEVERITY>"
    else if k == 16 then "      </STATUS>"
    else if k == 17 then "      <DTSERVER>" + agora + "</DTSERVER>"
    else if k == 18 then "      <LANGUAGE>POR</LANGUAGE>"
    else if k == 19 then "    </SONRS>"
    else if k == 20 then "  </SIGNONMSGSRSV1>"
    else if k == 21 then "  <BANKMSGSRSV1>"
    else if k == 22 then "    <STMTTRNRS>"
    else if k == 23 then "      <TRNUID>1001</TRNUID>"
    else if k == 24 then "      <STATUS>"
    else if k == 25 then "        <CODE>0</CODE>"
    else if k == 26 then "        <SEVERITY>INFO</SEVERITY>"
    else if k == 27 then "      </STATUS>"
    else if k == 28 then "      <STMTRS>"
    else if k == 29 then "        <CURDEF>BRL</CURDEF>"
    else if k == 30 then "        <BANKACCTFROM>"
    else if k == 31 then "          <BANKID>Locamotos</BANKID>"
    else if k == 32 then "          <ACCTID>1</ACCTID>"
    else if k == 33 then "          <ACCTTYPE>CHECKING</ACCTTYPE>"
    else if k == 34 then "        </BANKACCTFROM>"
    else if k == 35 then "        <BANKTRANLIST>"
    else if k == 36 then "          <DTSTART>" + DatePart(agora) + "</DTSTART>"
    else "          <DTEND>" + DatePart(agora) + "</DTEND>"
  }

  function Header(agora: string): (h: seq<string>)
    ensures |h| == 38
  {
    seq(38, k requires 0 <= k < 38 => HeaderLine(agora, k))
  }

  /** Line `k` of the lines after the last transaction: the closing tags and the ledger balance. */
  function FooterLine(agora: string, k: nat): string
    requires k < 9
  {
    if k == 0 then "        </BANKTRANLIST>"
    else if k == 1 then "        <LEDGERBAL>"
    else if k == 2 then "          <BALAMT>0.00</BALAMT>"
    else if k == 3 then "          <DTASOF>" + agora + "</DTASOF>"
    else if k == 4 then "        </LEDGERBAL>"
    else if k == 5 then "      </STMTRS>"
    else if k == 6 then "    </STMTTRNRS>"
    else if k == 7 then "  </BANKMSGSRSV1>"
    else "</OFX>"
  }

  function Footer(agora: string): (f: seq<string>)
    ensures |f| == 9
  {
    seq(9, k requires 0 <= k < 9 => FooterLine(agora, k))
  }

  function TrnType(tipo: string): (t: string)
    ensures t == Credit <==> Tables.IsIncomeType(tipo)
    ensures t == Debit <==> !Tables.IsIncomeType(tipo)
  {
    if Tables.IsIncomeType(tipo) then Credit else Debit
  }

  /** `strftime("%Y%m%d120000")`. */
  function DtPosted(d: Date): (s: string)
    requires Valid(d)
    ensures |s| == 14
  {
    Pad(d.year, 4) + Pad(d.month, 2) + Pad(d.day, 2) + "120000"
  }

  function Abs(c: int): nat
  {
    if c < 0 then -c else c
  }

  /** `f"{val:.2f}"` with `val = abs(Valor)` for a credit and `-abs(Valor)` for a debit; a zero debit
      prints as "-0.00", as Python prints a negative zero. */
  function TrnAmt(r: Row): string
  {
    if Tables.IsIncomeType(r.tipo) then Fixed2(Abs(r.cents)) else "-" + Fixed2(Abs(r.cents))
  }

  function FitId(r: Row): string
    requires Valid(r.date)
  {
    IntToString(r.index) + DtPosted(r.date)
  }

  function Memo(r: Row): string
  {
    r.origem + " - Moto: " + r.placa.GetOr(NoPlate)
  }

  /** A field of an aggregate: `<TAG>content</TAG>`, indented twelve spaces. */
  function Field(tag: string, content: string): (line: string)
    ensures |line| > 12 && line[10] == ' '
  {
    "            <" + tag + ">" + content + "</" + tag + ">"
  }

  /** Line `k` of the `<STMTTRN>` aggregate of one row. */
  function BlockLine(r: Row, k: nat): string
    requires Valid(r.date) && k < 7
  {
    if k == 0 then StmtTrnOpen
    else if k == 1 then Field("TRNTYPE", TrnType(r.tipo))
    else if k == 2 then Field("DTPOSTED", DtPosted(r.date))
    else if k == 3 then Field("TRNAMT", TrnAmt(r))
    else if k == 4 then Field("FITID", FitId(r))
    else if k == 5 then Field("MEMO", Memo(r))
    else StmtTrnClose
  }

  function Block(r: Row): (b: seq<string>)
    requires Valid(r.date)
    ensures |b| == 7
  {
    seq(7, k requires 0 <= k < 7 => BlockLine(r, k))
  }

  /** The aggregates of the rows, in row order. */
  function Blocks(rows: seq<Row>): (b: seq<string>)
    requires ValidRows(rows)
    ensures |b| == 7 * |rows|
  {
    if |rows| == 0 then [] else Blocks(rows[..|rows| - 1]) + Block(rows[|rows| - 1])
  }

  /** Every line of the statement. */
  function OfxLines(rows: seq<Row>, agora: string): (lines: seq<string>)
    requires ValidRows(rows)
    ensures |lines| == 38 + 7 * |rows| + 9
  {
    Header(agora) + Blocks(rows) + Footer(agora)
  }

  /** `generate_ofx`: the header, then one aggregate per row appended in a loop, then the footer,
      joined with newlines. */
  method GenerateOfx(rows: seq<Row>, agora: string) returns (ofx: string)
    requires ValidRows(rows)
    ensures ofx == Join(OfxLines(rows, agora), "\n")
  {
    var lines := Header(agora);
    for i := 0 to |rows|
      invariant lines == Header(agora) + Blocks(rows[..i])
    {
      assert rows[..i + 1][..i] == rows[..i];
      lines := lines + Block(rows[i]);
    }
    assert rows[..|rows|] == rows;
    lines := lines + Footer(agora);
    ofx := Join(lines, "\n");
  }

  /** Row `i`'s aggregate occupies lines `7i` to `7i + 6` of the transaction list. */
  lemma {:induction false} BlockPosition(rows: seq<Row>, i: int)
    requires ValidRows(rows) && 0 <= i < |rows|
    ensures Blocks(rows)[7 * i..7 * i + 7] == Block(rows[i])
  {
    var front, last := BlocksUnfold(rows);
    var a, b := Blocks(front), Block(last);
    if i < |front| {
      BlockPosition(front, i);
      SliceOfPrefix(a, b, 7 * i, 7 * i + 7);
      assert front[i] == rows[i];
      assert Blocks(rows)[7 * i..7 * i + 7] == a[7 * i..7 * i + 7];
    } else {
      SliceOfSuffix(a, b);
      assert 7 * i == |a|;
      assert Blocks(rows)[7 * i..7 * i + 7] == b;
    }
  }

  /** The aggregates of non-empty rows: those of all rows but the last, then the last one's. */
  lemma BlocksUnfold(rows: seq<Row>) returns (front: seq<Row>, last: Row)
    requires ValidRows(rows) && |rows| > 0
    ensures front == rows[..|rows| - 1] && last == rows[|rows| - 1]
    ensures ValidRows(front) && Valid(last.date)
    ensures forall i :: 0 <= i < |front| ==> front[i] == rows[i]
    ensures Blocks(rows) == Blocks(front) + Block(last)
  {
    front, last := rows[..|rows| - 1], rows[|rows| - 1];
  }

  lemma SliceOfPrefix(a: seq<string>, b: seq<string>, lo: int, hi: int)
    requires 0 <= lo <= hi <= |a|
    ensures (a + b)[lo..hi] == a[lo..hi]
  {
  }

  lemma SliceOfSuffix(a: seq<string>, b: seq<string>)
    ensures (a + b)[|a|..|a| + |b|] == b
  {
  }

  /** The statement opens with the nine OFX header lines, a blank line and `<OFX>`; row `i`'s
      aggregate follows the 38 header lines at offset `7i`; the last line is `</OFX>`. */
  lemma StatementLayout(rows: seq<Row>, agora: string, i: int)
    requires ValidRows(rows) && 0 <= i < |rows|
    ensures var lines := OfxLines(rows, agora);
      lines[..11] == ["OFXHEADER:100", "DATA:OFXSGML", "VERSION:102", "SECURITY:NONE", "ENCODING:UTF-8",
                      "CHARSET:NONE", "COMPRESSION:NONE", "OLDFILEUID:NONE", "NEWFILEUID:NONE", "", "<OFX>"] &&
      lines[38 + 7 * i..38 + 7 * i + 7] == Block(rows[i]) &&
      lines[|lines| - 1] == "</OFX>"
  {
    var lines := OfxLines(rows, agora);
    BlockPosition(rows, i);
    assert lines[38 + 7 * i..38 + 7 * i + 7] == Blocks(rows)[7 * i..7 * i + 7];
  }

  /** The joined text begins with the header's first line and ends with `</OFX>`. */
  lemma JoinedEnds(rows: seq<Row>, agora: string)
    requires ValidRows(rows)
    ensures var ofx := Join(OfxLines(rows, agora), "\n");
      |ofx| >= 20 && ofx[..14] == "OFXHEADER:100\n" && ofx[|ofx| - 7..] == "\n</OFX>"
  {
    var lines := OfxLines(rows, agora);
    var body := lines[..|lines| - 1];
    assert lines == body + ["</OFX>"];
    JoinAppend(body, ["</OFX>"], "\n");
    var rest := lines[1..];
    assert lines == [lines[0]] + rest;
    JoinAppend([lines[0]], rest, "\n");
    var ofx := Join(lines, "\n");
    assert ofx == "OFXHEADER:100" + "\n" + Join(rest, "\n");
    assert ofx == Join(body, "\n") + "\n" + "</OFX>";
  }

  /** How many lines are exactly `line`. */
  function CountLine(lines: seq<string>, line: string): nat
  {
    if |lines| == 0 then 0
    else CountLine(lines[..|lines| - 1], line) + (if lines[|lines| - 1] == line then 1 else 0)
  }

  lemma {:induction false} CountLineAppend(a: seq<string>, b: seq<string>, line: string)
    ensures CountLine(a + b, line) == CountLine(a, line) + CountLine(b, line)
  {
    if |b| > 0 {
      assert (a + b)[..|a + b| - 1] == a + b[..|b| - 1];
      CountLineAppend(a, b[..|b| - 1], line);
    } else {
      assert a + b == a;
    }
  }

  /** A line that opens a transaction aggregate: its eleventh character is '<'. Every other line of
      an aggregate is indented further. */
  lemma BlockHasOneOpening(r: Row)
    requires Valid(r.date)
    ensures CountLine(Block(r), StmtTrnOpen) == 1
  {
    var b := Block(r);
    forall k | 1 <= k < 7
      ensures b[k] != StmtTrnOpen
    {
      if k < 6 {
        assert b[k][10] == ' ';
      }
    }
    assert b == [b[0]] + b[1..];
    CountLineAppend([b[0]], b[1..], StmtTrnOpen);
    NoOpening(b[1..]);
  }

  lemma {:induction false} NoOpening(lines: seq<string>)
    requires forall k :: 0 <= k < |lines| ==> lines[k] != StmtTrnOpen
    ensures CountLine(lines, StmtTrnOpen) == 0
  {
    if |lines| > 0 {
      NoOpening(lines[..|lines| - 1]);
    }
  }

  /** Exactly one aggregate is emitted per row. */
  lemma {:induction false} OneAggregatePerRow(rows: seq<Row>, agora: string)
    requires ValidRows(rows)
    ensures CountLine(OfxLines(rows, agora), StmtTrnOpen) == |rows|
  {
    BlocksOpenings(rows);
    HeaderFooterHaveNoOpening(agora);
    var h, b, f := Header(agora), Blocks(rows), Footer(agora);
    CountLineAppend(h, b, StmtTrnOpen);
    CountLineAppend(h + b, f, StmtTrnOpen);
  }

  lemma HeaderFooterHaveNoOpening(agora: string)
    ensures CountLine(Header(agora), StmtTrnOpen) == 0
    ensures CountLine(Footer(agora), StmtTrnOpen) == 0
  {
    var h, f := Header(agora), Footer(agora);
    forall k | 0 <= k < |h|
      ensures h[k] != StmtTrnOpen
    {
      assert h[k] != StmtTrnOpen;
    }
    NoOpening(h);
    NoOpening(f);
  }

  lemma {:induction false} BlocksOpenings(rows: seq<Row>)
    requires ValidRows(rows)
    ensures CountLine(Blocks(rows), StmtTrnOpen) == |rows|
  {
    if |rows| > 0 {
      var front := rows[..|rows| - 1];
      assert ValidRows(front);
      BlocksOpenings(front);
      BlockHasOneOpening(rows[|rows| - 1]);
      CountLineAppend(Blocks(front), Block(rows[|rows| - 1]), StmtTrnOpen);
    }
  }

  /** The amount carries the value's magnitude: unsigned for a credit, with a minus for a debit. */
  lemma AmountSign(r: Row)
    ensures Tables.IsIncomeType(r.tipo) ==> TrnAmt(r) == Fixed2(Abs(r.cents)) && TrnAmt(r)[0] != '-'
    ensures !Tables.IsIncomeType(r.tipo) ==> TrnAmt(r)[0] == '-' && TrnAmt(r)[1..] == Fixed2(Abs(r.cents))
    ensures Abs(r.cents) == Abs(-r.cents) && TrnAmt(r) == TrnAmt(r.(cents := -r.cents))
  {
  }

  /** DTPOSTED is the date's ISO form without the dashes, at noon: distinct dates post distinctly. */
  lemma DtPostedLayout(d: Date, e: Date)
    requires Valid(d) && Valid(e)
    ensures var s := DtPosted(d);
      s[..4] == Iso(d)[..4] && s[4..6] == Iso(d)[5..7] && s[6..8] == Iso(d)[8..] && s[8..] == "120000"
    ensures DtPosted(d) == DtPosted(e) <==> d == e
  {
    var s, t := DtPosted(d), DtPosted(e);
    if s == t {
      assert Pad(d.year, 4) == s[..4] == t[..4] == Pad(e.year, 4);
      assert Pad(d.month, 2) == s[4..6] == t[4..6] == Pad(e.month, 2);
      assert Pad(d.day, 2) == s[6..8] == t[6..8] == Pad(e.day, 2);
      assert Pow10(4) == 10000 && Pow10(2) == 100;
      PadInjective(d.year, e.year, 4);
      PadInjective(d.month, e.month, 2);
      PadInjective(d.day, e.day, 2);
    }
  }

  /** Rows with different indices get different FITIDs, whatever their dates. */
  lemma FitIdsDistinct(r1: Row, r2: Row)
    requires Valid(r1.date) && Valid(r2.date) && r1.index != r2.index
    ensures FitId(r1) != FitId(r2)
  {
    var a, b := IntToString(r1.index), IntToString(r2.index);
    if FitId(r1) == FitId(r2) {
      assert |a| == |b|;
      assert a == FitId(r1)[..|a|] == FitId(r2)[..|b|] == b;
      IntToStringInjective(r1.index, r2.index);
    }
  }
}
