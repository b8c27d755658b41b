/** The computations the dashboard screens make on gateway payments and stored transactions:
    the charged amount ("Valor Cobrado") of a payment, the payer name, the paid and pending
    buckets of a payer, the revenue, expense and profit totals, and the Brazilian currency
    rendering of `format_currency`. Amounts are exact reals; binary floating point is not modelled. */
module Reconciliation {
  import opened Wrappers
  import opened Text
  import opened Asaas
  import Tables

  const Unknown := "Desconhecido"
  const Received := "RECEIVED"
  const Confirmed := "CONFIRMED"
  const ReceivedInCash := "RECEIVED_IN_CASH"
  const Refunded := "REFUNDED"

  // ---------------------------------------------------------------------------
  // Generic selection and summation (pandas boolean masks and `.sum()`)

  /** The elements of `xs` that `keep` selects, in order. */
  function Where<T>(xs: seq<T>, keep: T -> bool): (r: seq<T>)
    ensures |r| <= |xs|
    ensures forall i :: 0 <= i < |r| ==> r[i] in xs && keep(r[i])
    ensures forall i :: 0 <= i < |xs| ==> (xs[i] in r <==> keep(xs[i]))
  {
    if |xs| == 0 then []
    else Where(xs[..|xs| - 1], keep) + (if keep(xs[|xs| - 1]) then [xs[|xs| - 1]] else [])
  }

  /** The sum of `w` over `xs`. */
  function SumBy<T>(xs: seq<T>, w: T -> real): real
  {
    if |xs| == 0 then 0.0 else SumBy(xs[..|xs| - 1], w) + w(xs[|xs| - 1])
  }

  lemma {:induction false} SumByAppend<T>(xs: seq<T>, ys: seq<T>, w: T -> real)
    ensures SumBy(xs + ys, w) == SumBy(xs, w) + SumBy(ys, w)
  {
    if |ys| > 0 {
      assert (xs + ys)[..|xs + ys| - 1] == xs + ys[..|ys| - 1];
      SumByAppend(xs, ys[..|ys| - 1], w);
    } else {
      assert xs + ys == xs;
    }
  }

  lemma {:induction false} WhereAppend<T>(xs: seq<T>, ys: seq<T>, keep: T -> bool)
    ensures Where(xs + ys, keep) == Where(xs, keep) + Where(ys, keep)
  {
    if |ys| > 0 {
      assert (xs + ys)[..|xs + ys| - 1] == xs + ys[..|ys| - 1];
      WhereAppend(xs, ys[..|ys| - 1], keep);
    } else {
      assert xs + ys == xs;
    }
  }

  /** The negation of a mask (`~mask`). */
  function Not<T>(keep: T -> bool): T -> bool
  {
    x => !keep(x)
  }

  /** A mask and its negation split a column's sum in two. */
  lemma {:induction false} SumSplit<T>(xs: seq<T>, keep: T -> bool, w: T -> real)
    ensures SumBy(xs, w) == SumBy(Where(xs, keep), w) + SumBy(Where(xs, Not(keep)), w)
  {
    if |xs| > 0 {
      var init, last := xs[..|xs| - 1], xs[|xs| - 1];
      SumSplit(init, keep, w);
      var a := if keep(last) then [last] else [];
      var b := if !keep(last) then [last] else [];
      SumByAppend(Where(init, keep), a, w);
      SumByAppend(Where(init, Not(keep)), b, w);
    }
  }

  /** A mask and its negation split the rows themselves: every row lands in exactly one part. */
  lemma {:induction false} WhereSplit<T>(xs: seq<T>, keep: T -> bool)
    ensures multiset(Where(xs, keep)) + multiset(Where(xs, Not(keep))) == multiset(xs)
  {
    if |xs| > 0 {
      var init, last := xs[..|xs| - 1], xs[|xs| - 1];
      WhereSplit(init, keep);
      WhereLast(xs, keep);
      WhereLast(xs, Not(keep));
      MultisetLast(xs);
      assert Not(keep)(last) == !keep(last);
    }
  }

  lemma MultisetLast<T>(xs: seq<T>)
    requires |xs| > 0
    ensures multiset(xs) == multiset(xs[..|xs| - 1]) + multiset{xs[|xs| - 1]}
  {
    assert xs == xs[..|xs| - 1] + [xs[|xs| - 1]];
  }

  /** What the last element adds to the rows a mask selects. */
  lemma WhereLast<T>(xs: seq<T>, keep: T -> bool)
    requires |xs| > 0
    ensures multiset(Where(xs, keep)) == multiset(Where(xs[..|xs| - 1], keep))
      + (if keep(xs[|xs| - 1]) then multiset{xs[|xs| - 1]} else multiset{})
  {
  }

  /** Applying mask `b` after mask `a` is applying the mask `c` that holds where both do. */
  lemma {:induction false} WhereBoth<T>(xs: seq<T>, a: T -> bool, b: T -> bool, c: T -> bool)
    requires forall x :: c(x) == (a(x) && b(x))
    ensures Where(Where(xs, a), b) == Where(xs, c)
  {
    if |xs| > 0 {
      var init, last := xs[..|xs| - 1], xs[|xs| - 1];
      WhereBoth(init, a, b, c);
      WhereAppend(Where(init, a), if a(last) then [last] else [], b);
    }
  }

  /** Applying two masks in either order selects the same rows. */
  lemma {:induction false} WhereCommutes<T>(xs: seq<T>, a: T -> bool, b: T -> bool)
    ensures Where(Where(xs, a), b) == Where(Where(xs, b), a)
  {
    if |xs| > 0 {
      var init, last := xs[..|xs| - 1], xs[|xs| - 1];
      WhereCommutes(init, a, b);
      WhereAppend(Where(init, a), if a(last) then [last] else [], b);
      WhereAppend(Where(init, b), if b(last) then [last] else [], a);
    }
  }

  // ---------------------------------------------------------------------------
  // Charged amount ("Valor Cobrado")

  predicate IsPaid(p: Payment)
  {
    p.status == Some(Received) || p.status == Some(Confirmed) || p.status == Some(ReceivedInCash)
  }

  /** `row.get(field) or 0.0`. */
  function OrZero(v: Option<real>): real
  {
    v.GetOr(0.0)
  }

  /** The discount is subtracted only when the `discount` field is a dict; its `value` defaults to 0.0. */
  function DiscountValue(d: DiscountField): real
  {
    match d
    case DiscountDict(v) => v.GetOr(0.0)
    case _ => 0.0
  }

  /** The charged amount: for a paid status the face value plus interest and fine minus the
      discount, otherwise the face value alone. */
  function ChargedAmount(p: Payment): real
  {
    if IsPaid(p) then OrZero(p.value) + OrZero(p.interestValue) + OrZero(p.fineValue) - DiscountValue(p.discount)
    else OrZero(p.value)
  }

  /** Interest, fine and discount only matter once the payment is paid. */
  lemma UnpaidIgnoresAdjustments(p: Payment, interest: Option<real>, fine: Option<real>, discount: DiscountField)
    requires !IsPaid(p)
    ensures ChargedAmount(p.(interestValue := interest, fineValue := fine, discount := discount)) == OrZero(p.value)
  {
  }

  /** Without adjustments the charged amount is the face value, whatever the status. */
  lemma NoAdjustmentsChargesFaceValue(p: Payment)
    requires OrZero(p.interestValue) == 0.0 && OrZero(p.fineValue) == 0.0 && DiscountValue(p.discount) == 0.0
    ensures ChargedAmount(p) == OrZero(p.value)
  {
  }

  /** A paid payment's charged amount exceeds its face value by exactly interest plus fine minus
      discount, and a larger discount never increases it. */
  lemma PaidAdjustments(p: Payment, d: real)
    requires IsPaid(p) && d >= DiscountValue(p.discount)
    ensures ChargedAmount(p) - OrZero(p.value) == OrZero(p.interestValue) + OrZero(p.fineValue) - DiscountValue(p.discount)
    ensures ChargedAmount(p.(discount := DiscountDict(Some(d)))) <= ChargedAmount(p)
  {
  }

  // ---------------------------------------------------------------------------
  // Payer names

  /** `{c.get("id"): c.get("name", "Desconhecido") for c in customers}`: later customers overwrite earlier ones. */
  function CustomerNames(cs: seq<Customer>): (m: map<Option<string>, string>)
    ensures forall id :: id in m <==> exists i :: 0 <= i < |cs| && cs[i].id == id
  {
    if |cs| == 0 then map[]
    else
      var m0 := CustomerNames(cs[..|cs| - 1]);
      assert forall i :: 0 <= i < |cs| - 1 ==> cs[..|cs| - 1][i] == cs[i];
      m0[cs[|cs| - 1].id := cs[|cs| - 1].name.GetOr(Unknown)]
  }

  /** A customer's name is the one the map gives its id unless a later customer has the same id. */
  lemma {:induction false} LastCustomerWins(cs: seq<Customer>, i: nat)
    requires i < |cs|
    requires forall j :: i < j < |cs| ==> cs[j].id != cs[i].id
    ensures CustomerNames(cs)[cs[i].id] == cs[i].name.GetOr(Unknown)
  {
    if i < |cs| - 1 {
      LastCustomerWins(cs[..|cs| - 1], i);
    }
  }

  /** The "Sacado" of a payment: `customer_map.get(c_id, "Desconhecido")`. A payment whose
      `customer` is `None` is looked up like any other key, so it takes the name of a customer
      record without an `id` when there is one. */
  function Payer(names: map<Option<string>, string>, p: Payment): (r: string)
    ensures p.customer !in names ==> r == Unknown
    ensures r != Unknown ==> p.customer in names && names[p.customer] == r
  {
    if p.customer in names then names[p.customer] else Unknown
  }

  /** A payment's payer against the customer list: "Desconhecido" when no customer has its
      `customer` id, and otherwise the name of the last customer with that id. */
  lemma PayerOfCustomers(cs: seq<Customer>, p: Payment, i: nat)
    requires i < |cs| && cs[i].id == p.customer
    requires forall j :: i < j < |cs| ==> cs[j].id != p.customer
    ensures Payer(CustomerNames(cs), p) == cs[i].name.GetOr(Unknown)
  {
    LastCustomerWins(cs, i);
  }

  lemma PayerUnknownCustomer(cs: seq<Customer>, p: Payment)
    requires forall j :: 0 <= j < |cs| ==> cs[j].id != p.customer
    ensures Payer(CustomerNames(cs), p) == Unknown
  {
  }

  // ---------------------------------------------------------------------------
  // Paid and pending buckets of a payer

  predicate IsPending(p: Payment)
  {
    !IsPaid(p) && p.status != Some(Refunded)
  }

  predicate IsRefundedUnpaid(p: Payment)
  {
    !IsPaid(p) && p.status == Some(Refunded)
  }

  /** The payments grouped under one payer name. */
  function PayerFilter(names: map<Option<string>, string>, payer: string): Payment -> bool
  {
    p => Payer(names, p) == payer
  }

  function PayerGroup(names: map<Option<string>, string>, ps: seq<Payment>, payer: string): seq<Payment>
  {
    Where(ps, PayerFilter(names, payer))
  }

  /** ("Pago", "A Receber") of a payer: the charged amounts of its paid and of its pending payments. */
  function PayerTotals(names: map<Option<string>, string>, ps: seq<Payment>, payer: string): (real, real)
  {
    var group := PayerGroup(names, ps, payer);
    (SumBy(Where(group, IsPaid), ChargedAmount), SumBy(Where(group, IsPending), ChargedAmount))
  }

  /** Paid and pending are disjoint, and a refunded unpaid payment is in neither bucket. */
  lemma BucketsDisjoint(group: seq<Payment>)
    ensures forall p :: p in Where(group, IsPaid) ==> p !in Where(group, IsPending)
    ensures forall i :: 0 <= i < |group| && group[i].status == Some(Refunded) ==>
      group[i] !in Where(group, IsPaid) && group[i] !in Where(group, IsPending)
  {
  }

  /** Paid, pending and refunded account for every payment of the group exactly once. */
  lemma BucketsPartition(group: seq<Payment>)
    ensures multiset(Where(group, IsPaid)) + multiset(Where(group, IsPending)) + multiset(Where(group, IsRefundedUnpaid))
      == multiset(group)
  {
    var notPaid := Where(group, Not(IsPaid));
    WhereSplit(group, IsPaid);
    WhereSplit(notPaid, IsPending);
    WhereBoth(group, Not(IsPaid), IsPending, IsPending);
    WhereBoth(group, Not(IsPaid), Not(IsPending), IsRefundedUnpaid);
    assert multiset(Where(notPaid, IsPending)) + multiset(Where(notPaid, Not(IsPending))) == multiset(notPaid);
    assert multiset(Where(group, IsPaid)) + multiset(notPaid) == multiset(group);
  }

  /** The paid total, the pending total and the refunded total add up to the group's charged amount. */
  lemma BucketsTotal(group: seq<Payment>)
    ensures SumBy(Where(group, IsPaid), ChargedAmount) + SumBy(Where(group, IsPending), ChargedAmount)
      + SumBy(Where(group, IsRefundedUnpaid), ChargedAmount) == SumBy(group, ChargedAmount)
  {
    SumSplit(group, IsPaid, ChargedAmount);
    SumSplit(Where(group, Not(IsPaid)), IsPending, ChargedAmount);
    WhereBoth(group, Not(IsPaid), IsPending, IsPending);
    WhereBoth(group, Not(IsPaid), Not(IsPending), IsRefundedUnpaid);
  }

  // ---------------------------------------------------------------------------
  // Dashboard totals over the `transacoes` table

  predicate IsRevenue(t: Tables.Transacao)
  {
    Tables.IsIncomeType(t.tipo)
  }

  predicate IsExpense(t: Tables.Transacao)
  {
    t.tipo == Tables.Saida
  }

  function Valor(t: Tables.Transacao): real
  {
    t.valor
  }

  /** "Receitas Totais". */
  function Revenue(ts: seq<Tables.Transacao>): real
  {
    SumBy(Where(ts, IsRevenue), Valor)
  }

  /** "Despesas Totais". */
  function Expenses(ts: seq<Tables.Transacao>): real
  {
    SumBy(Where(ts, IsExpense), Valor)
  }

  /** "Lucro Líquido". */
  function Profit(ts: seq<Tables.Transacao>): real
  {
    Revenue(ts) - Expenses(ts)
  }

  /** A row's effect on the profit: + for revenue, - for an expense, nothing for any other type. */
  function SignedValor(t: Tables.Transacao): real
  {
    if IsRevenue(t) then t.valor else if IsExpense(t) then -t.valor else 0.0
  }

  /** The profit is the signed sum of the rows, and every total adds up over a split of the rows. */
  lemma {:induction false} ProfitIsSignedSum(ts: seq<Tables.Transacao>)
    ensures Profit(ts) == SumBy(ts, SignedValor)
  {
    if |ts| > 0 {
      var init, last := ts[..|ts| - 1], ts[|ts| - 1];
      ProfitIsSignedSum(init);
      SumWhereLast(ts, IsRevenue, Valor);
      SumWhereLast(ts, IsExpense, Valor);
      RevenueIsNotExpense(last);
      assert SumBy(ts, SignedValor) == SumBy(init, SignedValor) + SignedValor(last);
    }
  }

  lemma RevenueIsNotExpense(t: Tables.Transacao)
    ensures !(IsRevenue(t) && IsExpense(t))
  {
    if IsExpense(t) {
      assert t.tipo[0] == 's';
    }
  }

  /** What the last row adds to the sum over the rows a mask selects. */
  lemma SumWhereLast<T>(xs: seq<T>, keep: T -> bool, w: T -> real)
    requires |xs| > 0
    ensures SumBy(Where(xs, keep), w)
      == SumBy(Where(xs[..|xs| - 1], keep), w) + (if keep(xs[|xs| - 1]) then w(xs[|xs| - 1]) else 0.0)
  {
    var init, last := xs[..|xs| - 1], xs[|xs| - 1];
    var tail := if keep(last) then [last] else [];
    SumByAppend(Where(init, keep), tail, w);
    assert SumBy([last], w) == w(last) by {
      assert [last][..0] == [];
    }
  }

  lemma TotalsAdditive(a: seq<Tables.Transacao>, b: seq<Tables.Transacao>)
    ensures Revenue(a + b) == Revenue(a) + Revenue(b)
    ensures Expenses(a + b) == Expenses(a) + Expenses(b)
    ensures Profit(a + b) == Profit(a) + Profit(b)
  {
    WhereAppend(a, b, IsRevenue);
    WhereAppend(a, b, IsExpense);
    SumByAppend(Where(a, IsRevenue), Where(b, IsRevenue), Valor);
    SumByAppend(Where(a, IsExpense), Where(b, IsExpense), Valor);
  }

  /** The "Mes" of a row: the `YYYY-MM` prefix of its ISO date. */
  function MonthOf(t: Tables.Transacao): string
  {
    if |t.data| >= 7 then t.data[..7] else t.data
  }

  function InMonth(month: string): Tables.Transacao -> bool
  {
    t => MonthOf(t) == month
  }

  /** A month's bars of the cash-flow chart: ("Receitas", "Despesas") of that month. */
  function MonthlyTotals(ts: seq<Tables.Transacao>, month: string): (real, real)
  {
    (Revenue(Where(ts, InMonth(month))), Expenses(Where(ts, InMonth(month))))
  }

  /** A month's bars and the other months' totals add up to the dashboard totals. */
  lemma MonthlySplit(ts: seq<Tables.Transacao>, month: string)
    ensures Revenue(ts) == MonthlyTotals(ts, month).0 + Revenue(Where(ts, Not(InMonth(month))))
    ensures Expenses(ts) == MonthlyTotals(ts, month).1 + Expenses(Where(ts, Not(InMonth(month))))
  {
    var inM := InMonth(month);
    SumSplit(Where(ts, IsRevenue), inM, Valor);
    SumSplit(Where(ts, IsExpense), inM, Valor);
    WhereCommutes(ts, IsRevenue, inM);
    WhereCommutes(ts, IsRevenue, Not(inM));
    WhereCommutes(ts, IsExpense, inM);
    WhereCommutes(ts, IsExpense, Not(inM));
  }

  // ---------------------------------------------------------------------------
  // format_currency

  /** `f"{v:,.2f}"` with `.replace(",", "X").replace(".", ",").replace("X", ".")`; a value
      `float()` rejects is returned unchanged. */
  function FormatCurrency(v: Amount): (r: string)
    ensures v.Number? ==> r == SwapSeparators(GroupedFixed2(v.cents))
    ensures v.NotNumeric? ==> r == v.raw
  {
    match v
    case Number(c) =>
      ThreeReplacesSwap(GroupedFixed2(c));
      ReplaceChar(ReplaceChar(ReplaceChar(GroupedFixed2(c), ',', 'X'), '.', ','), 'X', '.')
    case NotNumeric(raw) => raw
  }

  /** The Brazilian rendering has its decimal comma third from the end and no other comma, and
      swapping the separators back gives Python's own rendering. */
  lemma DecimalComma(c: int)
    ensures var r := FormatCurrency(Number(c));
      r[|r| - 3] == ',' && (forall i :: 0 <= i < |r| && i != |r| - 3 ==> r[i] != ',') &&
      SwapSeparators(r) == GroupedFixed2(c)
  {
    var s := GroupedFixed2(c);
    GroupedFixed2Point(c);
    SwapSeparatorsInvolution(s);
  }
}
