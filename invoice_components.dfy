/** The invoice card: its displayed total (`calculateTotal`) and its status badge
    (`getStatusBadge`), both pure computations over an invoice value. Amounts are
    exact reals; the card's `toFixed(2)` display rounding is not part of this model. */
module InvoiceComponents {
  import opened Wrappers

  /** One line item. Quantity and unit price may be missing. */
  datatype Line = Line(description: string, quantity: Option<real>, unitPrice: Option<real>)

  /** The fields of an invoice that the totals and the badge read. */
  datatype Invoice = Invoice(
    id: string,
    name: string,
    status: int,
    vatActive: bool,
    vatRate: real,
    lines: seq<Line>)

  // ---------------------------------------------------------------------------
  // calculateTotal
  // ---------------------------------------------------------------------------

  /** `line.quantity ?? 0` */
  function Quantity(line: Line): (q: real)
    ensures line.quantity.None? ==> q == 0.0
    ensures line.quantity.Some? ==> q == line.quantity.value
  {
    line.quantity.GetOr(0.0)
  }

  /** `line.unitPrice ?? 0` */
  function UnitPrice(line: Line): (p: real)
    ensures line.unitPrice.None? ==> p == 0.0
    ensures line.unitPrice.Some? ==> p == line.unitPrice.value
  {
    line.unitPrice.GetOr(0.0)
  }

  /** What one line adds to the pre-tax total. */
  function LineAmount(line: Line): (a: real)
    ensures line.quantity.None? || line.unitPrice.None? ==> a == 0.0
    ensures line.quantity.Some? && line.unitPrice.Some? ==> a == line.quantity.value * line.unitPrice.value
  {
    Quantity(line) * UnitPrice(line)
  }

  /** Reference definition of the pre-tax total: the sum of the line amounts. */
  function Sum(lines: seq<Line>): real {
    if |lines| == 0 then 0.0 else LineAmount(lines[0]) + Sum(lines[1..])
  }

  /** The `reduce` of the card: a left fold that adds each line's amount to the
      accumulator, front to back. */
  function Fold(acc: real, lines: seq<Line>): (r: real)
    ensures r == acc + Sum(lines)
    decreases |lines|
  {
    if |lines| == 0 then acc else Fold(acc + LineAmount(lines[0]), lines[1..])
  }

  /** totalHT: the fold started from 0. */
  function TotalHT(lines: seq<Line>): (r: real)
    ensures r == Sum(lines)
    ensures lines == [] ==> r == 0.0
  {
    Fold(0.0, lines)
  }

  /** The card's total, as written: VAT at `vatRate` percent is added to totalHT
      whether or not `vatActive` is set. */
  function CalculateTotal(inv: Invoice): (r: real)
    ensures r == Sum(inv.lines) * (1.0 + inv.vatRate / 100.0)
    ensures inv.lines == [] ==> r == 0.0
    ensures inv.vatRate == 0.0 ==> r == TotalHT(inv.lines)
  {
    var totalHT := TotalHT(inv.lines);
    var totalVAT := totalHT * (inv.vatRate / 100.0);
    totalHT + totalVAT
  }

  lemma {:induction false} SumAppend(a: seq<Line>, b: seq<Line>)
    ensures Sum(a + b) == Sum(a) + Sum(b)
    decreases |a|
  {
    if |a| == 0 {
      assert a + b == b;
    } else {
      assert (a + b)[1..] == a[1..] + b;
      SumAppend(a[1..], b);
    }
  }

  /** Appending a line raises totalHT by exactly that line's quantity times its
      unit price; a line with a missing quantity or price leaves it unchanged. */
  lemma TotalHTAppendLine(lines: seq<Line>, line: Line)
    ensures TotalHT(lines + [line]) == TotalHT(lines) + Quantity(line) * UnitPrice(line)
    ensures line.quantity.None? || line.unitPrice.None? ==> TotalHT(lines + [line]) == TotalHT(lines)
  {
    SumAppend(lines, [line]);
    assert Sum([line]) == LineAmount(line) by {
      assert [line][1..] == [];
    }
  }

  /** The sum is the amount of line i plus the sum of the other lines. */
  lemma SumRemove(s: seq<Line>, i: nat)
    requires i < |s|
    ensures Sum(s) == LineAmount(s[i]) + Sum(s[..i] + s[i + 1..])
  {
    assert s == s[..i] + ([s[i]] + s[i + 1..]);
    SumAppend(s[..i], [s[i]] + s[i + 1..]);
    assert ([s[i]] + s[i + 1..])[1..] == s[i + 1..];
    SumAppend(s[..i], s[i + 1..]);
  }

  /** Removing the element at index i removes exactly one occurrence of it. */
  lemma MultisetRemove(s: seq<Line>, i: nat)
    requires i < |s|
    ensures multiset(s[..i] + s[i + 1..]) == multiset(s) - multiset{s[i]}
  {
    assert s == s[..i] + [s[i]] + s[i + 1..];
  }

  /** Sum does not depend on the order of the lines. */
  lemma {:induction false} SumPermutation(a: seq<Line>, b: seq<Line>)
    requires multiset(a) == multiset(b)
    ensures Sum(a) == Sum(b)
    decreases |a|
  {
    if |a| != 0 {
      var x := a[0];
      assert x in multiset(b) by {
        assert x in multiset(a);
      }
      var i :| 0 <= i < |b| && b[i] == x;
      var rest := b[..i] + b[i + 1..];
      assert multiset(a[1..]) == multiset(rest) by {
        assert a == [x] + a[1..];
        MultisetRemove(b, i);
      }
      SumPermutation(a[1..], rest);
      SumRemove(b, i);
    }
  }

  /** Reordering the lines of an invoice does not change the card total. */
  lemma TotalReorderInvariant(inv: Invoice, lines: seq<Line>)
    requires multiset(lines) == multiset(inv.lines)
    ensures CalculateTotal(inv.(lines := lines)) == CalculateTotal(inv)
  {
    SumPermutation(lines, inv.lines);
  }

  /** The card total ignores the VAT switch. */
  lemma TotalIgnoresVatActive(inv: Invoice, active: bool)
    ensures CalculateTotal(inv.(vatActive := active)) == CalculateTotal(inv)
  {
  }

  /** No quantity and no unit price below zero, where present. */
  predicate NonNegativeLines(lines: seq<Line>) {
    forall i :: 0 <= i < |lines| ==> Quantity(lines[i]) >= 0.0 && UnitPrice(lines[i]) >= 0.0
  }

  lemma {:induction false} SumNonNegative(lines: seq<Line>)
    requires NonNegativeLines(lines)
    ensures Sum(lines) >= 0.0
    decreases |lines|
  {
    if |lines| != 0 {
      assert NonNegativeLines(lines[1..]) by {
        forall i | 0 <= i < |lines[1..]|
          ensures Quantity(lines[1..][i]) >= 0.0 && UnitPrice(lines[1..][i]) >= 0.0
        {
          assert lines[1..][i] == lines[i + 1];
        }
      }
      SumNonNegative(lines[1..]);
      assert LineAmount(lines[0]) >= 0.0 by {
        assert Quantity(lines[0]) >= 0.0 && UnitPrice(lines[0]) >= 0.0;
      }
    }
  }

  /** With non-negative quantities, prices and rate: total >= totalHT >= 0. */
  lemma TotalBounds(inv: Invoice)
    requires NonNegativeLines(inv.lines) && inv.vatRate >= 0.0
    ensures 0.0 <= TotalHT(inv.lines) <= CalculateTotal(inv)
  {
    SumNonNegative(inv.lines);
    var ht := Sum(inv.lines);
    assert ht * (inv.vatRate / 100.0) >= 0.0;
  }

  /** Two lines (2 x 1000) and (1 x 500) at 18 % VAT: totalHT 2500, total 2950. */
  lemma WorkedExample()
    ensures var inv := Invoice("1", "facture", 1, true, 18.0,
                               [Line("a", Some(2.0), Some(1000.0)), Line("b", Some(1.0), Some(500.0))]);
            TotalHT(inv.lines) == 2500.0 && CalculateTotal(inv) == 2950.0
  {
  }

  // ---------------------------------------------------------------------------
  // The detail page's totals, and the card total that would agree with them
  // ---------------------------------------------------------------------------

  datatype Totals = Totals(totalHT: real, totalVAT: real, totalTTC: real)

  /** The totals the invoice's detail page shows: VAT only when `vatActive`. */
  function DetailTotals(inv: Invoice): (t: Totals)
    ensures t.totalHT == Sum(inv.lines)
    ensures t.totalTTC == t.totalHT + t.totalVAT
    ensures !inv.vatActive ==> t.totalVAT == 0.0 && t.totalTTC == t.totalHT
  {
    var ht := TotalHT(inv.lines);
    var vat := if inv.vatActive then ht * (inv.vatRate / 100.0) else 0.0;
    Totals(ht, vat, ht + vat)
  }

  /** The card total as written disagrees with the detail page's TTC when VAT is
      switched off: one line 1 x 100 at 18 % gives 118 on the card, 100 on the page. */
  lemma CardTotalDisagreesWhenVatOff()
    ensures var inv := Invoice("1", "facture", 1, false, 18.0, [Line("a", Some(1.0), Some(100.0))]);
            CalculateTotal(inv) == 118.0 && DetailTotals(inv).totalTTC == 100.0
  {
  }

  /** The card total honouring the VAT switch. */
  function CardTotal(inv: Invoice): (r: real)
    ensures r == DetailTotals(inv).totalTTC
    ensures inv.vatActive ==> r == CalculateTotal(inv)
    ensures !inv.vatActive ==> r == Sum(inv.lines)
  {
    var totalHT := TotalHT(inv.lines);
    var totalVAT := if inv.vatActive then totalHT * (inv.vatRate / 100.0) else 0.0;
    totalHT + totalVAT
  }

  // ---------------------------------------------------------------------------
  // getStatusBadge
  // ---------------------------------------------------------------------------

  datatype Icon = FileText | Clock | CheckCircle | XCircle
  datatype Tone = Plain | Warning | Success | Info | Error

  datatype Badge = Badge(caption: string, tone: Tone, icon: Icon)

  const DraftLabel: string := "brouillon"
  const PendingLabel: string := "En attente"
  const PaidLabel: string := "Payée"
  const CancelledLabel: string := "Annulée"
  const UnpaidLabel: string := "Impayée"
  const UndefinedLabel: string := "Indéfinis"

  /** The badge shown for a status number; anything outside 1..5 gets the
      plain "Indéfinis" badge. */
  function StatusBadge(status: int): (b: Badge)
    ensures !(1 <= status <= 5) ==> b == Badge(UndefinedLabel, Plain, XCircle)
    ensures 1 <= status <= 5 ==> b.caption != UndefinedLabel
    ensures b.icon == XCircle <==> !(1 <= status <= 3)
  {
    match status
    case 1 => Badge(DraftLabel, Plain, FileText)
    case 2 => Badge(PendingLabel, Warning, Clock)
    case 3 => Badge(PaidLabel, Success, CheckCircle)
    case 4 => Badge(CancelledLabel, Info, XCircle)
    case 5 => Badge(UnpaidLabel, Error, XCircle)
    case _ => Badge(UndefinedLabel, Plain, XCircle)
  }

  /** Reads a status number back from a badge label; the default label reads
      as no status. */
  function StatusOfLabel(caption: string): (s: Option<int>)
    ensures s.Some? ==> 1 <= s.value <= 5
  {
    if caption == DraftLabel then Some(1)
    else if caption == PendingLabel then Some(2)
    else if caption == PaidLabel then Some(3)
    else if caption == CancelledLabel then Some(4)
    else if caption == UnpaidLabel then Some(5)
    else None
  }

  /** The labels of 1..5 are five distinct labels, none of them the default,
      and every other number shows the default label. */
  lemma StatusLabelRoundTrip(status: int)
    ensures 1 <= status <= 5 ==> StatusOfLabel(StatusBadge(status).caption) == Some(status)
    ensures !(1 <= status <= 5) ==> StatusBadge(status).caption == UndefinedLabel
    ensures StatusOfLabel(StatusBadge(status).caption).None? <==> !(1 <= status <= 5)
  {
  }

  /** Distinct statuses in 1..5 show distinct labels. */
  lemma StatusLabelsDistinct(s: int, t: int)
    requires 1 <= s <= 5 && 1 <= t <= 5 && s != t
    ensures StatusBadge(s).caption != StatusBadge(t).caption
  {
    StatusLabelRoundTrip(s);
    StatusLabelRoundTrip(t);
  }
}
