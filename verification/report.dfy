/**
 The report side of the app: the date scope that picks which records are
 shown (all history, or one selected day) and the totals computed over the
 records in scope — unit count, money received ("masuk"), money still owed
 ("pending") and gross revenue ("omzet").
 */
module Report {
  import opened Seqs
  import opened Ledger

  /** Which records a view covers: all of them, or those of one date string. */
  datatype Scope = AllHistory | SingleDate(date: string)

  /** The scope chosen by the "all history" switch and the date picker. */
  function ScopeOf(showAllHistory: bool, selectedDate: string): (s: Scope)
    ensures showAllHistory <==> s == AllHistory
    ensures !showAllHistory ==> s.date == selectedDate
  {
    if showAllHistory then AllHistory else SingleDate(selectedDate)
  }

  predicate InScope(scope: Scope, x: Record) {
    match scope
    case AllHistory => true
    case SingleDate(d) => x.date == d
  }

  function OnDate(d: string): Record -> bool {
    (x: Record) => x.date == d
  }

  function NotOnDate(d: string): Record -> bool {
    (x: Record) => x.date != d
  }

  /**
   The records a view shows: under all history the whole ledger unchanged;
   under a date exactly the records of that date, each as often as in the
   ledger, in ledger order.
   */
  function FilterByScope(laporan: seq<Record>, scope: Scope): (r: seq<Record>)
    ensures scope == AllHistory ==> r == laporan
    ensures forall x :: x in r <==> x in laporan && InScope(scope, x)
    ensures forall x :: multiset(r)[x] == if InScope(scope, x) then multiset(laporan)[x] else 0
    ensures IsSubsequence(r, laporan)
  {
    match scope
    case AllHistory =>
      SubsequenceReflexive(laporan);
      laporan
    case SingleDate(d) =>
      FilterIsSubsequence(OnDate(d), laporan);
      Filter(OnDate(d), laporan)
  }

  /** The sum of the prices of `s`, as the app's `reduce` adds them up. */
  function SumHarga(s: seq<Record>): int {
    if |s| == 0 then 0 else s[0].harga + SumHarga(s[1..])
  }

  predicate IsPaid(x: Record) {
    x.status == Paid
  }

  predicate IsPending(x: Record) {
    x.status == Pending
  }

  /** A view's figures: units, money received, money owed, gross revenue. */
  datatype Totals = Totals(unit: nat, masuk: int, pending: int, omzet: int)

  /**
   The figures of a view. Gross revenue is received plus owed money; it is the
   sum of all prices in view as long as every status there is `paid` or
   `pending`; with non-negative prices nothing is negative.
   */
  function Summarize(laporan: seq<Record>, scope: Scope): (t: Totals)
    ensures t.unit == |FilterByScope(laporan, scope)|
    ensures t.omzet == t.masuk + t.pending
    ensures (forall x :: x in laporan ==> x.harga >= 0) ==> t.masuk >= 0 && t.pending >= 0 && t.omzet >= 0
    ensures (forall x :: x in laporan && InScope(scope, x) ==> x.status == Paid || x.status == Pending) ==>
      t.omzet == SumHarga(FilterByScope(laporan, scope))
  {
    var filtered := FilterByScope(laporan, scope);
    var masuk := SumHarga(Filter(IsPaid, filtered));
    var pending := SumHarga(Filter(IsPending, filtered));
    SumNonNegative(Filter(IsPaid, filtered));
    SumNonNegative(Filter(IsPending, filtered));
    PaidPendingSplit(filtered);
    Totals(|filtered|, masuk, pending, masuk + pending)
  }

  /** When every status is `paid` or `pending`, received plus owed money is the whole price sum. */
  lemma PaidPendingSplit(s: seq<Record>)
    ensures (forall x :: x in s ==> x.status == Paid || x.status == Pending) ==>
      SumHarga(Filter(IsPaid, s)) + SumHarga(Filter(IsPending, s)) == SumHarga(s)
  {
    if forall x :: x in s ==> x.status == Paid || x.status == Pending {
      SumComplement(IsPaid, IsPending, s);
    }
  }

  /** Sums of non-negative prices are non-negative. */
  lemma {:induction false} SumNonNegative(s: seq<Record>)
    ensures (forall x :: x in s ==> x.harga >= 0) ==> SumHarga(s) >= 0
  {
    if |s| > 0 {
      SumNonNegative(s[1..]);
      assert forall x :: x in s[1..] ==> x in s;
    }
  }

  /**
   When every record satisfies exactly one of `p` and `q`, the two filters
   split the records: their counts and their price sums add up to the whole.
   */
  lemma {:induction false} SumComplement(p: Record -> bool, q: Record -> bool, s: seq<Record>)
    requires forall x :: x in s ==> p(x) != q(x)
    ensures |Filter(p, s)| + |Filter(q, s)| == |s|
    ensures SumHarga(Filter(p, s)) + SumHarga(Filter(q, s)) == SumHarga(s)
  {
    if |s| > 0 {
      assert forall x :: x in s[1..] ==> x in s;
      SumComplement(p, q, s[1..]);
      assert s[0] in s;
      if p(s[0]) {
        assert SumHarga([s[0]] + Filter(p, s[1..])) == s[0].harga + SumHarga(Filter(p, s[1..])) by {
          assert ([s[0]] + Filter(p, s[1..]))[1..] == Filter(p, s[1..]);
        }
      } else {
        assert SumHarga([s[0]] + Filter(q, s[1..])) == s[0].harga + SumHarga(Filter(q, s[1..])) by {
          assert ([s[0]] + Filter(q, s[1..]))[1..] == Filter(q, s[1..]);
        }
      }
    }
  }

  /** Toggling statuses commutes with the date scope: it never moves a record in or out of view. */
  lemma {:induction false} ScopeToggleCommute(laporan: seq<Record>, id: int, scope: Scope)
    ensures FilterByScope(ToggleStatus(laporan, id), scope) == ToggleStatus(FilterByScope(laporan, scope), id)
  {
    if scope.SingleDate? && |laporan| > 0 {
      var d := scope.date;
      var t := ToggleStatus(laporan, id);
      ScopeToggleCommute(laporan[1..], id, scope);
      assert t == [ToggleOne(laporan[0], id)] + ToggleStatus(laporan[1..], id);
      assert t[1..] == ToggleStatus(laporan[1..], id);
      if laporan[0].date == d {
        var f := Filter(OnDate(d), laporan[1..]);
        assert FilterByScope(laporan, scope) == [laporan[0]] + f;
        assert ([laporan[0]] + f)[1..] == f;
      }
    }
  }

  /** Toggling statuses changes no price. */
  lemma {:induction false} ToggleKeepsSum(s: seq<Record>, id: int)
    ensures SumHarga(ToggleStatus(s, id)) == SumHarga(s)
  {
    if |s| > 0 {
      ToggleKeepsSum(s[1..], id);
      assert ToggleStatus(s, id)[1..] == ToggleStatus(s[1..], id);
    }
  }

  /**
   Toggling a payment status moves money between received and owed but leaves
   the unit count and gross revenue of every view unchanged.
   */
  lemma ToggleKeepsTotals(laporan: seq<Record>, id: int, scope: Scope)
    requires forall x :: x in laporan ==> x.status == Paid || x.status == Pending
    ensures Summarize(ToggleStatus(laporan, id), scope).unit == Summarize(laporan, scope).unit
    ensures Summarize(ToggleStatus(laporan, id), scope).omzet == Summarize(laporan, scope).omzet
  {
    var t := ToggleStatus(laporan, id);
    var f := FilterByScope(laporan, scope);
    ScopeToggleCommute(laporan, id, scope);
    ToggleKeepsSum(f, id);
    forall k | 0 <= k < |t|
      ensures t[k].status == Paid || t[k].status == Pending
    {
      if laporan[k].id != id {
        assert laporan[k] in laporan;
      }
    }
    assert FilterByScope(t, scope) == ToggleStatus(f, id);
    assert Summarize(t, scope).omzet == SumHarga(ToggleStatus(f, id));
    assert Summarize(laporan, scope).omzet == SumHarga(f);
  }

  /**
   After a delete no view shows a record with that id, and each view shows
   exactly what deleting from that view would leave.
   */
  lemma DeleteFromEveryScope(laporan: seq<Record>, id: int, scope: Scope)
    ensures forall x :: x in FilterByScope(Delete(laporan, id), scope) ==> x.id != id
    ensures FilterByScope(Delete(laporan, id), scope) == Delete(FilterByScope(laporan, scope), id)
  {
    if scope.SingleDate? {
      FilterCommutes(OnDate(scope.date), IdIsNot(id), laporan);
    }
  }

  /**
   A successful submit counts in every view that covers today: one more unit,
   and its price added to the received or the owed money by its status. Views
   of other dates are unaffected.
   */
  lemma SubmitTotals(laporan: seq<Record>, form: Form, id: int, today: string, scope: Scope)
    requires Accepts(form)
    ensures var before := Summarize(laporan, scope);
            var after := Summarize(Submit(laporan, form, id, today).0, scope);
            && (scope == AllHistory || scope.date == today ==>
                  && after.unit == before.unit + 1
                  && after.masuk == before.masuk + (if form.status == Paid then Price(form.tipe) else 0)
                  && after.pending == before.pending + (if form.status == Pending then Price(form.tipe) else 0))
            && (scope != AllHistory && scope.date != today ==> after == before)
  {
    var n := NewRecord(form, id, today);
    var s := [n] + laporan;
    assert s[0] == n && s[1..] == laporan;
    var f := FilterByScope(laporan, scope);
    if scope == AllHistory || scope.date == today {
      assert FilterByScope(s, scope) == [n] + f;
      assert ([n] + f)[0] == n && ([n] + f)[1..] == f;
      assert Filter(IsPaid, [n] + f) == if IsPaid(n) then [n] + Filter(IsPaid, f) else Filter(IsPaid, f);
      assert Filter(IsPending, [n] + f) == if IsPending(n) then [n] + Filter(IsPending, f) else Filter(IsPending, f);
      assert ([n] + Filter(IsPaid, f))[1..] == Filter(IsPaid, f);
      assert ([n] + Filter(IsPending, f))[1..] == Filter(IsPending, f);
    } else {
      assert FilterByScope(s, scope) == f;
    }
  }

  /** Adds two views' figures field by field. */
  function Plus(a: Totals, b: Totals): Totals {
    Totals(a.unit + b.unit, a.masuk + b.masuk, a.pending + b.pending, a.omzet + b.omzet)
  }

  lemma PlusByFields(sum: Totals, a: Totals, b: Totals)
    requires sum.unit == a.unit + b.unit && sum.masuk == a.masuk + b.masuk
    requires sum.pending == a.pending + b.pending && sum.omzet == a.omzet + b.omzet
    ensures sum == Plus(a, b)
  {
  }

  /** The price sum of the records selected by `p` is that of the selected day's plus that of the other days'. */
  lemma SumSplitsByDay(p: Record -> bool, laporan: seq<Record>, d: string)
    ensures SumHarga(Filter(p, laporan))
         == SumHarga(Filter(p, Filter(OnDate(d), laporan))) + SumHarga(Filter(p, Filter(NotOnDate(d), laporan)))
  {
    FilterCommutes(OnDate(d), p, laporan);
    FilterCommutes(NotOnDate(d), p, laporan);
    SumComplement(OnDate(d), NotOnDate(d), Filter(p, laporan));
  }

  /**
   The all-history figures are the selected day's figures plus those of every
   other day: nothing is counted twice and nothing is lost at the day boundary.
   */
  lemma AllHistorySplitsByDay(laporan: seq<Record>, d: string)
    ensures Summarize(laporan, AllHistory)
         == Plus(Summarize(laporan, SingleDate(d)), Summarize(Filter(NotOnDate(d), laporan), AllHistory))
  {
    var on := Filter(OnDate(d), laporan);
    var off := Filter(NotOnDate(d), laporan);
    var all := Summarize(laporan, AllHistory);
    var day := Summarize(laporan, SingleDate(d));
    var rest := Summarize(off, AllHistory);
    SumComplement(OnDate(d), NotOnDate(d), laporan);
    SumSplitsByDay(IsPaid, laporan, d);
    SumSplitsByDay(IsPending, laporan, d);
    assert all.unit == day.unit + rest.unit;
    assert all.masuk == SumHarga(Filter(IsPaid, laporan));
    assert day.masuk == SumHarga(Filter(IsPaid, on));
    assert rest.masuk == SumHarga(Filter(IsPaid, off));
    assert all.pending == SumHarga(Filter(IsPending, laporan));
    assert day.pending == SumHarga(Filter(IsPending, on));
    assert rest.pending == SumHarga(Filter(IsPending, off));
    assert all.omzet == day.omzet + rest.omzet;
    PlusByFields(all, day, rest);
  }

  predicate IsFull(x: Record) {
    x.tipe == Full
  }

  predicate IsBody(x: Record) {
    x.tipe == Body
  }

  /**
   For records the app created, gross revenue is the price table applied to
   the unit counts: 50000 per full wash plus 35000 per body wash.
   */
  lemma {:induction false} RevenueFromPriceTable(s: seq<Record>)
    requires AllWellFormed(s)
    ensures SumHarga(s) == 50000 * |Filter(IsFull, s)| + 35000 * |Filter(IsBody, s)|
  {
    if |s| > 0 {
      assert s[0] in s;
      assert forall x :: x in s[1..] ==> x in s;
      RevenueFromPriceTable(s[1..]);
    }
  }

  /** The figures of a view of app-created records, restated over the price table. */
  lemma ViewRevenue(laporan: seq<Record>, scope: Scope)
    requires AllWellFormed(laporan)
    ensures var t := Summarize(laporan, scope);
            var f := FilterByScope(laporan, scope);
            && t.omzet == 50000 * |Filter(IsFull, f)| + 35000 * |Filter(IsBody, f)|
            && t.unit == |Filter(IsFull, f)| + |Filter(IsBody, f)|
            && 0 <= t.masuk && 0 <= t.pending
  {
    var f := FilterByScope(laporan, scope);
    RevenueFromPriceTable(f);
    SumComplement(IsFull, IsBody, f);
  }
}
