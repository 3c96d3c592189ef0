/** Invoice numbers: one gap-free series a year, one invoice a booking, and the printed form. */
module InvoiceNumbers {
  import opened Domain

  datatype Number = Number(year: nat, serial: nat)

  /** A call between its look-up and its end, or the answer it gave: a number, or that the booking is not paid. */
  datatype Call = Missed(b: BookingId) | Answered(b: BookingId, number: Option<Number>)

  datatype Ledger = Ledger(counters: map<nat, nat>, invoices: map<BookingId, Number>, calls: map<nat, Call>)

  function LastOf(l: Ledger, year: nat): nat { if year in l.counters then l.counters[year] else 0 }

  /** The first half of a call: the booking's invoice if there is one, else whether it may have one. */
  function LookUp(l: Ledger, call: nat, b: BookingId, paid: bool): Ledger
    requires call !in l.calls
  {
    var answer := if b in l.invoices then Answered(b, Some(l.invoices[b]))
                  else if !paid then Answered(b, None)
                  else Missed(b);
    l.(calls := l.calls[call := answer])
  }

  /**
   * The second half of a call that found nothing: it creates the invoice under the next number of the year, unless
   * another call has created one since; then the uniqueness of the booking takes its number back.
   */
  function Finish(l: Ledger, call: nat, year: nat): Ledger
    requires call in l.calls && l.calls[call].Missed?
  {
    var b := l.calls[call].b;
    if b in l.invoices then l.(calls := l.calls[call := Answered(b, Some(l.invoices[b]))])
    else
      var number := Number(year, LastOf(l, year) + 1);
      Ledger(l.counters[year := number.serial], l.invoices[b := number], l.calls[call := Answered(b, Some(number))])
  }

  class InvoiceRegister {
    var counters: map<nat, nat>
    var invoices: map<BookingId, Number>
    var calls: map<nat, Call>

    constructor ()
      ensures Value() == Ledger(map[], map[], map[])
    {
      counters, invoices, calls := map[], map[], map[];
    }

    function Value(): Ledger
      reads this
    {
      Ledger(counters, invoices, calls)
    }

    /** Creates the counter of the year if there is none. */
    method NextInvoiceNumber(year: nat) returns (number: Number)
      modifies this`counters
      ensures number == old(Number(year, LastOf(Value(), year) + 1))
      ensures counters == old(counters)[year := number.serial]
    {
      if year !in counters {
        counters := counters[year := 0];
      }
      counters := counters[year := counters[year] + 1];
      number := Number(year, counters[year]);
    }

    method BeginGetOrIssue(call: nat, b: BookingId, paid: bool)
      requires call !in calls
      modifies this`calls
      ensures Value() == old(LookUp(Value(), call, b, paid))
    {
      if b in invoices {
        calls := calls[call := Answered(b, Some(invoices[b]))];
      } else if !paid {
        calls := calls[call := Answered(b, None)];
      } else {
        calls := calls[call := Missed(b)];
      }
    }

    /** Counts first and inserts then; a violated constraint rolls the counter back. */
    method EndGetOrIssue(call: nat, year: nat) returns (number: Number)
      requires call in calls && calls[call].Missed?
      modifies this
      ensures Value() == old(Finish(Value(), call, year))
      ensures calls[call] == Answered(old(calls[call]).b, Some(number))
    {
      var b := calls[call].b;
      var saved := counters;
      number := NextInvoiceNumber(year);
      if b in invoices {
        counters := saved;
        number := invoices[b];
      } else {
        invoices := invoices[b := number];
      }
      calls := calls[call := Answered(b, Some(number))];
    }
  }

  // ---- Every run -------------------------------------------------------------

  datatype Step = Begin(call: nat, b: BookingId, paid: bool) | End(call: nat, year: nat)

  /** Halves of different calls interleave as they will. */
  function Next(l: Ledger, s: Step): Ledger {
    match s
    case Begin(call, b, paid) => if call !in l.calls then LookUp(l, call, b, paid) else l
    case End(call, year) => if call in l.calls && l.calls[call].Missed? then Finish(l, call, year) else l
  }

  function Run(l: Ledger, steps: seq<Step>): Ledger {
    if steps == [] then l else Next(Run(l, steps[..|steps| - 1]), steps[|steps| - 1])
  }

  predicate Holds(l: Ledger, n: Number) { exists b :: b in l.invoices && l.invoices[b] == n }

  /** The numbers of every year are exactly 1 up to its counter, each on one invoice. */
  ghost predicate GapFree(l: Ledger) {
    && (forall n: Number :: Holds(l, n) <==> 1 <= n.serial <= LastOf(l, n.year))
    && (forall b, c :: b in l.invoices && c in l.invoices && l.invoices[b] == l.invoices[c] ==> b == c)
  }

  /** Every number a call has answered with is the number of its booking. */
  ghost predicate AnswersAgree(l: Ledger) {
    forall c :: c in l.calls && l.calls[c].Answered? && l.calls[c].number.Some? ==>
                  l.calls[c].b in l.invoices && l.invoices[l.calls[c].b] == l.calls[c].number.value
  }

  ghost predicate InvoicesStay(l: Ledger, l': Ledger) {
    && (forall b :: b in l.invoices ==> b in l'.invoices && l'.invoices[b] == l.invoices[b])
    && (forall c :: c in l.calls && l.calls[c].Answered? ==> c in l'.calls && l'.calls[c] == l.calls[c])
  }

  lemma EmptyIsGapFree()
    ensures GapFree(Ledger(map[], map[], map[])) && AnswersAgree(Ledger(map[], map[], map[]))
  {
  }

  lemma FinishKeepsGapFree(l: Ledger, call: nat, year: nat)
    requires GapFree(l) && call in l.calls && l.calls[call].Missed?
    ensures GapFree(Finish(l, call, year))
  {
    var l' := Finish(l, call, year);
    if l'.invoices != l.invoices {
      var b, issued := l.calls[call].b, Number(year, LastOf(l, year) + 1);
      assert !Holds(l, issued);
      forall n: Number ensures Holds(l', n) <==> Holds(l, n) || n == issued {
        if Holds(l, n) {
          var c :| c in l.invoices && l.invoices[c] == n;
          assert l'.invoices[c] == n;
        }
        if n == issued {
          assert l'.invoices[b] == n;
        }
      }
    } else {
      SameNumbers(l, l');
    }
  }

  lemma SameNumbers(l: Ledger, l': Ledger)
    requires GapFree(l) && l'.counters == l.counters && l'.invoices == l.invoices
    ensures GapFree(l')
  {
    assert forall n: Number :: Holds(l', n) == Holds(l, n);
    assert forall year: nat :: LastOf(l', year) == LastOf(l, year);
  }

  lemma NextKeepsGapFree(l: Ledger, s: Step)
    requires GapFree(l) && AnswersAgree(l)
    ensures GapFree(Next(l, s)) && AnswersAgree(Next(l, s)) && InvoicesStay(l, Next(l, s))
  {
    hide GapFree;
    match s
    case Begin(call, b, paid) => if call !in l.calls { SameNumbers(l, LookUp(l, call, b, paid)); }
    case End(call, year) => if call in l.calls && l.calls[call].Missed? { FinishKeepsGapFree(l, call, year); }
  }

  /** However the halves of calls interleave: no gap, no repeat, and an issued number and a given answer never change. */
  lemma {:induction false} SeriesIsGapFree(l: Ledger, steps: seq<Step>)
    requires GapFree(l) && AnswersAgree(l)
    ensures GapFree(Run(l, steps)) && AnswersAgree(Run(l, steps)) && InvoicesStay(l, Run(l, steps))
  {
    hide GapFree, Next;
    if steps != [] {
      var n := |steps| - 1;
      SeriesIsGapFree(l, steps[..n]);
      NextKeepsGapFree(Run(l, steps[..n]), steps[n]);
    }
  }

  /** Two calls for one booking, however they race, never answer with different numbers. */
  lemma CallsAgree(l: Ledger, steps: seq<Step>, c: nat, d: nat)
    requires GapFree(l) && AnswersAgree(l) && c in Run(l, steps).calls && d in Run(l, steps).calls
    requires var l' := Run(l, steps);
             && l'.calls[c].Answered? && l'.calls[c].number.Some? && l'.calls[d].Answered? && l'.calls[d].number.Some?
             && l'.calls[c].b == l'.calls[d].b
    ensures Run(l, steps).calls[c].number == Run(l, steps).calls[d].number
  {
    hide Run, GapFree;
    SeriesIsGapFree(l, steps);
  }

  // ---- The printed form ------------------------------------------------------

  function Digit(d: nat): char
    requires d < 10
  {
    '0' + d as char
  }

  predicate IsDigit(c: char) { '0' <= c <= '9' }

  function Decimal(n: nat): (s: string)
    ensures s != [] && forall i :: 0 <= i < |s| ==> IsDigit(s[i])
  {
    if n < 10 then [Digit(n)] else Decimal(n / 10) + [Digit(n % 10)]
  }

  function Pad(s: string, width: nat): (padded: string)
    requires forall i :: 0 <= i < |s| ==> IsDigit(s[i])
    ensures forall i :: 0 <= i < |padded| ==> IsDigit(padded[i])
    decreases width - |s|
  {
    if |s| < width then Pad("0" + s, width) else s
  }

  function Print(n: Number): string { "INV-" + Decimal(n.year) + "-" + Pad(Decimal(n.serial), 6) }

  function DigitValue(c: char): nat
    requires IsDigit(c)
  {
    c as nat - '0' as nat
  }

  function ValueOf(s: string): nat
    requires forall i :: 0 <= i < |s| ==> IsDigit(s[i])
  {
    if s == [] then 0 else 10 * ValueOf(s[..|s| - 1]) + DigitValue(s[|s| - 1])
  }

  /** The longest run of digits at the front. */
  function LeadingDigits(s: string): (n: nat)
    ensures n <= |s| && forall i :: 0 <= i < n ==> IsDigit(s[i])
  {
    if s == [] || !IsDigit(s[0]) then 0 else 1 + LeadingDigits(s[1..])
  }

  /** Reads a printed number back. */
  function Parse(s: string): Option<Number> {
    if !("INV-" <= s) then None
    else
      var body := s[4..];
      var n := LeadingDigits(body);
      if n == 0 || n == |body| || body[n] != '-' || LeadingDigits(body[n + 1..]) != |body| - n - 1 then None
      else Some(Number(ValueOf(body[..n]), ValueOf(body[n + 1..])))
  }

  lemma {:induction false} DecimalRoundTrip(n: nat)
    ensures ValueOf(Decimal(n)) == n
  {
    if n >= 10 {
      DecimalRoundTrip(n / 10);
      assert Decimal(n)[..|Decimal(n)| - 1] == Decimal(n / 10);
    }
  }

  lemma {:induction false} LeadingZero(s: string)
    requires forall i :: 0 <= i < |s| ==> IsDigit(s[i])
    ensures ValueOf("0" + s) == ValueOf(s)
  {
    if s != [] {
      LeadingZero(s[..|s| - 1]);
      assert ("0" + s)[..|s|] == "0" + s[..|s| - 1];
    }
  }

  lemma {:induction false} PaddingKeepsValue(s: string, width: nat)
    requires forall i :: 0 <= i < |s| ==> IsDigit(s[i])
    ensures ValueOf(Pad(s, width)) == ValueOf(s)
    decreases width - |s|
  {
    if |s| < width {
      PaddingKeepsValue("0" + s, width);
      LeadingZero(s);
    }
  }

  lemma {:induction false} LeadingDigitsStop(s: string, rest: string)
    requires forall i :: 0 <= i < |s| ==> IsDigit(s[i])
    requires rest == [] || !IsDigit(rest[0])
    ensures LeadingDigits(s + rest) == |s|
  {
    if s == [] {
      assert s + rest == rest;
    } else {
      LeadingDigitsStop(s[1..], rest);
      assert (s + rest)[1..] == s[1..] + rest;
    }
  }

  lemma PrintedParts(year: string, serial: string)
    requires (forall i :: 0 <= i < |year| ==> IsDigit(year[i])) && forall i :: 0 <= i < |serial| ==> IsDigit(serial[i])
    ensures var body := year + "-" + serial;
            && LeadingDigits(body) == |year| && body[|year|] == '-'
            && body[..|year|] == year && body[|year| + 1..] == serial && LeadingDigits(serial) == |serial|
  {
    assert year + "-" + serial == year + ("-" + serial);
    LeadingDigitsStop(year, "-" + serial);
    LeadingDigitsStop(serial, "");
    assert serial + "" == serial;
  }

  lemma ParsesParts(body: string, n: nat)
    requires n == LeadingDigits(body) && 0 < n < |body| && body[n] == '-'
    requires LeadingDigits(body[n + 1..]) == |body| - n - 1
    ensures Parse("INV-" + body) == Some(Number(ValueOf(body[..n]), ValueOf(body[n + 1..])))
  {
    hide LeadingDigits, ValueOf;
    assert ("INV-" + body)[4..] == body && "INV-" <= "INV-" + body;
  }

  /** Printing loses nothing, even past a million invoices a year. */
  lemma PrintRoundTrip(n: Number)
    ensures Parse(Print(n)) == Some(n)
  {
    hide Parse, ValueOf, Decimal, Pad, LeadingDigits;
    var year, serial := Decimal(n.year), Pad(Decimal(n.serial), 6);
    PrintedParts(year, serial);
    ParsesParts(year + "-" + serial, |year|);
    assert Print(n) == "INV-" + (year + "-" + serial);
    DecimalRoundTrip(n.year);
    DecimalRoundTrip(n.serial);
    PaddingKeepsValue(Decimal(n.serial), 6);
  }

  /** Two different invoices never print the same number. */
  lemma PrintedNumbersDiffer(l: Ledger, b: BookingId, c: BookingId)
    requires GapFree(l) && b in l.invoices && c in l.invoices && b != c
    ensures Print(l.invoices[b]) != Print(l.invoices[c])
  {
    PrintRoundTrip(l.invoices[b]);
    PrintRoundTrip(l.invoices[c]);
  }
}
