/** Quotes: prices frozen from the catalogue, and a ceiling agreed with the customer. */
module Quotes {
  import opened Domain
  import TravelPricing

  datatype Service = Service(name: string, roomPrice: Cents, basePrice: Cents, active: bool)

  type Catalogue = map<nat, Service>

  /** An entry of the request as it arrives; no room count stands for one that is not an integer. */
  datatype Entry = NotAnObject | Entry(service: nat, rooms: Option<int>)

  datatype Error =
    | EmptySelection | MalformedSelection | InvalidRoomCount | UnknownService | InactiveService
    | QuoteNotFound | QuoteExpired | QuoteAlreadyUsed | WrongProperty

  datatype Result<+T, +E> = Ok(value: T) | Err(error: E)

  datatype Frozen = Frozen(lines: seq<QuoteLine>, total: Cents)

  const QUOTE_TTL: int := 30 * MINUTE

  // ---- Validation ------------------------------------------------------------

  function Malformed(e: Entry): Option<Error> {
    if e.NotAnObject? then Some(MalformedSelection)
    else if e.rooms.None? || e.rooms.value < 0 then Some(InvalidRoomCount)
    else None
  }

  function Unavailable(catalogue: Catalogue, e: Entry, allowInactive: bool): Option<Error> {
    if e.NotAnObject? then None
    else if e.service !in catalogue then Some(UnknownService)
    else if !catalogue[e.service].active && !allowInactive then Some(InactiveService)
    else None
  }

  /** What the first entry to fail the check fails with. */
  function FirstProblem(entries: seq<Entry>, check: Entry -> Option<Error>): Option<Error> {
    if entries == [] then None
    else
      var earlier := FirstProblem(entries[..|entries| - 1], check);
      if earlier.Some? then earlier else check(entries[|entries| - 1])
  }

  function Availability(catalogue: Catalogue, allowInactive: bool): Entry -> Option<Error> {
    (e: Entry) => Unavailable(catalogue, e, allowInactive)
  }

  /** What is wrong with a selection: the shape of every entry comes before any look at the catalogue. */
  function SelectionError(catalogue: Catalogue, entries: seq<Entry>, allowInactive: bool): Option<Error> {
    if entries == [] then Some(EmptySelection)
    else if FirstProblem(entries, Malformed).Some? then FirstProblem(entries, Malformed)
    else FirstProblem(entries, Availability(catalogue, allowInactive))
  }

  predicate Freezable(catalogue: Catalogue, entries: seq<Entry>, allowInactive: bool) {
    entries != [] && forall i :: 0 <= i < |entries| ==>
                                   Malformed(entries[i]).None?
                                   && Unavailable(catalogue, entries[i], allowInactive).None?
  }

  lemma {:induction false} NoProblemIff(entries: seq<Entry>, check: Entry -> Option<Error>)
    ensures FirstProblem(entries, check).None? <==> forall i :: 0 <= i < |entries| ==> check(entries[i]).None?
  {
    if entries != [] {
      NoProblemIff(entries[..|entries| - 1], check);
    }
  }

  /** A problem found among the first n entries is the problem of them all. */
  lemma {:induction false} EarliestDecides(entries: seq<Entry>, check: Entry -> Option<Error>, n: nat)
    requires n <= |entries| && FirstProblem(entries[..n], check).Some?
    ensures FirstProblem(entries, check) == FirstProblem(entries[..n], check)
  {
    if n < |entries| {
      assert entries[..|entries| - 1][..n] == entries[..n];
      EarliestDecides(entries[..|entries| - 1], check, n);
    } else {
      assert entries[..n] == entries;
    }
  }

  /** A selection is accepted exactly when every entry is well formed, known and, unless quoted before, active. */
  lemma AcceptedIffFreezable(catalogue: Catalogue, entries: seq<Entry>, allowInactive: bool)
    ensures SelectionError(catalogue, entries, allowInactive).None? <==> Freezable(catalogue, entries, allowInactive)
  {
    NoProblemIff(entries, Malformed);
    NoProblemIff(entries, Availability(catalogue, allowInactive));
  }

  // ---- Freezing --------------------------------------------------------------

  predicate LineOf(catalogue: Catalogue, e: Entry, line: QuoteLine) {
    && e.Entry? && e.service in catalogue && e.rooms == Some(line.roomCount)
    && line == QuoteLine(e.service, catalogue[e.service].name, line.roomCount,
                         catalogue[e.service].roomPrice, catalogue[e.service].basePrice)
  }

  function LineAmount(line: QuoteLine): Cents { line.roomPrice * line.roomCount + line.basePrice }

  function LinesTotal(lines: seq<QuoteLine>): Cents {
    if lines == [] then 0 else LinesTotal(lines[..|lines| - 1]) + LineAmount(lines[|lines| - 1])
  }

  /** The first loop: the shape of every entry. */
  method CheckShapes(entries: seq<Entry>) returns (problem: Option<Error>)
    ensures problem == FirstProblem(entries, Malformed)
  {
    for i := 0 to |entries|
      invariant FirstProblem(entries[..i], Malformed).None?
    {
      assert entries[..i + 1][..i] == entries[..i];
      problem := Malformed(entries[i]);
      if problem.Some? {
        EarliestDecides(entries, Malformed, i + 1);
        return;
      }
    }
    assert entries[..|entries|] == entries;
    problem := None;
  }

  /** The second loop: looks every service up, freezes its name and prices, and adds up. */
  method FreezeLines(catalogue: Catalogue, entries: seq<Entry>) returns (result: Result<Frozen, Error>)
    requires FirstProblem(entries, Malformed).None?
    ensures FirstProblem(entries, Availability(catalogue, false)) == if result.Ok? then None else Some(result.error)
    ensures result.Ok? ==>
              && |result.value.lines| == |entries|
              && (forall i :: 0 <= i < |entries| ==> LineOf(catalogue, entries[i], result.value.lines[i]))
              && result.value.total == LinesTotal(result.value.lines)
  {
    NoProblemIff(entries, Malformed);
    ghost var check := Availability(catalogue, false);
    var lines: seq<QuoteLine>, total: Cents := [], 0;
    for i := 0 to |entries|
      invariant |lines| == i && total == LinesTotal(lines) && FirstProblem(entries[..i], check).None?
      invariant forall j :: 0 <= j < i ==> LineOf(catalogue, entries[j], lines[j])
    {
      assert entries[..i + 1][..i] == entries[..i] && Malformed(entries[i]).None?;
      var problem := Unavailable(catalogue, entries[i], false);
      if problem.Some? {
        EarliestDecides(entries, check, i + 1);
        return Err(problem.value);
      }
      var service := catalogue[entries[i].service];
      var rooms := entries[i].rooms.value;
      var line := QuoteLine(entries[i].service, service.name, rooms, service.roomPrice, service.basePrice);
      assert (lines + [line])[..i] == lines;
      lines, total := lines + [line], total + (service.roomPrice * rooms + service.basePrice);
    }
    assert entries[..|entries|] == entries;
    result := Ok(Frozen(lines, total));
  }

  /** Validates every entry, then freezes names and prices line by line while adding them up. */
  method FreezeSelections(catalogue: Catalogue, entries: seq<Entry>) returns (result: Result<Frozen, Error>)
    ensures result.Ok? <==> Freezable(catalogue, entries, false)
    ensures result.Err? ==> SelectionError(catalogue, entries, false) == Some(result.error)
    ensures result.Ok? ==>
              && |result.value.lines| == |entries|
              && (forall i :: 0 <= i < |entries| ==> LineOf(catalogue, entries[i], result.value.lines[i]))
              && result.value.total == LinesTotal(result.value.lines)
  {
    hide FirstProblem, LinesTotal, Freezable;
    AcceptedIffFreezable(catalogue, entries, false);
    if entries == [] {
      return Err(EmptySelection);
    }
    var problem := CheckShapes(entries);
    if problem.Some? {
      return Err(problem.value);
    }
    result := FreezeLines(catalogue, entries);
  }

  /** The selection a quote stands for, as a booking made from it repeats it. */
  function EntriesOf(lines: seq<QuoteLine>): seq<Entry> {
    seq(|lines|, i requires 0 <= i < |lines| => Entry(lines[i].service, Some(lines[i].roomCount)))
  }

  /** The lines add up, and the ceiling is the maximum announced for that sum under this configuration. */
  predicate QuoteOk(q: Quote, config: Config) {
    && q.servicesTotal == LinesTotal(q.lines) && q.lines != []
    && q.maximumTotal == TravelPricing.MaximumTotal(q.servicesTotal, config)
    && q.version == config.version && q.currency == config.currency
  }
}
