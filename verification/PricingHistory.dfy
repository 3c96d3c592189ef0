/** The single pricing row, its version number, and the saves that read it before they write it. */
module PricingHistory {
  import opened Domain
  import TravelPricing

  /** The five fields whose change is a change of price. */
  predicate SamePrices(a: Config, b: Config) {
    && a.pricePerKm == b.pricePerKm && a.includedDistance == b.includedDistance
    && a.maximumTravelFee == b.maximumTravelFee && a.currency == b.currency && a.rounding == b.rounding
  }

  /**
   * A save between its two statements: the row it read, and what it wants to store, which may have been put together
   * from an even earlier row.
   */
  datatype Save = Save(read: Option<Config>, wanted: Config)

  /** The row a save writes: its version follows the prices the save read, whatever number the caller brought. */
  function Stored(save: Save, now: Time): Config {
    match save.read
    case None => save.wanted
    case Some(p) =>
      if SamePrices(p, save.wanted) then save.wanted.(version := p.version)
      else save.wanted.(version := p.version + 1, activeFrom := now)
  }

  /** The row, and the saves that have read it and not written yet. */
  datatype Table = Table(row: Option<Config>, open: map<nat, Save>)

  datatype Event = Begin(call: nat, wanted: Config) | End(call: nat, at: Time)

  function After(t: Table, e: Event): Table {
    match e
    case Begin(call, wanted) => if call in t.open then t else t.(open := t.open[call := Save(t.row, wanted)])
    case End(call, at) =>
      if call in t.open then Table(Some(Stored(t.open[call], at)), t.open - {call}) else t
  }

  const EMPTY: Table := Table(None, map[])

  /** Nothing is locked: other saves may come between the two statements of one. */
  class PricingTable {
    var row: Option<Config>
    var open: map<nat, Save>

    constructor ()
      ensures Value() == EMPTY
    {
      row, open := None, map[];
    }

    function Value(): Table
      reads this
    {
      Table(row, open)
    }

    /** First half of a save: it reads the stored row. */
    method BeginSave(call: nat, wanted: Config)
      requires call !in open
      modifies this
      ensures Value() == After(old(Value()), Begin(call, wanted))
    {
      open := open[call := Save(row, wanted)];
    }

    /** Second half: it compares its prices with those it read, numbers the row and writes it whole. */
    method EndSave(call: nat, now: Time)
      requires call in open
      modifies this
      ensures Value() == After(old(Value()), End(call, now))
    {
      var saving, previous := open[call].wanted, open[call].read;
      if previous.Some? {
        if SamePrices(previous.value, saving) {
          saving := saving.(version := previous.value.version);
        } else {
          saving := saving.(version := previous.value.version + 1, activeFrom := now);
        }
      }
      row, open := Some(saving), open - {call};
    }
  }

  // ---- One version, one set of prices ----------------------------------------

  /** A later configuration: versions never go back, and one version names one set of prices. */
  predicate ConfigEvolves(c: Config, c': Config) {
    c.version <= c'.version && (c.version == c'.version ==> SamePrices(c, c'))
  }

  /**
   * A save may write: no other save has moved the version since its read, or one has, by one, to the very prices it is
   * about to store.
   */
  predicate MayWrite(current: Config, save: Save) {
    match save.read
    case None => current.version < save.wanted.version
                 || (current.version == save.wanted.version && SamePrices(current, save.wanted))
    case Some(p) =>
      || current.version == p.version
      || (current.version == p.version + 1 && !SamePrices(p, save.wanted) && SamePrices(current, save.wanted))
  }

  /** For a save that read an earlier configuration, that is exactly when what it writes is a later one. */
  lemma WriteEvolvesIff(current: Config, save: Save, now: Time)
    requires save.read.Some? ==> ConfigEvolves(save.read.value, current)
    ensures ConfigEvolves(current, Stored(save, now)) <==> MayWrite(current, save)
  {
  }

  /** What a save read stays earlier than what is stored, as long as no write breaks the rule. */
  lemma ReadStaysEarlier(current: Config, save: Save, now: Time, read: Config)
    requires ConfigEvolves(read, current) && ConfigEvolves(current, Stored(save, now))
    ensures ConfigEvolves(read, Stored(save, now))
  {
  }

  function Reached(events: seq<Event>): Table {
    if events == [] then EMPTY else After(Reached(events[..|events| - 1]), events[|events| - 1])
  }

  /** Every row that was ever written, in order. */
  function History(events: seq<Event>): seq<Config> {
    if events == [] then []
    else
      var n := |events| - 1;
      var t, e := Reached(events[..n]), events[n];
      History(events[..n]) + if e.End? && e.call in t.open then [Stored(t.open[e.call], e.at)] else []
  }

  ghost predicate OneVersionOnePrice(rows: seq<Config>) {
    forall i, j :: 0 <= i <= j < |rows| ==> ConfigEvolves(rows[i], rows[j])
  }

  /** A write of the history comes while it may. */
  predicate Allowed(t: Table, e: Event) {
    e.End? && e.call in t.open && t.row.Some? ==> MayWrite(t.row.value, t.open[e.call])
  }

  ghost predicate AllAllowed(events: seq<Event>) {
    forall n :: 0 <= n < |events| ==> Allowed(Reached(events[..n]), events[n])
  }

  predicate ReadsAreEarlier(t: Table) {
    forall call :: call in t.open && t.open[call].read.Some? ==>
                     t.row.Some? && ConfigEvolves(t.open[call].read.value, t.row.value)
  }

  lemma OneMoreRow(rows: seq<Config>, c: Config)
    ensures OneVersionOnePrice(rows + [c]) <==>
            OneVersionOnePrice(rows) && (rows != [] ==> ConfigEvolves(rows[|rows| - 1], c))
  {
    var all := rows + [c];
    if OneVersionOnePrice(all) {
      forall i, j | 0 <= i <= j < |rows| ensures ConfigEvolves(rows[i], rows[j]) {
        assert ConfigEvolves(all[i], all[j]);
      }
      if rows != [] { assert ConfigEvolves(all[|rows| - 1], all[|rows|]); }
    }
    if OneVersionOnePrice(rows) && rows != [] && ConfigEvolves(rows[|rows| - 1], c) {
      forall i, j | 0 <= i <= j < |all| ensures ConfigEvolves(all[i], all[j]) {
        if i < |rows| { assert ConfigEvolves(rows[i], rows[if j < |rows| then j else |rows| - 1]); }
      }
    }
  }

  lemma AllowedSoFar(events: seq<Event>)
    requires events != []
    ensures AllAllowed(events) <==>
            AllAllowed(events[..|events| - 1]) && Allowed(Reached(events[..|events| - 1]), events[|events| - 1])
  {
    var k := |events| - 1;
    assert forall n :: 0 <= n < k ==> events[..k][..n] == events[..n];
    if AllAllowed(events) {
      forall n | 0 <= n < k ensures Allowed(Reached(events[..k][..n]), events[..k][n]) {
        assert Allowed(Reached(events[..n]), events[n]);
      }
    }
    if AllAllowed(events[..k]) && Allowed(Reached(events[..k]), events[k]) {
      forall n | 0 <= n < |events| ensures Allowed(Reached(events[..n]), events[n]) {
        if n < k { assert Allowed(Reached(events[..k][..n]), events[..k][n]); }
      }
    }
  }

  /** The stored row is the last one written. */
  lemma {:induction false} LastIsStored(events: seq<Event>)
    ensures if History(events) == [] then Reached(events).row == None
            else Reached(events).row == Some(History(events)[|History(events)| - 1])
  {
    if events != [] {
      LastIsStored(events[..|events| - 1]);
    }
  }

  lemma StepKeepsReads(t: Table, e: Event)
    requires ReadsAreEarlier(t)
    requires e.End? && e.call in t.open && t.row.Some? ==> ConfigEvolves(t.row.value, Stored(t.open[e.call], e.at))
    ensures ReadsAreEarlier(After(t, e))
  {
    hide Stored;
  }

  /** The last row of a history that keeps the rule is a later one than the row before it. */
  lemma LastEvolves(events: seq<Event>)
    requires events != [] && OneVersionOnePrice(History(events))
    ensures var t, e := Reached(events[..|events| - 1]), events[|events| - 1];
            && OneVersionOnePrice(History(events[..|events| - 1]))
            && (e.End? && e.call in t.open && t.row.Some? ==> ConfigEvolves(t.row.value, Stored(t.open[e.call], e.at)))
  {
    var n := |events| - 1;
    var t, e := Reached(events[..n]), events[n];
    hide Stored, OneVersionOnePrice, ConfigEvolves;
    LastIsStored(events[..n]);
    if e.End? && e.call in t.open {
      OneMoreRow(History(events[..n]), Stored(t.open[e.call], e.at));
    } else {
      assert History(events) == History(events[..n]);
    }
  }

  lemma {:induction false} ReadsStayEarlier(events: seq<Event>)
    requires OneVersionOnePrice(History(events))
    ensures ReadsAreEarlier(Reached(events))
  {
    if events != [] {
      LastEvolves(events);
      hide OneVersionOnePrice, ReadsAreEarlier, After, Stored, ConfigEvolves;
      ReadsStayEarlier(events[..|events| - 1]);
      StepKeepsReads(Reached(events[..|events| - 1]), events[|events| - 1]);
    }
  }

  /** One more write keeps the rule exactly if it comes while it may. */
  lemma WriteIff(events: seq<Event>)
    requires events != [] && OneVersionOnePrice(History(events[..|events| - 1]))
    ensures OneVersionOnePrice(History(events)) <==> Allowed(Reached(events[..|events| - 1]), events[|events| - 1])
  {
    var n := |events| - 1;
    var t, e := Reached(events[..n]), events[n];
    LastIsStored(events[..n]);
    ReadsStayEarlier(events[..n]);
    hide Stored, OneVersionOnePrice, ConfigEvolves, MayWrite;
    if e.End? && e.call in t.open {
      OneMoreRow(History(events[..n]), Stored(t.open[e.call], e.at));
      if t.row.Some? {
        WriteEvolvesIff(t.row.value, t.open[e.call], e.at);
      }
    } else {
      assert History(events) == History(events[..n]);
    }
  }

  /**
   * However saves overlap: versions never go back and one version names one set of prices in the whole history exactly
   * if every save wrote while it might.
   */
  lemma {:induction false} VersionNamesPricesIff(events: seq<Event>)
    ensures OneVersionOnePrice(History(events)) <==> AllAllowed(events)
  {
    if events != [] {
      var n := |events| - 1;
      VersionNamesPricesIff(events[..n]);
      AllowedSoFar(events);
      if OneVersionOnePrice(History(events)) { LastEvolves(events); }
      hide OneVersionOnePrice, AllAllowed, Allowed;
      if OneVersionOnePrice(History(events[..n])) { WriteIff(events); }
    }
  }

  lemma HistoryThen(events: seq<Event>, e: Event)
    ensures Reached(events + [e]) == After(Reached(events), e)
    ensures History(events + [e]) == History(events)
            + if e.End? && e.call in Reached(events).open then [Stored(Reached(events).open[e.call], e.at)] else []
  {
    assert (events + [e])[..|events + [e]| - 1] == events;
  }

  /** Two saves that read the same row share a version, and may store different prices under it. */
  lemma OverlapBreaksVersions(first: Config, cheap: Config, dear: Config)
    requires !SamePrices(first, cheap) && !SamePrices(first, dear) && !SamePrices(cheap, dear)
    ensures var rows := History([Begin(0, first), End(0, 0), Begin(1, cheap), Begin(2, dear), End(1, 0), End(2, 0)]);
            && |rows| == 3 && rows[1].version == rows[2].version && !OneVersionOnePrice(rows)
            && SamePrices(rows[1], cheap) && SamePrices(rows[2], dear)
  {
    hide History, Reached;
    var e0, e1, e2, e3, e4, e5 := Begin(0, first), End(0, 0), Begin(1, cheap), Begin(2, dear), End(1, 0), End(2, 0);
    HistoryOfNothing();
    HistoryThen([], e0);
    HistoryThen([e0], e1);
    HistoryThen([e0, e1], e2);
    HistoryThen([e0, e1, e2], e3);
    HistoryThen([e0, e1, e2, e3], e4);
    HistoryThen([e0, e1, e2, e3, e4], e5);
    assert [] + [e0] == [e0] && [e0] + [e1] == [e0, e1] && [e0, e1] + [e2] == [e0, e1, e2];
    assert [e0, e1, e2] + [e3] == [e0, e1, e2, e3] && [e0, e1, e2, e3] + [e4] == [e0, e1, e2, e3, e4];
    assert [e0, e1, e2, e3, e4] + [e5] == [e0, e1, e2, e3, e4, e5];
    var rows := History([e0, e1, e2, e3, e4, e5]);
    assert |rows| == 3 && !ConfigEvolves(rows[1], rows[2]);
  }

  lemma HistoryOfNothing()
    ensures History([]) == [] && Reached([]) == EMPTY
  {
  }

  /** A price is computed from the five fields only. */
  lemma PricesDecideTotals(services: Cents, d: Distance, a: Config, b: Config)
    requires SamePrices(a, b)
    ensures TravelPricing.FinalTotal(services, d, a) == TravelPricing.FinalTotal(services, d, b)
    ensures TravelPricing.MaximumTotal(services, a) == TravelPricing.MaximumTotal(services, b)
  {
  }
}
