/** One-time codes: issuing under three limits, and verifying one active code per phone and purpose. */
module Otp {
  import opened Domain

  datatype Purpose = Login | AdminLogin

  datatype Key = Key(phone: nat, purpose: Purpose)

  /** Deployment settings. A limit of zero is switched off; review numbers are exempt from the daily limit. */
  datatype Policy = Policy(
    expirySeconds: nat,
    maxAttempts: nat,
    cooldownSeconds: nat,
    maxPerPhonePerDay: nat,
    maxPerIpPerHour: nat,
    reviewPhones: set<nat>) {

    predicate IsReview(k: Key) { k.purpose.Login? && k.phone in reviewPhones }
  }

  datatype CodeStatus = Pending | Verified | Expired | Failed

  /** `code` stands for the stored hash: two codes of one phone are equal exactly when their hashes are. */
  datatype Row = Row(
    key: Key,
    code: nat,
    status: CodeStatus,
    expiresAt: Time,
    attempts: nat,
    maxAttempts: nat,
    ip: Option<nat>,
    createdAt: Time) {

    predicate IsExpired(now: Time) { expiresAt <= now }

    predicate Exhausted() { maxAttempts <= attempts }
  }

  datatype Error = ResendCooldown | RateLimited | DeliveryFailed | NotFound | CodeExpired | MaxAttempts
                 | InvalidCode(remaining: int)

  /** The stored rows in the order of their creation, and the clock of the serialised requests. */
  datatype Table = Table(clock: Time, rows: seq<Row>)

  // ---- Queries ---------------------------------------------------------------

  function Count(rows: seq<Row>, p: Row -> bool): nat {
    if rows == [] then 0 else Count(rows[..|rows| - 1], p) + if p(rows[|rows| - 1]) then 1 else 0
  }

  function LastWhere(rows: seq<Row>, p: Row -> bool): (i: int)
    ensures -1 <= i < |rows|
    ensures i >= 0 ==> p(rows[i])
    ensures forall j :: i < j < |rows| ==> !p(rows[j])
  {
    if rows == [] then -1
    else if p(rows[|rows| - 1]) then |rows| - 1
    else LastWhere(rows[..|rows| - 1], p)
  }

  function SentTo(k: Key): Row -> bool { (row: Row) => row.key == k }

  function OpenFor(k: Key): Row -> bool { (row: Row) => row.key == k && row.status.Pending? }

  function SentToSince(k: Key, since: Time): Row -> bool { (row: Row) => row.key == k && since <= row.createdAt }

  function SentFromSince(ip: nat, since: Time): Row -> bool {
    (row: Row) => row.ip == Some(ip) && since <= row.createdAt
  }

  // ---- Issuing ---------------------------------------------------------------

  /** The three limits, checked before anything is written. */
  function Refusal(policy: Policy, rows: seq<Row>, k: Key, ip: Option<nat>, now: Time): Option<Error> {
    var last := LastWhere(rows, SentTo(k));
    if last >= 0 && now - rows[last].createdAt < policy.cooldownSeconds * SECOND then Some(ResendCooldown)
    else if policy.maxPerPhonePerDay != 0 && !policy.IsReview(k)
            && Count(rows, SentToSince(k, now - DAY)) >= policy.maxPerPhonePerDay then Some(RateLimited)
    else if ip.Some? && policy.maxPerIpPerHour != 0
            && Count(rows, SentFromSince(ip.value, now - HOUR)) >= policy.maxPerIpPerHour then Some(RateLimited)
    else None
  }

  function Superseded(rows: seq<Row>, k: Key): seq<Row> {
    seq(|rows|, i requires 0 <= i < |rows| =>
      if rows[i].key == k && rows[i].status.Pending? then rows[i].(status := CodeStatus.Expired) else rows[i])
  }

  function NewRow(policy: Policy, k: Key, ip: Option<nat>, now: Time, createdAt: Time, code: nat): Row {
    Row(k, code, CodeStatus.Pending, now + policy.expirySeconds * SECOND, 0, policy.maxAttempts, ip, createdAt)
  }

  /** A request made `wait` after the previous one, whose row is stamped `spent` after its clock reading. */
  function Issue(policy: Policy, t: Table, k: Key, ip: Option<nat>, wait: nat, spent: nat, code: nat, delivered: bool)
    : (Table, Option<Error>)
  {
    var now := t.clock + wait;
    var refusal := Refusal(policy, t.rows, k, ip, now);
    if refusal.Some? then (Table(now + spent, t.rows), refusal)
    else if !delivered then (Table(now + spent, t.rows), Some(DeliveryFailed))
    else (Table(now + spent, Superseded(t.rows, k) + [NewRow(policy, k, ip, now, now + spent, code)]), None)
  }

  // ---- Verifying -------------------------------------------------------------

  datatype Answer = Matched(row: nat) | Rejected(error: Error)

  function Verify(t: Table, k: Key, guess: nat, wait: nat): (Table, Answer) {
    var now := t.clock + wait;
    var i := LastWhere(t.rows, OpenFor(k));
    if i < 0 then (t.(clock := now), Rejected(NotFound))
    else
      var row := t.rows[i];
      if row.IsExpired(now) then (Table(now, t.rows[i := row.(status := CodeStatus.Expired)]), Rejected(CodeExpired))
      else if row.Exhausted() then (Table(now, t.rows[i := row.(status := CodeStatus.Failed)]), Rejected(MaxAttempts))
      else if guess == row.code then (Table(now, t.rows[i := row.(status := CodeStatus.Verified)]), Matched(i))
      else
        var wrong := row.(attempts := row.attempts + 1);
        if wrong.Exhausted() then (Table(now, t.rows[i := wrong.(status := CodeStatus.Failed)]), Rejected(MaxAttempts))
        else (Table(now, t.rows[i := wrong]), Rejected(InvalidCode(wrong.maxAttempts - wrong.attempts)))
  }

  /** The call compares the guess with a stored code. */
  predicate Compares(t: Table, k: Key, wait: nat) {
    var i := LastWhere(t.rows, OpenFor(k));
    i >= 0 && !t.rows[i].IsExpired(t.clock + wait) && !t.rows[i].Exhausted()
  }

  // ---- The service -----------------------------------------------------------

  class OtpService {
    const policy: Policy
    var clock: Time
    var rows: seq<Row>

    constructor (policy: Policy, now: Time)
      ensures this.policy == policy && Value() == Table(now, [])
    {
      this.policy, clock, rows := policy, now, [];
    }

    function Value(): Table
      reads this
    {
      Table(clock, rows)
    }

    /** Stores a new code and sends it; a failed delivery takes back everything but the time it took. */
    method GenerateAndSend(k: Key, ip: Option<nat>, wait: nat, spent: nat, code: nat, delivered: bool)
      returns (error: Option<Error>)
      modifies this
      ensures (Value(), error) == old(Issue(policy, Value(), k, ip, wait, spent, code, delivered))
    {
      var now := clock + wait;
      clock := now + spent;
      error := Refusal(policy, rows, k, ip, now);
      if error.Some? {
        return;
      }
      var saved := rows;
      rows := seq(|saved|, i requires 0 <= i < |saved| =>
        if saved[i].key == k && saved[i].status.Pending? then saved[i].(status := CodeStatus.Expired) else saved[i]);
      assert rows == Superseded(saved, k);
      rows := rows + [Row(k, code, CodeStatus.Pending, now + policy.expirySeconds * SECOND, 0, policy.maxAttempts, ip, clock)];
      if !delivered {
        rows := saved;
        return Some(DeliveryFailed);
      }
    }

    /** Checks a guess; what it writes stays written whatever it answers. */
    method Check(k: Key, guess: nat, wait: nat) returns (answer: Answer)
      modifies this
      ensures (Value(), answer) == old(Verify(Value(), k, guess, wait))
    {
      clock := clock + wait;
      var i := LastWhere(rows, OpenFor(k));
      if i < 0 {
        return Rejected(NotFound);
      }
      var row := rows[i];
      if row.IsExpired(clock) {
        row := row.(status := CodeStatus.Expired);
        answer := Rejected(CodeExpired);
      } else if row.Exhausted() {
        row := row.(status := CodeStatus.Failed);
        answer := Rejected(MaxAttempts);
      } else if guess != row.code {
        row := row.(attempts := row.attempts + 1);
        if row.Exhausted() {
          row := row.(status := CodeStatus.Failed);
          answer := Rejected(MaxAttempts);
        } else {
          answer := Rejected(InvalidCode(row.maxAttempts - row.attempts));
        }
      } else {
        row := row.(status := CodeStatus.Verified);
        answer := Matched(i);
      }
      rows := rows[i := row];
    }
  }

  // ---- Runs ------------------------------------------------------------------

  datatype Event =
    | Ask(key: Key, ip: Option<nat>, wait: nat, spent: nat, code: nat, delivered: bool)
    | Guess(key: Key, guess: nat, wait: nat)

  function Next(policy: Policy, t: Table, e: Event): Table {
    match e
    case Ask(k, ip, wait, spent, code, delivered) => Issue(policy, t, k, ip, wait, spent, code, delivered).0
    case Guess(k, guess, wait) => Verify(t, k, guess, wait).0
  }

  function Run(policy: Policy, t: Table, events: seq<Event>): Table {
    if events == [] then t else Next(policy, Run(policy, t, events[..|events| - 1]), events[|events| - 1])
  }

  // ---- Counting --------------------------------------------------------------

  lemma {:induction false} CountAtMost(rows: seq<Row>, p: Row -> bool, q: Row -> bool)
    requires forall row :: row in rows && p(row) ==> q(row)
    ensures Count(rows, p) <= Count(rows, q)
  {
    if rows != [] {
      CountAtMost(rows[..|rows| - 1], p, q);
      assert rows[|rows| - 1] in rows;
    }
  }

  /** Rewriting rows without touching what a query looks at does not change its count. */
  lemma {:induction false} CountUnmoved(rows: seq<Row>, rows': seq<Row>, p: Row -> bool)
    requires |rows'| == |rows| && forall i :: 0 <= i < |rows| ==> p(rows'[i]) == p(rows[i])
    ensures Count(rows', p) == Count(rows, p)
  {
    if rows != [] {
      CountUnmoved(rows[..|rows| - 1], rows'[..|rows| - 1], p);
    }
  }

  lemma CountAppend(rows: seq<Row>, row: Row, p: Row -> bool)
    ensures Count(rows + [row], p) == Count(rows, p) + if p(row) then 1 else 0
  {
    assert (rows + [row])[..|rows + [row]| - 1] == rows;
  }

  function SentToWithin(k: Key, from: Time, to: Time): Row -> bool {
    (row: Row) => row.key == k && from <= row.createdAt <= to
  }

  function SentFromWithin(ip: nat, from: Time, to: Time): Row -> bool {
    (row: Row) => row.ip == Some(ip) && from <= row.createdAt <= to
  }

  // ---- The invariant ---------------------------------------------------------

  predicate RowOk(policy: Policy, clock: Time, row: Row) {
    && row.maxAttempts == policy.maxAttempts
    && row.attempts <= row.maxAttempts
    && (row.status.Verified? ==> row.attempts < row.maxAttempts)
    && row.createdAt <= clock
    && row.expiresAt <= row.createdAt + policy.expirySeconds * SECOND
  }

  /** Only the newest code of a phone and purpose can be open, and codes are a cooldown apart. */
  ghost predicate Spaced(policy: Policy, rows: seq<Row>) {
    forall i, j :: 0 <= i < j < |rows| && rows[i].key == rows[j].key ==>
                     && !rows[i].status.Pending?
                     && rows[i].createdAt + policy.cooldownSeconds * SECOND <= rows[j].createdAt
  }

  predicate WithinDaily(policy: Policy, rows: seq<Row>, k: Key, from: Time) {
    Count(rows, SentToWithin(k, from, from + DAY)) <= policy.maxPerPhonePerDay
  }

  predicate WithinHourly(policy: Policy, rows: seq<Row>, ip: nat, from: Time) {
    Count(rows, SentFromWithin(ip, from, from + HOUR)) <= policy.maxPerIpPerHour
  }

  ghost predicate DailyLimitHolds(policy: Policy, rows: seq<Row>) {
    policy.maxPerPhonePerDay != 0 ==>
      forall k: Key, from: Time :: !policy.IsReview(k) ==> WithinDaily(policy, rows, k, from)
  }

  ghost predicate HourlyLimitHolds(policy: Policy, rows: seq<Row>) {
    policy.maxPerIpPerHour != 0 ==> forall ip: nat, from: Time :: WithinHourly(policy, rows, ip, from)
  }

  ghost predicate Sound(policy: Policy, t: Table) {
    && (forall i :: 0 <= i < |t.rows| ==> RowOk(policy, t.clock, t.rows[i]))
    && Spaced(policy, t.rows)
    && DailyLimitHolds(policy, t.rows)
    && HourlyLimitHolds(policy, t.rows)
  }

  /** Status and attempt counters moved; who, when and what for did not. */
  predicate SameStamp(row: Row, row': Row) {
    row'.key == row.key && row'.ip == row.ip && row'.createdAt == row.createdAt && row'.code == row.code
    && row'.maxAttempts == row.maxAttempts && row'.expiresAt == row.expiresAt
  }

  lemma LimitsUnmoved(policy: Policy, rows: seq<Row>, rows': seq<Row>)
    requires |rows'| == |rows| && forall i :: 0 <= i < |rows| ==> SameStamp(rows[i], rows'[i])
    requires DailyLimitHolds(policy, rows) && HourlyLimitHolds(policy, rows)
    ensures DailyLimitHolds(policy, rows') && HourlyLimitHolds(policy, rows')
  {
    forall k: Key, from: Time ensures WithinDaily(policy, rows', k, from) == WithinDaily(policy, rows, k, from) {
      CountUnmoved(rows, rows', SentToWithin(k, from, from + DAY));
    }
    forall ip: nat, from: Time ensures WithinHourly(policy, rows', ip, from) == WithinHourly(policy, rows, ip, from) {
      CountUnmoved(rows, rows', SentFromWithin(ip, from, from + HOUR));
    }
  }

  /** A window that holds the new row lies after the moment the limit was counted from. */
  lemma DailyLimitKept(policy: Policy, rows: seq<Row>, row: Row, now: Time)
    requires DailyLimitHolds(policy, rows) && now <= row.createdAt
    requires policy.maxPerPhonePerDay != 0 && !policy.IsReview(row.key) ==>
               Count(rows, SentToSince(row.key, now - DAY)) < policy.maxPerPhonePerDay
    ensures DailyLimitHolds(policy, rows + [row])
  {
    if policy.maxPerPhonePerDay != 0 {
      forall k: Key, from: Time | !policy.IsReview(k) ensures WithinDaily(policy, rows + [row], k, from) {
        assert WithinDaily(policy, rows, k, from);
        CountAppend(rows, row, SentToWithin(k, from, from + DAY));
        if SentToWithin(k, from, from + DAY)(row) {
          CountAtMost(rows, SentToWithin(k, from, from + DAY), SentToSince(k, now - DAY));
        }
      }
    }
  }

  lemma HourlyLimitKept(policy: Policy, rows: seq<Row>, row: Row, now: Time)
    requires HourlyLimitHolds(policy, rows) && now <= row.createdAt
    requires row.ip.Some? && policy.maxPerIpPerHour != 0 ==>
               Count(rows, SentFromSince(row.ip.value, now - HOUR)) < policy.maxPerIpPerHour
    ensures HourlyLimitHolds(policy, rows + [row])
  {
    if policy.maxPerIpPerHour != 0 {
      forall ip: nat, from: Time ensures WithinHourly(policy, rows + [row], ip, from) {
        assert WithinHourly(policy, rows, ip, from);
        CountAppend(rows, row, SentFromWithin(ip, from, from + HOUR));
        if SentFromWithin(ip, from, from + HOUR)(row) {
          CountAtMost(rows, SentFromWithin(ip, from, from + HOUR), SentFromSince(ip, now - HOUR));
        }
      }
    }
  }

  /** Closing the older codes first, the limits count the same rows before and after. */
  lemma RefusalIgnoresStatus(rows: seq<Row>, k: Key, ip: nat, since: Time)
    ensures Count(Superseded(rows, k), SentToSince(k, since)) == Count(rows, SentToSince(k, since))
    ensures Count(Superseded(rows, k), SentFromSince(ip, since)) == Count(rows, SentFromSince(ip, since))
  {
    CountUnmoved(rows, Superseded(rows, k), SentToSince(k, since));
    CountUnmoved(rows, Superseded(rows, k), SentFromSince(ip, since));
  }

  lemma IssueKeepsSpaced(policy: Policy, t: Table, k: Key, ip: Option<nat>, now: Time, row: Row)
    requires Spaced(policy, t.rows) && Refusal(policy, t.rows, k, ip, now).None? && row.key == k && now <= row.createdAt
    ensures Spaced(policy, Superseded(t.rows, k) + [row])
  {
    var last := LastWhere(t.rows, SentTo(k));
    assert forall i :: 0 <= i < |t.rows| && SentTo(k)(t.rows[i]) ==> i <= last;
  }

  lemma IssueKeepsSound(policy: Policy, t: Table, k: Key, ip: Option<nat>, wait: nat, spent: nat, code: nat, delivered: bool)
    requires Sound(policy, t)
    ensures Sound(policy, Issue(policy, t, k, ip, wait, spent, code, delivered).0)
  {
    hide Count, LastWhere, SentToSince, SentFromSince, WithinDaily, WithinHourly, DailyLimitHolds, HourlyLimitHolds;
    var now := t.clock + wait;
    if Issue(policy, t, k, ip, wait, spent, code, delivered).1.None? {
      var row := NewRow(policy, k, ip, now, now + spent, code);
      var closed := Superseded(t.rows, k);
      IssueKeepsSpaced(policy, t, k, ip, now, row);
      LimitsUnmoved(policy, t.rows, closed);
      RefusalIgnoresStatus(t.rows, k, if ip.Some? then ip.value else 0, now - DAY);
      RefusalIgnoresStatus(t.rows, k, if ip.Some? then ip.value else 0, now - HOUR);
      DailyLimitKept(policy, closed, row, now);
      HourlyLimitKept(policy, closed, row, now);
    }
  }

  lemma VerifyKeepsSound(policy: Policy, t: Table, k: Key, guess: nat, wait: nat)
    requires Sound(policy, t)
    ensures Sound(policy, Verify(t, k, guess, wait).0)
  {
    LimitsUnmoved(policy, t.rows, Verify(t, k, guess, wait).0.rows);
  }

  /**
   * In every run: a phone and purpose gets at most the daily limit of codes in any closed window of 24 hours
   * and an address at most the hourly limit in any hour, codes are a cooldown apart, one code at most is open,
   * and no code collects more wrong guesses than allowed.
   */
  lemma {:induction false} RunKeepsSound(policy: Policy, t: Table, events: seq<Event>)
    requires Sound(policy, t)
    ensures Sound(policy, Run(policy, t, events))
  {
    if events != [] {
      var before := Run(policy, t, events[..|events| - 1]);
      RunKeepsSound(policy, t, events[..|events| - 1]);
      match events[|events| - 1]
      case Ask(k, ip, wait, spent, code, delivered) => IssueKeepsSound(policy, before, k, ip, wait, spent, code, delivered);
      case Guess(k, guess, wait) => VerifyKeepsSound(policy, before, k, guess, wait);
    }
  }

  lemma EmptyIsSound(policy: Policy, now: Time)
    ensures Sound(policy, Table(now, []))
  {
  }

  // ---- How many guesses are compared -----------------------------------------

  /** Comparisons made for the key at moments of the closed window. */
  function Comparisons(policy: Policy, t: Table, events: seq<Event>, k: Key, from: Time, to: Time): nat {
    if events == [] then 0
    else
      var n := |events| - 1;
      var before := Run(policy, t, events[..n]);
      Comparisons(policy, t, events[..n], k, from, to)
      + if events[n].Guess? && events[n].key == k && from <= before.clock + events[n].wait <= to
           && Compares(before, k, events[n].wait) then 1 else 0
  }

  /** Guesses the open code of the key still allows. */
  function Budget(policy: Policy, rows: seq<Row>, k: Key): int {
    var i := LastWhere(rows, OpenFor(k));
    if i < 0 then 0 else policy.maxAttempts - rows[i].attempts
  }

  lemma BudgetIsBounded(policy: Policy, t: Table, k: Key)
    requires Sound(policy, t)
    ensures 0 <= Budget(policy, t.rows, k) <= policy.maxAttempts
  {
    hide DailyLimitHolds, HourlyLimitHolds, Spaced;
  }

  lemma OpenRowIsUnique(policy: Policy, rows: seq<Row>, k: Key, i: nat)
    requires Spaced(policy, rows) && i < |rows| && OpenFor(k)(rows[i])
    ensures LastWhere(rows, OpenFor(k)) == i
  {
  }

  lemma IssueResetsBudget(policy: Policy, t: Table, e: Event, k: Key)
    requires Sound(policy, t) && e.Ask?
    ensures var t' := Next(policy, t, e);
            if t'.rows != t.rows && e.key == k
            then Budget(policy, t'.rows, k) == policy.maxAttempts
            else Budget(policy, t'.rows, k) == Budget(policy, t.rows, k)
  {
    var t' := Next(policy, t, e);
    IssueKeepsSound(policy, t, e.key, e.ip, e.wait, e.spent, e.code, e.delivered);
    if t'.rows != t.rows {
      var i := LastWhere(t.rows, OpenFor(k));
      if e.key == k {
        OpenRowIsUnique(policy, t'.rows, k, |t.rows|);
      } else if i >= 0 {
        OpenRowIsUnique(policy, t'.rows, k, i);
      }
    }
  }

  /** Every comparison costs the open code one guess; nothing else about a guess raises what is left. */
  lemma GuessCostsBudget(policy: Policy, t: Table, k: Key, guess: nat, wait: nat, other: Key)
    requires Sound(policy, t)
    ensures var rows' := Verify(t, k, guess, wait).0.rows;
            if other == k
            then 0 <= Budget(policy, rows', other)
                      <= Budget(policy, t.rows, other) - (if Compares(t, k, wait) then 1 else 0)
            else Budget(policy, rows', other) == Budget(policy, t.rows, other)
  {
    var rows' := Verify(t, k, guess, wait).0.rows;
    VerifyKeepsSound(policy, t, k, guess, wait);
    var i := LastWhere(t.rows, OpenFor(k));
    var j := LastWhere(t.rows, OpenFor(other));
    if other == k {
      if i >= 0 && OpenFor(k)(rows'[i]) {
        OpenRowIsUnique(policy, rows', k, i);
      }
    } else if j >= 0 {
      OpenRowIsUnique(policy, rows', other, j);
    }
  }

  function SentWithin(rows: seq<Row>, k: Key, from: Time, to: Time): nat {
    Count(rows, SentToWithin(k, from, to))
  }

  lemma SentWithinIssued(rows: seq<Row>, key: Key, row: Row, k: Key, from: Time, to: Time)
    ensures SentWithin(Superseded(rows, key) + [row], k, from, to)
         == SentWithin(rows, k, from, to) + if SentToWithin(k, from, to)(row) then 1 else 0
  {
    CountUnmoved(rows, Superseded(rows, key), SentToWithin(k, from, to));
    CountAppend(Superseded(rows, key), row, SentToWithin(k, from, to));
  }

  lemma SentWithinNext(policy: Policy, t: Table, e: Event, k: Key, from: Time, to: Time)
    ensures var rows' := Next(policy, t, e).rows;
            SentWithin(rows', k, from, to) == SentWithin(t.rows, k, from, to)
              + if |rows'| > |t.rows| && e.key == k && from <= Next(policy, t, e).clock <= to then 1 else 0
  {
    hide Count, LastWhere, Refusal;
    if e.Guess? {
      CountUnmoved(t.rows, Verify(t, e.key, e.guess, e.wait).0.rows, SentToWithin(k, from, to));
    } else if |Next(policy, t, e).rows| > |t.rows| {
      var now := t.clock + e.wait;
      SentWithinIssued(t.rows, e.key, NewRow(policy, e.key, e.ip, now, now + e.spent, e.code), k, from, to);
    }
  }

  /** Guesses already compared in the window, with those still open in it, are paid for by codes. */
  ghost predicate PaidFor(policy: Policy, t: Table, compared: nat, k: Key, from: Time, to: Time) {
    && (t.clock < from ==> compared == 0)
    && compared + (if t.clock <= to then Budget(policy, t.rows, k) else 0)
       <= policy.maxAttempts * (1 + SentWithin(t.rows, k, from, to))
  }

  lemma OneMoreCode(m: nat, sent: nat)
    ensures m * (1 + (sent + 1)) == m * (1 + sent) + m && 0 <= m <= m * (1 + sent)
  {
  }

  lemma MoreCodesMoreGuesses(m: nat, few: nat, many: nat)
    requires few <= many
    ensures m * (1 + few) <= (many + 1) * m
  {
  }

  lemma AskingTakesTime(policy: Policy, t: Table, e: Event)
    requires e.Ask?
    ensures var t' := Next(policy, t, e); t.clock <= t'.clock && (t'.rows == t.rows || |t'.rows| == |t.rows| + 1)
  {
  }

  lemma AskPaid(policy: Policy, t: Table, e: Event, compared: nat, k: Key, from: Time, to: Time)
    requires Sound(policy, t) && PaidFor(policy, t, compared, k, from, to) && e.Ask?
    ensures PaidFor(policy, Next(policy, t, e), compared, k, from, to)
  {
    hide Next, Sound, Budget, SentWithin;
    AskingTakesTime(policy, t, e);
    BudgetIsBounded(policy, t, k);
    IssueResetsBudget(policy, t, e, k);
    SentWithinNext(policy, t, e, k, from, to);
    OneMoreCode(policy.maxAttempts, SentWithin(t.rows, k, from, to));
  }

  lemma GuessPaid(policy: Policy, t: Table, e: Event, compared: nat, k: Key, from: Time, to: Time)
    requires Sound(policy, t) && PaidFor(policy, t, compared, k, from, to) && e.Guess?
    ensures var more := if e.key == k && from <= t.clock + e.wait <= to && Compares(t, k, e.wait) then 1 else 0;
            PaidFor(policy, Next(policy, t, e), compared + more, k, from, to)
  {
    GuessCostsBudget(policy, t, e.key, e.guess, e.wait, k);
    SentWithinNext(policy, t, e, k, from, to);
  }

  lemma {:induction false} ComparisonsArePaidFor(policy: Policy, t: Table, events: seq<Event>, k: Key, from: Time, to: Time)
    requires Sound(policy, t)
    ensures PaidFor(policy, Run(policy, t, events), Comparisons(policy, t, events, k, from, to), k, from, to)
  {
    if events == [] {
      OneMoreCode(policy.maxAttempts, SentWithin(t.rows, k, from, to));
    } else {
      var n := |events| - 1;
      var before := Run(policy, t, events[..n]);
      RunKeepsSound(policy, t, events[..n]);
      ComparisonsArePaidFor(policy, t, events[..n], k, from, to);
      var compared := Comparisons(policy, t, events[..n], k, from, to);
      if events[n].Ask? {
        AskPaid(policy, before, events[n], compared, k, from, to);
      } else {
        GuessPaid(policy, before, events[n], compared, k, from, to);
      }
    }
  }

  /** In any window, however the guesses are spread over codes: at most one code's worth more than was sent in it. */
  lemma GuessesPerWindow(policy: Policy, t: Table, events: seq<Event>, k: Key, from: Time, to: Time)
    requires Sound(policy, t)
    ensures Comparisons(policy, t, events, k, from, to)
            <= policy.maxAttempts * (1 + SentWithin(Run(policy, t, events).rows, k, from, to))
  {
    ComparisonsArePaidFor(policy, t, events, k, from, to);
    RunKeepsSound(policy, t, events);
  }

  /** In any 24 hours at most (L + 1) * M guesses of a code are ever compared. */
  lemma GuessesPerDay(policy: Policy, t: Table, events: seq<Event>, k: Key, from: Time)
    requires Sound(policy, t) && policy.maxPerPhonePerDay != 0 && !policy.IsReview(k)
    ensures Comparisons(policy, t, events, k, from, from + DAY) <= (policy.maxPerPhonePerDay + 1) * policy.maxAttempts
  {
    hide Run, Comparisons, Count;
    GuessesPerWindow(policy, t, events, k, from, from + DAY);
    RunKeepsSound(policy, t, events);
    assert WithinDaily(policy, Run(policy, t, events).rows, k, from);
    MoreCodesMoreGuesses(policy.maxAttempts, SentWithin(Run(policy, t, events).rows, k, from, from + DAY),
                         policy.maxPerPhonePerDay);
  }

  // ---- A code is accepted once -----------------------------------------------

  lemma NextKeepsClosed(policy: Policy, t: Table, e: Event, i: nat)
    requires i < |t.rows|
    ensures i < |Next(policy, t, e).rows| && SameStamp(t.rows[i], Next(policy, t, e).rows[i])
    ensures !t.rows[i].status.Pending? ==> Next(policy, t, e).rows[i] == t.rows[i]
  {
  }

  /** Rows stay where they are; a verified, expired or failed code never changes again. */
  lemma {:induction false} ClosedForEver(policy: Policy, t: Table, events: seq<Event>, i: nat)
    requires i < |t.rows|
    ensures i < |Run(policy, t, events).rows| && SameStamp(t.rows[i], Run(policy, t, events).rows[i])
    ensures !t.rows[i].status.Pending? ==> Run(policy, t, events).rows[i] == t.rows[i]
  {
    if events != [] {
      ClosedForEver(policy, t, events[..|events| - 1], i);
      NextKeepsClosed(policy, Run(policy, t, events[..|events| - 1]), events[|events| - 1], i);
    }
  }

  /** How often the run accepts the code of row i. */
  function Acceptances(policy: Policy, t: Table, events: seq<Event>, i: nat): nat {
    if events == [] then 0
    else
      var n := |events| - 1;
      var before := Run(policy, t, events[..n]);
      Acceptances(policy, t, events[..n], i)
      + if events[n].Guess? && Verify(before, events[n].key, events[n].guess, events[n].wait).1 == Matched(i)
        then 1 else 0
  }

  /** No code is accepted twice, in any run. */
  lemma {:induction false} AcceptedAtMostOnce(policy: Policy, t: Table, events: seq<Event>, i: nat)
    ensures Acceptances(policy, t, events, i) <= 1
    ensures Acceptances(policy, t, events, i) == 1 ==>
              i < |Run(policy, t, events).rows| && Run(policy, t, events).rows[i].status.Verified?
  {
    if events != [] {
      var n := |events| - 1;
      AcceptedAtMostOnce(policy, t, events[..n], i);
      if Acceptances(policy, t, events[..n], i) == 1 {
        NextKeepsClosed(policy, Run(policy, t, events[..n]), events[n], i);
      }
    }
  }

  /** A guess is accepted exactly when it equals the newest code of its key, still open, unexpired and not exhausted. */
  lemma AcceptedIffNewest(policy: Policy, t: Table, k: Key, guess: nat, wait: nat)
    requires Sound(policy, t)
    ensures Verify(t, k, guess, wait).1.Matched? <==>
            var i := LastWhere(t.rows, SentTo(k));
            && i >= 0 && t.rows[i].status.Pending? && t.rows[i].code == guess
            && t.clock + wait < t.rows[i].expiresAt && t.rows[i].attempts < policy.maxAttempts
  {
    var i := LastWhere(t.rows, SentTo(k));
    var j := LastWhere(t.rows, OpenFor(k));
    if j >= 0 {
      assert SentTo(k)(t.rows[j]) && SentTo(k)(t.rows[i]);
    }
    if i >= 0 && t.rows[i].status.Pending? {
      OpenRowIsUnique(policy, t.rows, k, i);
    }
  }

  /** An accepted guess comes within the lifetime of its code, counted from the moment the code was stored. */
  lemma AcceptedInTime(policy: Policy, t: Table, k: Key, guess: nat, wait: nat)
    requires Sound(policy, t) && Verify(t, k, guess, wait).1.Matched?
    ensures var i := Verify(t, k, guess, wait).1.row;
            && i < |t.rows| && t.rows[i].key == k && t.rows[i].code == guess
            && t.rows[i].createdAt <= t.clock + wait < t.rows[i].createdAt + policy.expirySeconds * SECOND
  {
    AcceptedIffNewest(policy, t, k, guess, wait);
  }
}
