/**
 * The point ledger behind over/under bets: placing a ticket with a guarded debit of the
 * user's rep points, and settling every open ticket of a bet against a final value.
 *
 * The database is an abstract store: a balance per user, a line per bet and the sequence
 * of tickets in insertion order (a ticket's serial id is its position plus one). Each
 * transaction of the controller is one atomic method call on a `Ledger`.
 */
module Bets {
  import opened Wrappers

  type UserId = int
  type BetId = int

  /** A JavaScript number after `Number(...)`: NaN, or a finite value (decimals are exact rationals). */
  datatype Num = NaN | Finite(value: real)

  datatype Side = Over | Under

  datatype Status = Placed | Won | Lost

  datatype Ticket = Ticket(userId: UserId, betId: BetId, amount: int, side: Side, status: Status)

  /** The persistent state a transaction reads and writes. */
  datatype Store = Store(balances: map<UserId, int>, lines: map<BetId, real>, tickets: seq<Ticket>)

  /** The error responses of the two endpoints. */
  datatype BetError =
    | InvalidBetId
    | MissingFields
    | NonPositiveAmount
    | InvalidSide
    | MissingFinalValue
    | BetNotFound
    | InsufficientRepPoints

  /** A placement request as parsed from the route and the JSON body; an absent field is None. */
  datatype PlaceRequest = PlaceRequest(betId: Option<BetId>, userId: Option<int>, amount: Option<int>, side: Option<string>)

  /** A placement whose fields passed validation. */
  datatype Placement = Placement(userId: UserId, betId: BetId, amount: int, side: Side)

  datatype PlaceOutcome = TicketCreated(ticketId: nat) | Refused(error: BetError)

  datatype SettleOutcome = SettleOk | SettleRefused(error: BetError)

  const ODDS_MULTIPLIER: real := 2.0

  /** The HTTP status each error is reported with. */
  function HttpStatus(e: BetError): (code: int)
    ensures code == 404 <==> e == BetNotFound
    ensures code != 404 ==> code == 400
  {
    if e == BetNotFound then 404 else 400
  }

  /** `Math.floor` of a number. */
  function ToInt(n: real): (r: int)
    ensures r as real <= n < r as real + 1.0
  {
    n.Floor
  }

  /** Whether a ticket on `side` wins when the outcome is `finalValue` and the line is `betLine`. */
  function ComputeWin(side: Side, finalValue: Num, betLine: real): (won: bool)
    ensures side == Over ==> (won <==> finalValue.Finite? && finalValue.value > betLine)
    ensures side == Under ==> (won <==> finalValue.Finite? && finalValue.value < betLine)
    ensures finalValue == Finite(betLine) ==> !won
    ensures finalValue == NaN ==> !won
  {
    match side
    case Over => finalValue.Finite? && finalValue.value > betLine
    case Under => finalValue.Finite? && finalValue.value < betLine
  }

  /** The points credited to a winning ticket: the stake times the odds, rounded down. */
  function ComputePayout(amount: int, oddsMultiplier: real): (payout: int)
    ensures payout as real <= amount as real * oddsMultiplier < payout as real + 1.0
    ensures oddsMultiplier == ODDS_MULTIPLIER ==> payout == 2 * amount
  {
    ToInt(amount as real * oddsMultiplier)
  }

  /** JavaScript truthiness of an optional number field: present and nonzero. */
  predicate IntGiven(o: Option<int>) {
    o.Some? && o.value != 0
  }

  /** JavaScript truthiness of an optional string field: present and non-empty. */
  predicate StringGiven(o: Option<string>) {
    o.Some? && o.value != ""
  }

  function SideName(side: Side): string {
    match side
    case Over => "over"
    case Under => "under"
  }

  function ParseSide(s: string): (r: Option<Side>)
    ensures r.Some? <==> s == "over" || s == "under"
    ensures r.Some? ==> SideName(r.value) == s
  {
    if s == "over" then Some(Over) else if s == "under" then Some(Under) else None
  }

  /**
   * The checks placement makes before it opens a transaction, in the controller's order:
   * the bet id, the three required fields, the amount's sign, the side, the bet's existence.
   */
  function ValidatePlacement(req: PlaceRequest, bets: set<BetId>): (r: Result<Placement, BetError>)
    ensures r.Ok? <==>
      && req.betId.Some? && req.betId.value in bets
      && IntGiven(req.userId)
      && req.amount.Some? && req.amount.value > 0
      && req.side.Some? && (req.side.value == "over" || req.side.value == "under")
    ensures r.Ok? ==>
      && r.value.amount > 0
      && Some(r.value.userId) == req.userId
      && Some(r.value.betId) == req.betId
      && Some(r.value.amount) == req.amount
      && Some(SideName(r.value.side)) == req.side
    ensures r == Err(InvalidBetId) <==> req.betId.None?
    ensures r == Err(MissingFields) <==>
      req.betId.Some? && !(IntGiven(req.userId) && IntGiven(req.amount) && StringGiven(req.side))
    ensures r == Err(NonPositiveAmount) <==>
      && req.betId.Some? && IntGiven(req.userId) && IntGiven(req.amount) && StringGiven(req.side)
      && req.amount.value < 0
    ensures r == Err(InvalidSide) <==>
      && req.betId.Some? && IntGiven(req.userId) && req.amount.Some? && req.amount.value > 0
      && StringGiven(req.side) && ParseSide(req.side.value).None?
    ensures r == Err(BetNotFound) <==>
      && req.betId.Some? && req.betId.value !in bets
      && IntGiven(req.userId) && req.amount.Some? && req.amount.value > 0
      && req.side.Some? && ParseSide(req.side.value).Some?
    ensures r.Err? ==> r.error in {InvalidBetId, MissingFields, NonPositiveAmount, InvalidSide, BetNotFound}
  {
    if req.betId.None? then Err(InvalidBetId)
    else if !IntGiven(req.userId) || !IntGiven(req.amount) || !StringGiven(req.side) then Err(MissingFields)
    else if req.amount.value <= 0 then Err(NonPositiveAmount)
    else if ParseSide(req.side.value).None? then Err(InvalidSide)
    else if req.betId.value !in bets then Err(BetNotFound)
    else Ok(Placement(req.userId.value, req.betId.value, req.amount.value, ParseSide(req.side.value).value))
  }

  /** The ledger's invariant: no negative balance and every stake positive. */
  ghost predicate StoreValid(s: Store) {
    && (forall u :: u in s.balances ==> s.balances[u] >= 0)
    && (forall i :: 0 <= i < |s.tickets| ==> s.tickets[i].amount > 0)
  }

  // ---------------------------------------------------------------------------------------
  // Settlement, as a function of the store

  /** The rows settlement selects: this bet's tickets still in `placed`. */
  predicate Selected(t: Ticket, b: BetId) {
    t.betId == b && t.status == Placed
  }

  predicate InBounds(sel: seq<nat>, n: nat) {
    forall j :: 0 <= j < |sel| ==> sel[j] < n
  }

  /** No position occurs twice. */
  predicate Distinct(sel: seq<nat>) {
    forall j, k :: 0 <= j < k < |sel| ==> sel[j] != sel[k]
  }

  predicate Increasing(sel: seq<nat>) {
    forall j, k :: 0 <= j < k < |sel| ==> sel[j] < sel[k]
  }

  /** The positions of the selected tickets, in table order. */
  function PlacedOf(tickets: seq<Ticket>, b: BetId): (r: seq<nat>)
    ensures InBounds(r, |tickets|) && Increasing(r)
    ensures forall i :: 0 <= i < |tickets| ==> (i in r <==> Selected(tickets[i], b))
    decreases |tickets|
  {
    if tickets == [] then []
    else
      var n := |tickets| - 1;
      PlacedOf(tickets[..n], b) + (if Selected(tickets[n], b) then [n] else [])
  }

  /** A ticket after settlement: `won` when it wins, `lost` otherwise. */
  function Resolve(t: Ticket, finalValue: Num, betLine: real): Ticket {
    t.(status := if ComputeWin(t.side, finalValue, betLine) then Won else Lost)
  }

  /** `UPDATE users SET rep_points = rep_points + payout WHERE id = u`: no row, no effect. */
  function Credit(balances: map<UserId, int>, u: UserId, payout: int): map<UserId, int> {
    if u in balances then balances[u := balances[u] + payout] else balances
  }

  /** One iteration of the settlement loop, on the ticket at position i. */
  function SettleStep(s: Store, i: nat, finalValue: Num, betLine: real): (r: Store)
    requires i < |s.tickets|
    ensures |r.tickets| == |s.tickets| && r.lines == s.lines && r.balances.Keys == s.balances.Keys
    ensures r.tickets[i] == Resolve(s.tickets[i], finalValue, betLine)
    ensures forall j :: 0 <= j < |s.tickets| && j != i ==> r.tickets[j] == s.tickets[j]
    ensures forall u :: u in s.balances ==>
      r.balances[u] == s.balances[u] +
        (if u == s.tickets[i].userId && ComputeWin(s.tickets[i].side, finalValue, betLine)
         then ComputePayout(s.tickets[i].amount, ODDS_MULTIPLIER) else 0)
  {
    var t := s.tickets[i];
    if ComputeWin(t.side, finalValue, betLine) then
      s.(balances := Credit(s.balances, t.userId, ComputePayout(t.amount, ODDS_MULTIPLIER)),
         tickets := s.tickets[i := t.(status := Won)])
    else
      s.(tickets := s.tickets[i := t.(status := Lost)])
  }

  /** The loop run over the positions `sel`, in order. */
  function SettleAll(s: Store, sel: seq<nat>, finalValue: Num, betLine: real): (r: Store)
    requires InBounds(sel, |s.tickets|)
    ensures |r.tickets| == |s.tickets| && r.lines == s.lines && r.balances.Keys == s.balances.Keys
    decreases |sel|
  {
    if sel == [] then s
    else
      var n := |sel| - 1;
      SettleStep(SettleAll(s, sel[..n], finalValue, betLine), sel[n], finalValue, betLine)
  }

  /** The store after a successful settlement of bet b. */
  function AfterSettlement(s: Store, b: BetId, finalValue: Num): (r: Store)
    requires b in s.lines
    ensures |r.tickets| == |s.tickets| && r.lines == s.lines && r.balances.Keys == s.balances.Keys
  {
    SettleAll(s, PlacedOf(s.tickets, b), finalValue, s.lines[b])
  }

  /** What the loop over `sel` credits to user u. */
  function Winnings(tickets: seq<Ticket>, sel: seq<nat>, u: UserId, finalValue: Num, betLine: real): int
    requires InBounds(sel, |tickets|)
    decreases |sel|
  {
    if sel == [] then 0
    else
      var n := |sel| - 1;
      var t := tickets[sel[n]];
      Winnings(tickets, sel[..n], u, finalValue, betLine)
        + (if t.userId == u && ComputeWin(t.side, finalValue, betLine) then ComputePayout(t.amount, ODDS_MULTIPLIER) else 0)
  }

  /** Reference definition: the payouts over u's winning open tickets of bet b. */
  function UserWinnings(tickets: seq<Ticket>, b: BetId, u: UserId, finalValue: Num, betLine: real): int
    decreases |tickets|
  {
    if tickets == [] then 0
    else
      var n := |tickets| - 1;
      var t := tickets[n];
      UserWinnings(tickets[..n], b, u, finalValue, betLine)
        + (if Selected(t, b) && t.userId == u && ComputeWin(t.side, finalValue, betLine)
           then ComputePayout(t.amount, ODDS_MULTIPLIER) else 0)
  }

  /** Running the loop over distinct positions resolves exactly those tickets and credits their winnings. */
  lemma {:induction false} SettleAllClosedForm(s: Store, sel: seq<nat>, finalValue: Num, betLine: real)
    requires InBounds(sel, |s.tickets|) && Distinct(sel)
    ensures forall i :: 0 <= i < |s.tickets| ==>
      SettleAll(s, sel, finalValue, betLine).tickets[i]
        == if i in sel then Resolve(s.tickets[i], finalValue, betLine) else s.tickets[i]
    ensures forall u :: u in s.balances ==>
      SettleAll(s, sel, finalValue, betLine).balances[u]
        == s.balances[u] + Winnings(s.tickets, sel, u, finalValue, betLine)
  {
    if sel != [] {
      var n := |sel| - 1;
      var pre := sel[..n];
      var x := sel[n];
      SettleAllClosedForm(s, pre, finalValue, betLine);
      assert x !in pre by {
        forall j | 0 <= j < |pre| ensures pre[j] != x {
          assert sel[j] != sel[n];
        }
      }
      var mid := SettleAll(s, pre, finalValue, betLine);
      assert SettleAll(s, sel, finalValue, betLine) == SettleStep(mid, x, finalValue, betLine);
      assert mid.tickets[x] == s.tickets[x];
      forall i | 0 <= i < |s.tickets|
        ensures SettleAll(s, sel, finalValue, betLine).tickets[i]
          == if i in sel then Resolve(s.tickets[i], finalValue, betLine) else s.tickets[i]
      {
        assert sel == pre + [x];
        assert i in sel <==> i in pre || i == x;
      }
    }
  }

  /** Winnings over positions of a prefix do not depend on what follows the prefix. */
  lemma {:induction false} WinningsOfPrefix(t1: seq<Ticket>, t2: seq<Ticket>, sel: seq<nat>, u: UserId, finalValue: Num, betLine: real)
    requires |t1| <= |t2| && t1 == t2[..|t1|] && InBounds(sel, |t1|)
    ensures Winnings(t2, sel, u, finalValue, betLine) == Winnings(t1, sel, u, finalValue, betLine)
    decreases |sel|
  {
    if sel != [] {
      WinningsOfPrefix(t1, t2, sel[..|sel| - 1], u, finalValue, betLine);
    }
  }

  /** The loop's credit to a user is the reference sum over the user's winning open tickets. */
  lemma {:induction false} WinningsOverPlaced(tickets: seq<Ticket>, b: BetId, u: UserId, finalValue: Num, betLine: real)
    ensures Winnings(tickets, PlacedOf(tickets, b), u, finalValue, betLine)
      == UserWinnings(tickets, b, u, finalValue, betLine)
    decreases |tickets|
  {
    if tickets != [] {
      var n := |tickets| - 1;
      var pre := PlacedOf(tickets[..n], b);
      WinningsOverPlaced(tickets[..n], b, u, finalValue, betLine);
      WinningsOfPrefix(tickets[..n], tickets, pre, u, finalValue, betLine);
      if Selected(tickets[n], b) {
        assert (pre + [n])[..|pre|] == pre;
      } else {
        assert pre + [] == pre;
      }
    }
  }

  /** What the ticket at position i credits to user u when it is resolved. */
  function PayoutAt(tickets: seq<Ticket>, i: nat, u: UserId, finalValue: Num, betLine: real): int
    requires i < |tickets|
  {
    var t := tickets[i];
    if t.userId == u && ComputeWin(t.side, finalValue, betLine) then ComputePayout(t.amount, ODDS_MULTIPLIER) else 0
  }

  /** The credits to u of the positions below n that occur in sel, summed in table order. */
  function SumBelow(tickets: seq<Ticket>, n: nat, sel: seq<nat>, u: UserId, finalValue: Num, betLine: real): int
    requires n <= |tickets|
    decreases n
  {
    if n == 0 then 0
    else SumBelow(tickets, n - 1, sel, u, finalValue, betLine) + (if n - 1 in sel then PayoutAt(tickets, n - 1, u, finalValue, betLine) else 0)
  }

  lemma {:induction false} SumBelowAgree(tickets: seq<Ticket>, n: nat, a: seq<nat>, c: seq<nat>, u: UserId, finalValue: Num, betLine: real)
    requires n <= |tickets|
    requires forall i :: 0 <= i < n ==> (i in a <==> i in c)
    ensures SumBelow(tickets, n, a, u, finalValue, betLine) == SumBelow(tickets, n, c, u, finalValue, betLine)
    decreases n
  {
    if n > 0 {
      SumBelowAgree(tickets, n - 1, a, c, u, finalValue, betLine);
    }
  }

  lemma {:induction false} SumBelowSplit(tickets: seq<Ticket>, n: nat, a: seq<nat>, c: seq<nat>, x: nat,
                                         u: UserId, finalValue: Num, betLine: real)
    requires x < n <= |tickets| && x !in c
    requires forall i :: 0 <= i < n ==> (i in a <==> i in c || i == x)
    ensures SumBelow(tickets, n, a, u, finalValue, betLine)
      == SumBelow(tickets, n, c, u, finalValue, betLine) + PayoutAt(tickets, x, u, finalValue, betLine)
    decreases n
  {
    if n - 1 == x {
      SumBelowAgree(tickets, n - 1, a, c, u, finalValue, betLine);
    } else {
      SumBelowSplit(tickets, n - 1, a, c, x, u, finalValue, betLine);
    }
  }

  lemma {:induction false} SumBelowNone(tickets: seq<Ticket>, n: nat, u: UserId, finalValue: Num, betLine: real)
    requires n <= |tickets|
    ensures SumBelow(tickets, n, [], u, finalValue, betLine) == 0
    decreases n
  {
    if n > 0 {
      SumBelowNone(tickets, n - 1, u, finalValue, betLine);
    }
  }

  /** Over distinct positions, the loop's credit depends only on which positions are visited, not their order. */
  lemma {:induction false} WinningsAsSum(tickets: seq<Ticket>, sel: seq<nat>, u: UserId, finalValue: Num, betLine: real)
    requires InBounds(sel, |tickets|) && Distinct(sel)
    ensures Winnings(tickets, sel, u, finalValue, betLine) == SumBelow(tickets, |tickets|, sel, u, finalValue, betLine)
    decreases |sel|
  {
    if sel == [] {
      SumBelowNone(tickets, |tickets|, u, finalValue, betLine);
    } else {
      var n := |sel| - 1;
      var pre, x := sel[..n], sel[n];
      WinningsAsSum(tickets, pre, u, finalValue, betLine);
      assert sel == pre + [x];
      assert x !in pre by {
        forall j | 0 <= j < |pre| ensures pre[j] != x {
          assert sel[j] != sel[n];
        }
      }
      SumBelowSplit(tickets, |tickets|, sel, pre, x, u, finalValue, betLine);
    }
  }

  /**
   * The selection has no ORDER BY: visiting the bet's open tickets in any order, each once,
   * leaves the same store as settlement in table order.
   */
  lemma AnyOrderSettles(s: Store, b: BetId, finalValue: Num, sel: seq<nat>)
    requires b in s.lines
    requires InBounds(sel, |s.tickets|) && Distinct(sel)
    requires forall i :: 0 <= i < |s.tickets| ==> (i in sel <==> Selected(s.tickets[i], b))
    ensures SettleAll(s, sel, finalValue, s.lines[b]) == AfterSettlement(s, b, finalValue)
  {
    var betLine := s.lines[b];
    var placed := PlacedOf(s.tickets, b);
    var r1, r2 := SettleAll(s, sel, finalValue, betLine), SettleAll(s, placed, finalValue, betLine);
    SettleAllClosedForm(s, sel, finalValue, betLine);
    SettleAllClosedForm(s, placed, finalValue, betLine);
    forall i | 0 <= i < |s.tickets| ensures r1.tickets[i] == r2.tickets[i] {
      assert i in sel <==> i in placed;
    }
    forall u | u in s.balances ensures r1.balances[u] == r2.balances[u] {
      WinningsAsSum(s.tickets, sel, u, finalValue, betLine);
      WinningsAsSum(s.tickets, placed, u, finalValue, betLine);
      SumBelowAgree(s.tickets, |s.tickets|, sel, placed, u, finalValue, betLine);
    }
    assert r1.tickets == r2.tickets;
    assert r1.balances == r2.balances;
  }

  /** Settlement resolves exactly the open tickets of the bet; nothing else changes. */
  lemma SettlementResolves(s: Store, b: BetId, finalValue: Num)
    requires b in s.lines
    ensures |AfterSettlement(s, b, finalValue).tickets| == |s.tickets|
    ensures AfterSettlement(s, b, finalValue).lines == s.lines
    ensures forall i :: 0 <= i < |s.tickets| ==>
      AfterSettlement(s, b, finalValue).tickets[i]
        == if Selected(s.tickets[i], b) then Resolve(s.tickets[i], finalValue, s.lines[b]) else s.tickets[i]
  {
    SettleAllClosedForm(s, PlacedOf(s.tickets, b), finalValue, s.lines[b]);
  }

  /** After settlement no ticket of the bet is `placed`; each formerly open one is `won` exactly when it wins. */
  lemma SettlementLeavesNoPlaced(s: Store, b: BetId, finalValue: Num)
    requires b in s.lines
    ensures forall i :: 0 <= i < |s.tickets| ==> !Selected(AfterSettlement(s, b, finalValue).tickets[i], b)
    ensures forall i :: 0 <= i < |s.tickets| && Selected(s.tickets[i], b) ==>
      ((AfterSettlement(s, b, finalValue).tickets[i].status == Won)
         <==> ComputeWin(s.tickets[i].side, finalValue, s.lines[b]))
  {
    SettlementResolves(s, b, finalValue);
  }

  /** Each user is credited the sum of the payouts of their winning tickets, and no user is added. */
  lemma SettlementCredits(s: Store, b: BetId, finalValue: Num)
    requires b in s.lines
    ensures AfterSettlement(s, b, finalValue).balances.Keys == s.balances.Keys
    ensures forall u :: u in s.balances ==>
      AfterSettlement(s, b, finalValue).balances[u]
        == s.balances[u] + UserWinnings(s.tickets, b, u, finalValue, s.lines[b])
  {
    var sel := PlacedOf(s.tickets, b);
    SettleAllClosedForm(s, sel, finalValue, s.lines[b]);
    forall u | u in s.balances
      ensures Winnings(s.tickets, sel, u, finalValue, s.lines[b]) == UserWinnings(s.tickets, b, u, finalValue, s.lines[b])
    {
      WinningsOverPlaced(s.tickets, b, u, finalValue, s.lines[b]);
    }
  }

  /** When no ticket of the bet is open, settlement selects no row. */
  lemma {:induction false} NothingPlacedSelectsNothing(tickets: seq<Ticket>, b: BetId)
    requires forall i :: 0 <= i < |tickets| ==> !Selected(tickets[i], b)
    ensures PlacedOf(tickets, b) == []
    decreases |tickets|
  {
    if tickets != [] {
      NothingPlacedSelectsNothing(tickets[..|tickets| - 1], b);
    }
  }

  /** Settling a second time changes nothing, whatever final value it is given. */
  lemma SettlementIdempotent(s: Store, b: BetId, finalValue: Num, again: Num)
    requires b in s.lines
    ensures b in AfterSettlement(s, b, finalValue).lines
    ensures AfterSettlement(AfterSettlement(s, b, finalValue), b, again) == AfterSettlement(s, b, finalValue)
  {
    SettlementLeavesNoPlaced(s, b, finalValue);
    NothingPlacedSelectsNothing(AfterSettlement(s, b, finalValue).tickets, b);
  }

  /** With positive stakes, a user's winnings are never negative. */
  lemma {:induction false} UserWinningsNonNegative(tickets: seq<Ticket>, b: BetId, u: UserId, finalValue: Num, betLine: real)
    requires forall i :: 0 <= i < |tickets| ==> tickets[i].amount > 0
    ensures UserWinnings(tickets, b, u, finalValue, betLine) >= 0
    decreases |tickets|
  {
    if tickets != [] {
      UserWinningsNonNegative(tickets[..|tickets| - 1], b, u, finalValue, betLine);
    }
  }

  /** Settlement keeps every balance non-negative and every stake positive. */
  lemma SettlementKeepsValid(s: Store, b: BetId, finalValue: Num)
    requires b in s.lines && StoreValid(s)
    ensures StoreValid(AfterSettlement(s, b, finalValue))
  {
    SettlementResolves(s, b, finalValue);
    SettlementCredits(s, b, finalValue);
    forall u | u in s.balances ensures UserWinnings(s.tickets, b, u, finalValue, s.lines[b]) >= 0 {
      UserWinningsNonNegative(s.tickets, b, u, finalValue, s.lines[b]);
    }
  }

  // ---------------------------------------------------------------------------------------
  // The ledger as a mutable object

  class Ledger {
    var balances: map<UserId, int>
    var lines: map<BetId, real>
    var tickets: seq<Ticket>

    function State(): Store
      reads this
    {
      Store(balances, lines, tickets)
    }

    ghost predicate Valid()
      reads this
    {
      StoreValid(State())
    }

    constructor (initialBalances: map<UserId, int>, betLines: map<BetId, real>)
      requires forall u :: u in initialBalances ==> initialBalances[u] >= 0
      ensures Valid()
      ensures balances == initialBalances && lines == betLines && tickets == []
    {
      balances := initialBalances;
      lines := betLines;
      tickets := [];
    }

    /**
     * Validates the request, then in one transaction debits the stake only where the
     * balance covers it and inserts an open ticket; a refusal leaves the store as it was.
     */
    method PlaceSingleBet(req: PlaceRequest) returns (out: PlaceOutcome)
      requires Valid()
      modifies this
      ensures Valid()
      ensures lines == old(lines)
      ensures out.Refused? ==> balances == old(balances) && tickets == old(tickets)
      ensures ValidatePlacement(req, old(lines).Keys).Err? ==>
        out == Refused(ValidatePlacement(req, old(lines).Keys).error)
      ensures ValidatePlacement(req, old(lines).Keys).Ok? ==>
        var p := ValidatePlacement(req, old(lines).Keys).value;
        if p.userId in old(balances) && old(balances)[p.userId] >= p.amount then
          && out == TicketCreated(|old(tickets)| + 1)
          && tickets == old(tickets) + [Ticket(p.userId, p.betId, p.amount, p.side, Placed)]
          && balances == old(balances)[p.userId := old(balances)[p.userId] - p.amount]
        else
          out == Refused(InsufficientRepPoints)
    {
      var v := ValidatePlacement(req, lines.Keys);
      if v.Err? {
        return Refused(v.error);
      }
      var p := v.value;
      // the guarded debit: rep_points -= amount WHERE id = userId AND rep_points >= amount
      var rowsAffected := 0;
      if p.userId in balances && balances[p.userId] >= p.amount {
        balances := balances[p.userId := balances[p.userId] - p.amount];
        rowsAffected := 1;
      }
      if rowsAffected == 0 {
        return Refused(InsufficientRepPoints);
      }
      tickets := tickets + [Ticket(p.userId, p.betId, p.amount, p.side, Placed)];
      out := TicketCreated(|tickets|);
    }

    /** One row of the settlement loop: credit a winner's payout and mark the ticket `won`, or mark it `lost`. */
    method ResolveTicket(i: nat, fv: Num, betLine: real)
      requires Valid() && i < |tickets|
      modifies this
      ensures Valid()
      ensures State() == SettleStep(old(State()), i, fv, betLine)
    {
      var t := tickets[i];
      if ComputeWin(t.side, fv, betLine) {
        var payout := ComputePayout(t.amount, ODDS_MULTIPLIER);
        if t.userId in balances {
          balances := balances[t.userId := balances[t.userId] + payout];
        }
        tickets := tickets[i := t.(status := Won)];
      } else {
        tickets := tickets[i := t.(status := Lost)];
      }
    }

    /**
     * Settles bet `betId` at `finalValue` in one transaction: every ticket of the bet still
     * `placed` becomes `won` (crediting its payout) or `lost`.
     */
    method SettleSingleBet(betId: Option<BetId>, finalValue: Option<Num>) returns (out: SettleOutcome)
      requires Valid()
      modifies this
      ensures Valid()
      ensures betId.None? ==> out == SettleRefused(InvalidBetId) && State() == old(State())
      ensures betId.Some? && finalValue.None? ==> out == SettleRefused(MissingFinalValue) && State() == old(State())
      ensures betId.Some? && finalValue.Some? && betId.value !in old(lines) ==>
        out == SettleRefused(BetNotFound) && State() == old(State())
      ensures betId.Some? && finalValue.Some? && betId.value in old(lines) ==>
        out == SettleOk && State() == AfterSettlement(old(State()), betId.value, finalValue.value)
    {
      if betId.None? {
        return SettleRefused(InvalidBetId);
      }
      if finalValue.None? {
        return SettleRefused(MissingFinalValue);
      }
      var b, fv := betId.value, finalValue.value;
      if b !in lines {
        return SettleRefused(BetNotFound);
      }
      var betLine := lines[b];
      var sel := PlacedOf(tickets, b);
      out := SettleOk;
      if |sel| == 0 {
        return;
      }
      ghost var s0 := State();
      var k := 0;
      while k < |sel|
        invariant 0 <= k <= |sel|
        invariant Valid()
        invariant State() == SettleAll(s0, sel[..k], fv, betLine)
      {
        ResolveTicket(sel[k], fv, betLine);
        assert sel[..k + 1][..k] == sel[..k];
        k := k + 1;
      }
      assert sel[..k] == sel;
    }
  }

  /** A stake of 600 against a balance of 500 is refused and nothing changes. */
  method InsufficientScenario() returns (refused: PlaceOutcome, balance: int)
    ensures refused == Refused(InsufficientRepPoints)
    ensures balance == 500
  {
    var ledger := new Ledger(map[2 := 500], map[7 := 10.5]);
    var req := PlaceRequest(Some(7), Some(2), Some(600), Some("over"));
    assert ValidatePlacement(req, ledger.lines.Keys) == Ok(Placement(2, 7, 600, Over));
    refused := ledger.PlaceSingleBet(req);
    balance := ledger.balances[2];
  }

  /** With a single ticket, open on bet b, settlement is one step of the loop on that ticket. */
  lemma SingleTicketSettles(s: Store, b: BetId, finalValue: Num)
    requires b in s.lines && |s.tickets| == 1 && Selected(s.tickets[0], b)
    ensures AfterSettlement(s, b, finalValue) == SettleStep(s, 0, finalValue, s.lines[b])
  {
    assert s.tickets[..0] == [];
    assert PlacedOf(s.tickets, b) == [0];
    assert [0][..0] == [];
  }

  /**
   * A stake of 200 on `over` from a balance of 1000, settled at 15 above a line of 10.5,
   * wins and leaves 1000 - 200 + 400.
   */
  method WinScenario() returns (created: PlaceOutcome, settled: SettleOutcome, balance: int, status: Status)
    ensures created == TicketCreated(1)
    ensures settled == SettleOk
    ensures balance == 1200
    ensures status == Won
  {
    var ledger := new Ledger(map[1 := 1000], map[7 := 10.5]);
    var req := PlaceRequest(Some(7), Some(1), Some(200), Some("over"));
    assert ValidatePlacement(req, ledger.lines.Keys) == Ok(Placement(1, 7, 200, Over));
    created := ledger.PlaceSingleBet(req);
    assert ledger.tickets == [Ticket(1, 7, 200, Over, Placed)] && ledger.balances[1] == 800;
    SingleTicketSettles(ledger.State(), 7, Finite(15.0));
    assert ComputeWin(Over, Finite(15.0), 10.5) && ComputePayout(200, ODDS_MULTIPLIER) == 400;
    settled := ledger.SettleSingleBet(Some(7), Some(Finite(15.0)));
    balance := ledger.balances[1];
    status := ledger.tickets[0].status;
  }
}
