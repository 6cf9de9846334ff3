/**
  The durable replay boundary (agent/driver/reservation.go): one booking per plan id, kept for
  ever, and two revision floors that only rise.
*/
module DriverReservation {
  import opened Common
  import opened DriverContract
  import opened DriverJournal

  datatype RevisionFloor = RevisionFloor(policyRevision: nat, planRevision: nat)

  datatype Booking = Booking(token: ReservationToken, released: bool, terminal: Step, result: Digest)

  /** `result` of a booking is NoDigest for Go's nil slice; the lifecycle stores nothing longer than a digest. */
  datatype Ledger = Ledger(floor: RevisionFloor, bookings: map<string, Booking>)

  datatype Reservation = Fresh(token: ReservationToken)
      | Replayed(token: ReservationToken, terminal: Step, result: Digest)

  datatype ReservationError =
    | ReservationInvalid | AlreadyReserved | StaleRevision | ClockUnset
    | NotTerminal | ReservationUnknown | ReservationConflict

  function Reserve(ledger: Ledger, key: ReservationKey, now: nat): (Ledger, Result<Reservation, ReservationError>) {
    if !ValidKey(key) then (ledger, Err(ReservationInvalid))
    else if key.planId in ledger.bookings then
      var booking := ledger.bookings[key.planId];
      if booking.token.key != key || !booking.released then (ledger, Err(AlreadyReserved))
      else (ledger, Ok(Replayed(booking.token, booking.terminal, booking.result)))
    else if key.policyRevision < ledger.floor.policyRevision || key.planRevision <= ledger.floor.planRevision then
      (ledger, Err(StaleRevision))
    else if now == 0 then (ledger, Err(ClockUnset))
    else
      var token := ReservationToken(key, ReservationHash(key), now);
      (Ledger(RevisionFloor(key.policyRevision, key.planRevision),
              ledger.bookings[key.planId := Booking(token, false, StepNone, NoDigest)]),
       Ok(Fresh(token)))
  }

  function Release(ledger: Ledger, token: ReservationToken, terminal: Step, result: Digest): Result<Ledger,
  ReservationError> {
    if !ValidReservationToken(token) then Err(ReservationInvalid)
    else if !terminal.Terminal() then Err(NotTerminal)
    else if token.key.planId !in ledger.bookings || ledger.bookings[token.key.planId].token.token != token.token then
      Err(ReservationUnknown)
    else
      var booking := ledger.bookings[token.key.planId];
      if booking.released then
        if booking.terminal == terminal && booking.result == result then Ok(ledger) else Err(ReservationConflict)
      else
        Ok(ledger.(bookings := ledger.bookings[token.key.planId := Booking(booking.token, true, terminal, result)]))
  }

  /** Every booking sits under its own plan id, carries a derived token and respects the floors. */
  ghost predicate ValidLedger(ledger: Ledger) {
    forall id | id in ledger.bookings ::
      var token := ledger.bookings[id].token;
      && token.key.planId == id && ValidReservationToken(token)
      && token.key.planRevision <= ledger.floor.planRevision
      && token.key.policyRevision <= ledger.floor.policyRevision
  }

  /** What every store call keeps: no booking is forgotten, re-keyed, un-released or re-released; floors never fall. */
  ghost predicate Extends(before: Ledger, after: Ledger) {
    && before.floor.planRevision <= after.floor.planRevision
    && before.floor.policyRevision <= after.floor.policyRevision
    && forall id | id in before.bookings ::
         && id in after.bookings
         && after.bookings[id].token == before.bookings[id].token
         && (before.bookings[id].released ==> after.bookings[id] == before.bookings[id])
  }

  /** Reserve books a plan id at most once, and only above both floors. */
  lemma ReserveExtends(ledger: Ledger, key: ReservationKey, now: nat)
    requires ValidLedger(ledger)
    ensures var (after, reply) := Reserve(ledger, key, now);
      && ValidLedger(after) && Extends(ledger, after)
      && (reply.Ok? && reply.value.Fresh? <==> after != ledger)
      && (after != ledger ==>
            && key.planId !in ledger.bookings && after.bookings.Keys == ledger.bookings.Keys + {key.planId}
            && after.bookings[key.planId].token == reply.value.token && !after.bookings[key.planId].released
            && ledger.floor.planRevision < key.planRevision == after.floor.planRevision
            && ledger.floor.policyRevision <= key.policyRevision == after.floor.policyRevision)
  {
    var (after, reply) := Reserve(ledger, key, now);
    if reply.Ok? && reply.value.Fresh? {
      assert key.planId in after.bookings;
    }
  }

  /** Release records one terminal result; a second release succeeds only with the same step and bytes. */
  lemma ReleaseExtends(ledger: Ledger, token: ReservationToken, terminal: Step, result: Digest)
    requires ValidLedger(ledger)
    ensures var reply := Release(ledger, token, terminal, result);
      && (reply.Ok? ==>
            && ValidLedger(reply.value) && Extends(ledger, reply.value) && reply.value.floor == ledger.floor
            && token.key.planId in ledger.bookings && ledger.bookings[token.key.planId].token.key == token.key
            && reply.value.bookings == ledger.bookings[token.key.planId :=
                 Booking(ledger.bookings[token.key.planId].token, true, terminal, result)])
      && (ValidReservationToken(token) && terminal.Terminal() && token.key.planId in ledger.bookings
          && ledger.bookings[token.key.planId].token.key == token.key ==>
            (reply.Ok? <==>
               (ledger.bookings[token.key.planId].released ==>
                  ledger.bookings[token.key.planId].terminal == terminal
                      && ledger.bookings[token.key.planId].result == result)))
  {
    var reply := Release(ledger, token, terminal, result);
    if reply.Ok? {
      var id := token.key.planId;
      assert reply.value.bookings == ledger.bookings[id := Booking(ledger.bookings[id].token, true, terminal, result)];
    }
  }

  /** The in-process store: its two methods update the floor and the booking map in place. */
  class ReservationStore {
    var floor: RevisionFloor
    var bookings: map<string, Booking>

    function Contents(): Ledger
      reads this
    {
      Ledger(floor, bookings)
    }

    constructor (lastPolicyRevision: nat, lastPlanRevision: nat)
      ensures Contents() == Ledger(RevisionFloor(lastPolicyRevision, lastPlanRevision), map[])
      ensures ValidLedger(Contents())
    {
      floor := RevisionFloor(lastPolicyRevision, lastPlanRevision);
      bookings := map[];
    }

    method ReserveKey(key: ReservationKey, now: nat) returns (reply: Result<Reservation, ReservationError>)
      modifies this
      ensures (Contents(), reply) == Reserve(old(Contents()), key, now)
    {
      if !ValidKey(key) {
        return Err(ReservationInvalid);
      }
      if key.planId in bookings {
        var existing := bookings[key.planId];
        if existing.token.key != key {
          return Err(AlreadyReserved);
        }
        if !existing.released {
          return Err(AlreadyReserved);
        }
        return Ok(Replayed(existing.token, existing.terminal, existing.result));
      }
      if key.policyRevision < floor.policyRevision || key.planRevision <= floor.planRevision {
        return Err(StaleRevision);
      }
      var token := ReservationToken(key, ReservationHash(key), now);
      if token.issuedAt == 0 {
        return Err(ClockUnset);
      }
      floor := RevisionFloor(key.policyRevision, key.planRevision);
      bookings := bookings[key.planId := Booking(token, false, StepNone, NoDigest)];
      reply := Ok(Fresh(token));
    }

    method ReleaseToken(token: ReservationToken, terminal: Step,
                        result: Digest) returns (reply: Result<(), ReservationError>)
      modifies this
      ensures reply.Ok? <==> Release(old(Contents()), token, terminal, result).Ok?
      ensures reply.Ok? ==> Contents() == Release(old(Contents()), token, terminal, result).value
      ensures reply.Err? ==>
                Contents() == old(Contents()) && reply.error == Release(old(Contents()), token, terminal, result).error
    {
      if !ValidReservationToken(token) {
        return Err(ReservationInvalid);
      }
      if !terminal.Terminal() {
        return Err(NotTerminal);
      }
      if token.key.planId !in bookings || bookings[token.key.planId].token.token != token.token {
        return Err(ReservationUnknown);
      }
      var booking := bookings[token.key.planId];
      if booking.released {
        if booking.terminal == terminal && booking.result == result {
          return Ok(());
        }
        return Err(ReservationConflict);
      }
      bookings := bookings[token.key.planId := Booking(booking.token, true, terminal, result)];
      reply := Ok(());
    }
  }

  /** The append-only receipt log as the lifecycle uses it. */
  class ReceiptStore {
    var receipts: seq<Receipt>

    constructor ()
      ensures receipts == []
    {
      receipts := [];
    }

    method AppendLine(receipt: Receipt) returns (reply: Result<(), ()>)
      modifies this
      ensures reply.Ok? <==> AppendReceipt(old(receipts), receipt).Ok?
      ensures receipts == if reply.Ok? then AppendReceipt(old(receipts), receipt).value else old(receipts)
    {
      if !ValidReceipt(receipt) {
        return Err(());
      }
      if receipt !in receipts {
        receipts := receipts + [receipt];
      }
      reply := Ok(());
    }
  }
}
