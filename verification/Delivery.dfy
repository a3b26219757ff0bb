/** The receipt-based outbox with per-aggregate order. Broker publication and
    business confirmation are distinct; a record that requires a receipt is
    confirmed only by the receiver's receipt. */
module Delivery {

  datatype Identity = Identity(producer: string, destination: string, messageId: string)
  datatype Stage = Staged | AwaitingReceipt | Confirmed | Held

  datatype Record = Record(
    bodyHash: string, aggregate: string, sequence: nat, ordered: bool, requiresReceipt: bool,
    stage: Stage, attempts: nat, availableAt: int, publishedAt: bool, confirmedAt: bool, errorCode: string)

  type Table = map<Identity, Record>

  datatype Status = Done | ErrConflict | ErrArgument

  const SECOND := 1_000_000

  // ---- The pending query ---------------------------------------------------------------

  /** Ordered records of one aggregate, the first before the second. */
  predicate Precedes(t: Table, a: Identity, b: Identity) {
    && a in t && b in t && t[a].ordered && t[b].ordered
    && a.producer == b.producer && a.destination == b.destination && t[a].aggregate == t[b].aggregate
    && t[a].sequence < t[b].sequence
  }

  ghost predicate IsPending(t: Table, id: Identity, now: int) {
    && id in t && (t[id].stage == Staged || t[id].stage == AwaitingReceipt) && t[id].availableAt <= now
    && (t[id].ordered ==> forall older :: Precedes(t, older, id) ==> t[older].stage == Confirmed)
  }

  // ---- Transitions -----------------------------------------------------------------------

  /** locked: the exact record with the exact body. */
  predicate Matches(t: Table, id: Identity, hash: string) {
    id.producer != "" && id.destination != "" && id.messageId != "" && id in t && t[id].bodyHash == hash
  }

  function Published(t: Table, id: Identity, hash: string, wait: int, now: int): (Table, Status) {
    if wait < 1 || wait > 60 then (t, ErrArgument)
    else if !Matches(t, id, hash) then (t, ErrConflict)
    else if t[id].stage == Confirmed || t[id].stage == Held then (t, Done)
    else
      var r := t[id];
      (t[id := r.(stage := if r.requiresReceipt then AwaitingReceipt else Confirmed,
                  attempts := if r.requiresReceipt then r.attempts + 1 else r.attempts,
                  publishedAt := true, confirmedAt := !r.requiresReceipt,
                  availableAt := now + wait * SECOND, errorCode := "")], Done)
  }

  function Confirm(t: Table, id: Identity, hash: string): (Table, Status) {
    if !Matches(t, id, hash) || !t[id].requiresReceipt then (t, ErrConflict)
    else (t[id := t[id].(stage := Confirmed, confirmedAt := true, errorCode := "")], Done)
  }

  function Retry(t: Table, id: Identity, hash: string, delay: int, code: string, now: int): (Table, Status) {
    if delay < 1 || delay > 60 then (t, ErrArgument)
    else if !Matches(t, id, hash) then (t, ErrConflict)
    else if t[id].stage == Confirmed || t[id].stage == Held then (t, Done)
    else (t[id := t[id].(attempts := t[id].attempts + 1, availableAt := now + delay * SECOND, errorCode := code)], Done)
  }

  function Hold(t: Table, id: Identity, hash: string, code: string): (Table, Status) {
    if !Matches(t, id, hash) then (t, ErrConflict)
    else if t[id].stage == Confirmed then (t, Done)
    else (t[id := t[id].(stage := Held, errorCode := code)], Done)
  }

  function RearmAck(t: Table, id: Identity, hash: string, now: int): (Table, Status) {
    if !Matches(t, id, hash) || t[id].requiresReceipt then (t, ErrConflict)
    else if t[id].stage == Held then (t, Done)
    else (t[id := t[id].(stage := Staged, availableAt := now, confirmedAt := false, errorCode := "")], Done)
  }
}
