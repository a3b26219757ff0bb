/** The receipt-based outbox as an object over the host's table. */
module DeliveryStore {
  import opened Delivery

  class Outbox {
    var rows: Table

    constructor ()
      ensures rows == map[]
    {
      rows := map[];
    }

    method Locked(id: Identity, hash: string) returns (found: bool, requiresReceipt: bool, stage: Stage)
      ensures found == Matches(rows, id, hash)
      ensures found ==> requiresReceipt == rows[id].requiresReceipt && stage == rows[id].stage
    {
      if id.producer == "" || id.destination == "" || id.messageId == "" || id !in rows || rows[id].bodyHash != hash {
        return false, false, Staged;
      }
      return true, rows[id].requiresReceipt, rows[id].stage;
    }

    method Published(id: Identity, hash: string, wait: int, now: int) returns (status: Status)
      modifies this
      ensures (rows, status) == Delivery.Published(old(rows), id, hash, wait, now)
    {
      if wait < 1 || wait > 60 {
        return ErrArgument;
      }
      var found, receipt, stage := Locked(id, hash);
      if !found {
        return ErrConflict;
      }
      if stage == Stage.Confirmed || stage == Held {
        return Done;
      }
      stage := AwaitingReceipt;
      if !receipt {
        stage := Stage.Confirmed;
      }
      rows := rows[id := rows[id].(stage := stage, attempts := if receipt then rows[id].attempts + 1 else rows[id].attempts,
                                   publishedAt := true, confirmedAt := !receipt, availableAt := now + wait * SECOND, errorCode := "")];
      return Done;
    }

    method Confirm(id: Identity, hash: string) returns (status: Status)
      modifies this
      ensures (rows, status) == Delivery.Confirm(old(rows), id, hash)
    {
      var found, receipt, stage := Locked(id, hash);
      if !found || !receipt {
        return ErrConflict;
      }
      rows := rows[id := rows[id].(stage := Stage.Confirmed, confirmedAt := true, errorCode := "")];
      return Done;
    }

    method Retry(id: Identity, hash: string, delay: int, code: string, now: int) returns (status: Status)
      modifies this
      ensures (rows, status) == Delivery.Retry(old(rows), id, hash, delay, code, now)
    {
      if delay < 1 || delay > 60 {
        return ErrArgument;
      }
      var found, receipt, stage := Locked(id, hash);
      if !found {
        return ErrConflict;
      }
      if stage == Stage.Confirmed || stage == Held {
        return Done;
      }
      rows := rows[id := rows[id].(attempts := rows[id].attempts + 1, availableAt := now + delay * SECOND, errorCode := code)];
      return Done;
    }

    method Hold(id: Identity, hash: string, code: string) returns (status: Status)
      modifies this
      ensures (rows, status) == Delivery.Hold(old(rows), id, hash, code)
    {
      var found, receipt, stage := Locked(id, hash);
      if !found {
        return ErrConflict;
      }
      if stage == Stage.Confirmed {
        return Done;
      }
      rows := rows[id := rows[id].(stage := Held, errorCode := code)];
      return Done;
    }

    method RearmAck(id: Identity, hash: string, now: int) returns (status: Status)
      modifies this
      ensures (rows, status) == Delivery.RearmAck(old(rows), id, hash, now)
    {
      var found, receipt, stage := Locked(id, hash);
      if !found || receipt {
        return ErrConflict;
      }
      if stage == Held {
        return Done;
      }
      rows := rows[id := rows[id].(stage := Staged, availableAt := now, confirmedAt := false, errorCode := "")];
      return Done;
    }
  }
}
