/** What several modules share. */
module Wrappers {
  /** The optional value used where the source returns nil or ErrNotFound. */
  datatype Option<+T> = None | Some(value: T)

  function Min(x: nat, y: nat): nat {
    if x < y then x else y
  }

  /** At most the first m elements. */
  function Cut<T>(s: seq<T>, m: nat): seq<T> {
    if |s| <= m then s else s[..m]
  }

  lemma {:induction false} SetSize<T>(a: set<T>, b: set<T>)
    requires a <= b
    ensures |a| <= |b| && (|a| == |b| ==> a == b)
  {
    if x :| x in a {
      SetSize(a - {x}, b - {x});
    }
  }
}

module Deliveries {
  datatype DeliveryStatus =
    | Pending | Queued | Leased | Deferred | Sent | Failed | Bounced | Complained | Suppressed | Cancelled
}
