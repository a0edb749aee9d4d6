/**
  The in-app notification counter. Each notification, whatever its kind,
  adds one to the session's tally; the toast itself is presentation only.
 */
module Notifications {

  /** The kinds the callers pass; any kind other than the first three shows as an info toast. */
  datatype Kind = Success | Warning | Error | Info

  /** `show_notification`: the counter after one notification of kind `kind`. */
  function Notify(counter: nat, kind: Kind): (next: nat)
    ensures next == counter + 1
  {
    counter + 1
  }

  /** The counter after showing the notifications `kinds`, in order. */
  function NotifyAll(counter: nat, kinds: seq<Kind>): (next: nat)
    decreases |kinds|
  {
    if kinds == [] then counter else NotifyAll(Notify(counter, kinds[0]), kinds[1..])
  }

  /** Every notification counts exactly once, independent of its kind. */
  lemma {:induction false} NotifyAllCounts(counter: nat, kinds: seq<Kind>)
    ensures NotifyAll(counter, kinds) == counter + |kinds|
    decreases |kinds|
  {
    if kinds != [] {
      NotifyAllCounts(Notify(counter, kinds[0]), kinds[1..]);
    }
  }

  /** The kind never matters: two runs of the same length leave the same count. */
  lemma KindIrrelevant(counter: nat, a: seq<Kind>, b: seq<Kind>)
    requires |a| == |b|
    ensures NotifyAll(counter, a) == NotifyAll(counter, b)
  {
    NotifyAllCounts(counter, a);
    NotifyAllCounts(counter, b);
  }

  /** The counter never decreases, and grows strictly with each notification. */
  lemma NotifyMonotone(counter: nat, kinds: seq<Kind>, more: seq<Kind>)
    ensures counter <= NotifyAll(counter, kinds) <= NotifyAll(counter, kinds + more)
    ensures more != [] ==> NotifyAll(counter, kinds) < NotifyAll(counter, kinds + more)
  {
    NotifyAllCounts(counter, kinds);
    NotifyAllCounts(counter, kinds + more);
  }
}
