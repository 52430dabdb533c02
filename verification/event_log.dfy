/** The demo's event log: `EventLogEntry` values kept newest-first and cut back
    to a fixed capacity by `addLog`.  The functions here specify the log; the
    view model in chat_demo.dfy changes its log field in place and is proved
    against them. */
module EventLog {

  /** `addLog` keeps only this many entries. */
  const Capacity: nat := 50

  /** The SwiftUI colours the demo gives its entries and its status dot. */
  datatype Tint = Primary | Blue | Green | Orange | Red | Purple

  /** The icon column of an entry; `Bullet` is `addLog`'s default. */
  datatype Icon = Bullet | Inbox | Phone | Lock | Warning | Bell

  /** What an entry reports. The wording and emoji are not modelled, only
      which event it is and the values interpolated into it. */
  datatype Message =
    | StartingInitialization
    | CompanyIdLine(companyId: string)
    | ProfileIdLine(profileId: string)
    | DebugModeLine(debug: bool)
    | InstanceCreated
    | InitializedSuccessfully
    | ReadyToOpen
    | InitializationFailed(description: string)
    | Opening
    | Closing
    | ShowingLauncher
    | HidingLauncher
    | Resetting
    | DelegateLoaded
    | DelegateOpened
    | DelegateClosed
    | DelegateError(description: string)
    | DelegateNotification(notificationId: string)

  /** One `EventLogEntry`; its random `id` is left out. */
  datatype Entry = Entry(message: Message, tint: Tint, icon: Icon, timestamp: string)

  function Min(a: int, b: int): int { if a < b then a else b }

  /** The first `n` elements of `s`, or all of `s` when it is shorter. */
  function Take<T>(s: seq<T>, n: nat): seq<T> { s[..Min(|s|, n)] }

  /** The log after one `addLog(e)`: `e` in front, then the old log without
      whatever falls past the capacity. */
  function Pushed(log: seq<Entry>, e: Entry): (r: seq<Entry>)
    ensures |r| == if |log| < Capacity then |log| + 1 else Capacity
  {
    [e] + Take(log, Capacity - 1)
  }

  /** The log after `addLog` of each entry of `es`, first entry first. */
  function PushedAll(log: seq<Entry>, es: seq<Entry>): (r: seq<Entry>)
    ensures es != [] ==> |r| == Min(|log| + |es|, Capacity)
    ensures |log| <= Capacity ==> |r| == Min(|log| + |es|, Capacity)
  {
    if es == [] then log else Pushed(PushedAll(log, es[..|es| - 1]), es[|es| - 1])
  }

  /** `s` back to front. */
  function Reversed<T>(s: seq<T>): (r: seq<T>)
    ensures |r| == |s|
    ensures forall i :: 0 <= i < |s| ==> r[i] == s[|s| - 1 - i]
  {
    if s == [] then [] else [s[|s| - 1]] + Reversed(s[..|s| - 1])
  }

  /** Adding the first `n + 1` entries of `es` is adding the first `n`, then
      one more `addLog`. */
  lemma PushedAllStep(log: seq<Entry>, es: seq<Entry>, n: nat)
    requires n < |es|
    ensures PushedAll(log, es[..n + 1]) == Pushed(PushedAll(log, es[..n]), es[n])
  {
    assert es[..n + 1][..n] == es[..n];
  }

  /** After one `addLog` the new entry is the first, every surviving old
      entry has moved back one place, and the entries that fall off are the
      oldest ones. */
  lemma PushedShifts(log: seq<Entry>, e: Entry)
    ensures Pushed(log, e)[0] == e
    ensures forall i :: 1 <= i < |Pushed(log, e)| ==> Pushed(log, e)[i] == log[i - 1]
    ensures |log| >= Capacity ==> Pushed(log, e)[1..] == log[..Capacity - 1]
  {
  }

  /** A single `addLog` is "put in front, keep the first `Capacity`". */
  lemma PushedIsTakeOfCons(log: seq<Entry>, e: Entry)
    ensures Pushed(log, e) == Take([e] + log, Capacity)
  {
  }

  /** Whatever was added, the log holds exactly the `Capacity` most recent
      entries, newest first: the added ones in reverse order, then the old log. */
  lemma {:induction false} PushedAllKeepsNewest(log: seq<Entry>, es: seq<Entry>)
    requires |log| <= Capacity
    ensures PushedAll(log, es) == Take(Reversed(es) + log, Capacity)
  {
    if es == [] {
      assert Reversed(es) + log == log;
    } else {
      var front, e := es[..|es| - 1], es[|es| - 1];
      PushedAllKeepsNewest(log, front);
      PushedIsTakeOfCons(PushedAll(log, front), e);
      assert Reversed(es) == [e] + Reversed(front);
      var all := Reversed(front) + log;
      assert Take([e] + Take(all, Capacity), Capacity) == Take([e] + all, Capacity);
      assert [e] + all == Reversed(es) + log;
    }
  }

  /** Position by position: entry `k` of the log is the `k`-th most recent
      addition, and the old entries follow until the capacity cuts them off. */
  lemma NewestFirst(log: seq<Entry>, es: seq<Entry>, k: nat)
    requires |log| <= Capacity
    requires k < |PushedAll(log, es)|
    ensures k < |es| ==> PushedAll(log, es)[k] == es[|es| - 1 - k]
    ensures k >= |es| ==> PushedAll(log, es)[k] == log[k - |es|]
  {
    PushedAllKeepsNewest(log, es);
  }
}
