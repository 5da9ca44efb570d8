/**
 * Pre-alerts: the customer announces a package that is on its way to their locker. Newest
 * alerts come first.
 */
module PreAlerts {
  import opened Wrappers
  import opened Seqs
  import opened Strings
  import OrderSimulator

  datatype PreAlertStatus = Pending | Received | Forwarded

  datatype PreAlert = PreAlert(
    id: string,
    lockerId: string,
    lockerCode: string,
    customerEmail: string,
    trackingNumber: string,
    carrier: string,
    productDescription: string,
    estimatedArrival: int,
    status: PreAlertStatus,
    createdAt: int,
    receivedAt: Option<string>)

  /** Days until the expected arrival: 5 plus a random whole number below 10. */
  function ArrivalDays(rand: real): (days: int)
    requires 0.0 <= rand < 1.0
    ensures 5 <= days <= 14
  {
    (rand * 10.0).Floor + 5
  }

  /** The alert `createPreAlert` builds, with both clock readings equal to `now`. */
  function NewPreAlert(lockerId: string, lockerCode: string, customerEmail: string, trackingNumber: string,
                       carrier: string, productDescription: string, now: nat, rand: real): (a: PreAlert)
    requires 0.0 <= rand < 1.0
    ensures a.id == "prealert_" + NatToString(now)
    ensures a.lockerId == lockerId && a.lockerCode == lockerCode && a.customerEmail == customerEmail
    ensures a.trackingNumber == trackingNumber && a.carrier == carrier
    ensures a.productDescription == productDescription
    ensures a.status == Pending && a.createdAt == now && a.receivedAt.None?
    ensures now + 5 * OrderSimulator.DayMs <= a.estimatedArrival <= now + 14 * OrderSimulator.DayMs
  {
    assert OrderSimulator.DayMs == 86400000;
    PreAlert("prealert_" + NatToString(now), lockerId, lockerCode, customerEmail, trackingNumber, carrier,
             productDescription, now + ArrivalDays(rand) * OrderSimulator.DayMs, Pending, now, None)
  }

  /**
   * `receivedAt || alert.receivedAt`: a supplied, non-empty date wins; a missing or empty
   * one keeps the old value.
   */
  function ReceivedFallback(given: Option<string>, current: Option<string>): (r: Option<string>)
    ensures given.Some? && given.value != "" ==> r == given
    ensures given.None? || given.value == "" ==> r == current
  {
    if given.Some? && given.value != "" then given else current
  }

  /** A recorded receipt is never lost through the fallback. */
  lemma ReceiptNeverLost(given: Option<string>, current: Option<string>)
    requires current.Some? && current.value != ""
    ensures ReceivedFallback(given, current).Some? && ReceivedFallback(given, current).value != ""
  {
  }

  /** `updatePreAlertStatus`: every alert with the id gets the status and the fallback date. */
  function WithStatus(alerts: seq<PreAlert>, preAlertId: string, status: PreAlertStatus,
                      receivedAt: Option<string>): (r: seq<PreAlert>)
    ensures |r| == |alerts|
    ensures forall i :: 0 <= i < |alerts| && alerts[i].id != preAlertId ==> r[i] == alerts[i]
    ensures forall i :: 0 <= i < |alerts| && alerts[i].id == preAlertId ==>
              r[i] == alerts[i].(status := status, receivedAt := ReceivedFallback(receivedAt, alerts[i].receivedAt))
  {
    seq(|alerts|, i requires 0 <= i < |alerts| =>
      if alerts[i].id == preAlertId
      then alerts[i].(status := status, receivedAt := ReceivedFallback(receivedAt, alerts[i].receivedAt))
      else alerts[i])
  }

  /** Updates keep every alert's locker, so each per-locker list keeps its size. */
  lemma {:induction false} WithStatusKeepsLockerLists(alerts: seq<PreAlert>, preAlertId: string, status: PreAlertStatus,
                                                     receivedAt: Option<string>, lockerId: string)
    ensures |ByLocker(WithStatus(alerts, preAlertId, status, receivedAt), lockerId)| == |ByLocker(alerts, lockerId)|
  {
    if alerts != [] {
      var r := WithStatus(alerts, preAlertId, status, receivedAt);
      var rest := WithStatus(alerts[1..], preAlertId, status, receivedAt);
      assert r[1..] == rest by {
        forall i | 0 <= i < |rest| ensures r[1..][i] == rest[i] {
          assert alerts[1..][i] == alerts[i + 1];
        }
      }
      assert r[0].lockerId == alerts[0].lockerId;
      WithStatusKeepsLockerLists(alerts[1..], preAlertId, status, receivedAt, lockerId);
    }
  }

  /** Updates keep every alert's customer, so each per-customer list keeps its size. */
  lemma {:induction false} WithStatusKeepsEmailLists(alerts: seq<PreAlert>, preAlertId: string, status: PreAlertStatus,
                                                    receivedAt: Option<string>, email: string)
    ensures |ByEmail(WithStatus(alerts, preAlertId, status, receivedAt), email)| == |ByEmail(alerts, email)|
  {
    if alerts != [] {
      var r := WithStatus(alerts, preAlertId, status, receivedAt);
      var rest := WithStatus(alerts[1..], preAlertId, status, receivedAt);
      assert r[1..] == rest by {
        forall i | 0 <= i < |rest| ensures r[1..][i] == rest[i] {
          assert alerts[1..][i] == alerts[i + 1];
        }
      }
      assert r[0].customerEmail == alerts[0].customerEmail;
      WithStatusKeepsEmailLists(alerts[1..], preAlertId, status, receivedAt, email);
    }
  }

  /** `getPreAlertsByLocker`: exactly the alerts for the locker, in stored order. */
  function ByLocker(alerts: seq<PreAlert>, lockerId: string): (r: seq<PreAlert>)
    ensures forall a :: a in r <==> a in alerts && a.lockerId == lockerId
    ensures forall a :: multiset(r)[a] == if a.lockerId == lockerId then multiset(alerts)[a] else 0
    ensures IsSubsequence(r, alerts)
  {
    Filter(alerts, (a: PreAlert) => a.lockerId == lockerId)
  }

  /** `getPreAlertsByEmail`: exactly the alerts of the customer, in stored order. */
  function ByEmail(alerts: seq<PreAlert>, email: string): (r: seq<PreAlert>)
    ensures forall a :: a in r <==> a in alerts && a.customerEmail == email
    ensures forall a :: multiset(r)[a] == if a.customerEmail == email then multiset(alerts)[a] else 0
    ensures IsSubsequence(r, alerts)
  {
    Filter(alerts, (a: PreAlert) => a.customerEmail == email)
  }

  /** `deletePreAlert`: the alerts without the id, in stored order. */
  function WithoutAlert(alerts: seq<PreAlert>, preAlertId: string): (r: seq<PreAlert>)
    ensures forall a :: a in r <==> a in alerts && a.id != preAlertId
    ensures forall a :: multiset(r)[a] == if a.id != preAlertId then multiset(alerts)[a] else 0
    ensures IsSubsequence(r, alerts)
  {
    Filter(alerts, (a: PreAlert) => a.id != preAlertId)
  }

  /** A newly created alert heads both lists it belongs to. */
  lemma NewAlertListedFirst(alerts: seq<PreAlert>, a: PreAlert)
    ensures ByLocker([a] + alerts, a.lockerId) == [a] + ByLocker(alerts, a.lockerId)
    ensures ByEmail([a] + alerts, a.customerEmail) == [a] + ByEmail(alerts, a.customerEmail)
  {
    assert ([a] + alerts)[1..] == alerts;
  }

  class PreAlertBook {
    var preAlerts: seq<PreAlert>

    constructor(stored: seq<PreAlert>)
      ensures preAlerts == stored
    {
      preAlerts := stored;
    }

    method CreatePreAlert(lockerId: string, lockerCode: string, customerEmail: string, trackingNumber: string,
                          carrier: string, productDescription: string, now: nat, rand: real)
      returns (preAlert: PreAlert)
      requires 0.0 <= rand < 1.0
      modifies this
      ensures preAlert == NewPreAlert(lockerId, lockerCode, customerEmail, trackingNumber, carrier,
                                      productDescription, now, rand)
      ensures preAlerts == [preAlert] + old(preAlerts)
    {
      preAlert := NewPreAlert(lockerId, lockerCode, customerEmail, trackingNumber, carrier,
                              productDescription, now, rand);
      preAlerts := [preAlert] + preAlerts;
    }

    method UpdatePreAlertStatus(preAlertId: string, status: PreAlertStatus, receivedAt: Option<string>)
      modifies this
      ensures preAlerts == WithStatus(old(preAlerts), preAlertId, status, receivedAt)
    {
      preAlerts := WithStatus(preAlerts, preAlertId, status, receivedAt);
    }

    function GetPreAlertsByLocker(lockerId: string): (r: seq<PreAlert>)
      reads this
      ensures r == ByLocker(preAlerts, lockerId)
      ensures forall a :: a in r <==> a in preAlerts && a.lockerId == lockerId
    {
      ByLocker(preAlerts, lockerId)
    }

    function GetPreAlertsByEmail(email: string): (r: seq<PreAlert>)
      reads this
      ensures r == ByEmail(preAlerts, email)
      ensures forall a :: a in r <==> a in preAlerts && a.customerEmail == email
    {
      ByEmail(preAlerts, email)
    }

    method DeletePreAlert(preAlertId: string)
      modifies this
      ensures preAlerts == WithoutAlert(old(preAlerts), preAlertId)
    {
      preAlerts := WithoutAlert(preAlerts, preAlertId);
    }

    method ClearAllPreAlerts()
      modifies this
      ensures preAlerts == []
    {
      preAlerts := [];
    }
  }
}
