/**
 * Customer lockers in Brazil: one locker per assignment, a package counter, deactivation,
 * and look-up of a customer's active locker. Newest lockers come first.
 */
module Lockers {
  import opened Wrappers
  import opened Seqs
  import opened Strings

  datatype LockerStatus = Active | Inactive

  datatype BrazilianAddress = BrazilianAddress(
    street: string,
    number: string,
    complement: string,
    city: string,
    state: string,
    postalCode: string,
    country: string)

  datatype Locker = Locker(
    id: string,
    lockerCode: string,
    brazilianAddress: BrazilianAddress,
    customerEmail: string,
    status: LockerStatus,
    packagesReceived: int,
    createdAt: int)

  const Streets: seq<string> :=
    ["Av. Paulista", "Rua Augusta", "Av. Rebouças", "Rua Oscar Freire", "Av. Brigadeiro Faria Lima"]

  /**
   * `generateBrazilianAddress`: the street and house number come from two random draws in
   * [0, 1); everything else is fixed or derived from the locker code.
   */
  function GenerateBrazilianAddress(lockerCode: string, streetDraw: real, numberDraw: real): (a: BrazilianAddress)
    requires 0.0 <= streetDraw < 1.0 && 0.0 <= numberDraw < 1.0
    ensures a.street in Streets
    ensures exists n: nat :: 100 <= n < 2100 && a.number == NatToString(n)
    ensures a.complement == "Casillero " + lockerCode
    ensures a.city == "São Paulo" && a.state == "SP" && a.postalCode == "01310-100" && a.country == "Brasil"
  {
    var randomStreet := Streets[(streetDraw * |Streets| as real).Floor];
    var randomNumber: nat := (numberDraw * 2000.0).Floor + 100;
    BrazilianAddress(randomStreet, NatToString(randomNumber), "Casillero " + lockerCode,
                     "São Paulo", "SP", "01310-100", "Brasil")
  }

  /** The locker code `VE` followed by the last six characters of the clock. */
  function LockerCode(now: nat): (code: string)
    ensures |code| >= 2 && code[..2] == "VE"
    ensures code[2..] == SliceLast(NatToString(now), 6)
  {
    "VE" + SliceLast(NatToString(now), 6)
  }

  /** Once the clock has six digits the code is always eight characters long. */
  lemma LockerCodeLength(now: nat)
    requires now >= 100000
    ensures |LockerCode(now)| == 8
  {
    LongClockHasSixDigits(now);
  }

  lemma LongClockHasSixDigits(n: nat)
    requires n >= 100000
    ensures |NatToString(n)| >= 6
  {
    var k := 6;
    assert Pow10(5) == 100000;
    while Pow10(k) <= n
      invariant 6 <= k && Pow10(k - 1) <= n
      decreases n - Pow10(k - 1)
    {
      PowGrows(k);
      k := k + 1;
    }
    NatToStringLength(n, k);
  }

  lemma PowGrows(k: nat)
    ensures Pow10(k) < Pow10(k + 1)
  {
    PowPositive(k);
  }

  lemma {:induction false} PowPositive(k: nat)
    ensures Pow10(k) >= 1
  {
    if k > 0 { PowPositive(k - 1); }
  }

  /**
   * The locker `assignLocker` creates, with all clock readings equal to `now`: active,
   * empty, with id `lock_<now>` and the generated address.
   */
  function NewLocker(customerEmail: string, now: nat, streetDraw: real, numberDraw: real): (l: Locker)
    requires 0.0 <= streetDraw < 1.0 && 0.0 <= numberDraw < 1.0
    ensures l.id == "lock_" + NatToString(now)
    ensures l.lockerCode == LockerCode(now)
    ensures l.brazilianAddress.complement == "Casillero " + l.lockerCode
    ensures l.customerEmail == customerEmail
    ensures l.status == Active && l.packagesReceived == 0 && l.createdAt == now
  {
    var lockerCode := LockerCode(now);
    Locker("lock_" + NatToString(now), lockerCode, GenerateBrazilianAddress(lockerCode, streetDraw, numberDraw),
           customerEmail, Active, 0, now)
  }

  /** `getLockerByEmail`: the first locker of that customer that is still active. */
  function LockerByEmail(lockers: seq<Locker>, email: string): (r: Option<Locker>)
    ensures r.Some? ==> r.value in lockers && r.value.customerEmail == email && r.value.status == Active
    ensures r.None? <==> forall i :: 0 <= i < |lockers| ==>
                           !(lockers[i].customerEmail == email && lockers[i].status == Active)
    ensures r.Some? ==> exists i :: 0 <= i < |lockers| && lockers[i] == r.value &&
                                 forall j :: 0 <= j < i ==>
                                   !(lockers[j].customerEmail == email && lockers[j].status == Active)
  {
    Find(lockers, (l: Locker) => l.customerEmail == email && l.status == Active)
  }

  /** `registerPackage`: every locker with the id counts one more package. */
  function WithPackage(lockers: seq<Locker>, lockerId: string): (r: seq<Locker>)
    ensures |r| == |lockers|
    ensures forall i :: 0 <= i < |lockers| && lockers[i].id != lockerId ==> r[i] == lockers[i]
    ensures forall i :: 0 <= i < |lockers| && lockers[i].id == lockerId ==>
              r[i] == lockers[i].(packagesReceived := lockers[i].packagesReceived + 1)
  {
    seq(|lockers|, i requires 0 <= i < |lockers| =>
      if lockers[i].id == lockerId then lockers[i].(packagesReceived := lockers[i].packagesReceived + 1)
      else lockers[i])
  }

  /** `deactivateLocker`: every locker with the id becomes inactive. */
  function Deactivated(lockers: seq<Locker>, lockerId: string): (r: seq<Locker>)
    ensures |r| == |lockers|
    ensures forall i :: 0 <= i < |lockers| && lockers[i].id != lockerId ==> r[i] == lockers[i]
    ensures forall i :: 0 <= i < |lockers| && lockers[i].id == lockerId ==> r[i] == lockers[i].(status := Inactive)
  {
    seq(|lockers|, i requires 0 <= i < |lockers| =>
      if lockers[i].id == lockerId then lockers[i].(status := Inactive) else lockers[i])
  }

  lemma DeactivateIdempotent(lockers: seq<Locker>, lockerId: string)
    ensures Deactivated(Deactivated(lockers, lockerId), lockerId) == Deactivated(lockers, lockerId)
  {
  }

  /** Once a locker is deactivated, looking its customer up never yields it again. */
  lemma DeactivatedNotFound(lockers: seq<Locker>, lockerId: string, email: string)
    ensures var r := LockerByEmail(Deactivated(lockers, lockerId), email);
            r.Some? ==> r.value.id != lockerId
  {
  }

  function Packages(l: Locker): int { l.packagesReceived }

  /** All packages received over the lockers. */
  function TotalPackages(lockers: seq<Locker>): int
  {
    SumInt(lockers, Packages)
  }

  /** With distinct ids, registering a package at a stored locker raises the total by exactly 1. */
  lemma RegisterPackageTotal(lockers: seq<Locker>, j: nat)
    requires j < |lockers|
    requires forall a, b :: 0 <= a < b < |lockers| ==> lockers[a].id != lockers[b].id
    ensures TotalPackages(WithPackage(lockers, lockers[j].id)) == TotalPackages(lockers) + 1
  {
    var r := WithPackage(lockers, lockers[j].id);
    forall k | 0 <= k < |lockers| && k != j
      ensures Packages(lockers[k]) == Packages(r[k])
    {
      if k < j { assert lockers[k].id != lockers[j].id; } else { assert lockers[j].id != lockers[k].id; }
    }
    SumIntChangeAt(lockers, r, j, Packages);
  }

  /** Counting a package changes no locker's activity, so which customers have a locker stays the same. */
  lemma RegisterPackageKeepsLookup(lockers: seq<Locker>, lockerId: string, email: string)
    ensures LockerByEmail(WithPackage(lockers, lockerId), email).None? == LockerByEmail(lockers, email).None?
  {
  }

  class LockerRegistry {
    var lockers: seq<Locker>

    constructor(stored: seq<Locker>)
      ensures lockers == stored
    {
      lockers := stored;
    }

    method AssignLocker(customerEmail: string, now: nat, streetDraw: real, numberDraw: real) returns (locker: Locker)
      requires 0.0 <= streetDraw < 1.0 && 0.0 <= numberDraw < 1.0
      modifies this
      ensures locker == NewLocker(customerEmail, now, streetDraw, numberDraw)
      ensures lockers == [locker] + old(lockers)
    {
      locker := NewLocker(customerEmail, now, streetDraw, numberDraw);
      lockers := [locker] + lockers;
    }

    function GetLockerByEmail(email: string): (r: Option<Locker>)
      reads this
      ensures r == LockerByEmail(lockers, email)
      ensures r.Some? ==> r.value in lockers && r.value.customerEmail == email && r.value.status == Active
    {
      LockerByEmail(lockers, email)
    }

    method RegisterPackage(lockerId: string)
      modifies this
      ensures lockers == WithPackage(old(lockers), lockerId)
    {
      lockers := WithPackage(lockers, lockerId);
    }

    method DeactivateLocker(lockerId: string)
      modifies this
      ensures lockers == Deactivated(old(lockers), lockerId)
    {
      lockers := Deactivated(lockers, lockerId);
    }

    method ClearAllLockers()
      modifies this
      ensures lockers == []
    {
      lockers := [];
    }
  }
}
