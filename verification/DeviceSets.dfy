/** Sizing of the storage device set (controllers/datafoundation.go): the count for a capacity, the
    rule against downscaling, and the write through a pointer into a copy of the template. */
module DeviceSets {
  import opened Float64

  const OSD_SIZE_IN_TIB: int := 4
  const DEFAULT_DEVICE_SET: string := "default"

  /** math.Ceil, as an integer. */
  function Ceil(x: real): int {
    -((-x).Floor)
  }

  /** int(math.Ceil(float64(capacity) / OSDSizeInTiB)) */
  function DesiredCount(capacity: nat): int {
    (RoundNat(capacity) + 3) / OSD_SIZE_IN_TIB
  }

  /** The count written for a capacity, given the current one. Capacities that are not positive
      never get this far. */
  function TargetCount(capacity: int, current: int): int {
    if capacity <= 0 || DesiredCount(capacity) < current then current else DesiredCount(capacity)
  }

  lemma CeilOfQuarter(n: int)
    ensures Ceil(n as real / 4.0) == (n + 3) / 4
  {
    var k, x := (n + 3) / 4, n as real / 4.0;
    assert (-x) >= (-k) as real;
    assert (-x) < (-k + 1) as real;
  }

  /** Main result: DesiredCount is what the float computation yields, rounding after each of its two
      operations, for every capacity. */
  lemma DesiredCountIsTheFloatComputation(capacity: nat, converted: real, quotient: real)
    requires RoundsTo(capacity as real, converted) && RoundsTo(converted / 4.0, quotient)
    ensures Ceil(quotient) == DesiredCount(capacity)
  {
    ConversionIsUnique(capacity, converted);
    QuarterIsExact(capacity, quotient);
    CeilOfQuarter(RoundNat(capacity));
  }

  /** Up to 2^53 the count is the exact ceiling. */
  lemma CountIsExact(capacity: nat, converted: real, quotient: real)
    requires 0 < capacity <= PRECISION_LIMIT
    requires RoundsTo(capacity as real, converted) && RoundsTo(converted / 4.0, quotient)
    ensures Ceil(quotient) == DesiredCount(capacity) == (capacity + 3) / 4
  {
    ConversionIsExact(capacity);
    DesiredCountIsTheFloatComputation(capacity, converted, quotient);
  }

  lemma CountIsPositive(capacity: nat)
    requires capacity > 0
    ensures DesiredCount(capacity) > 0
  {
    ConversionIsPositive(capacity);
  }

  /** The bound is sharp: in the next binade the count is short for every fourth capacity, and does
      not cover it. */
  lemma CountInTheNextBinade(capacity: nat, converted: real, quotient: real)
    requires PRECISION_LIMIT < capacity < 2 * PRECISION_LIMIT
    requires RoundsTo(capacity as real, converted) && RoundsTo(converted / 4.0, quotient)
    ensures Ceil(quotient) == (capacity + 3) / 4 <==> capacity % 4 != 1
    ensures OSD_SIZE_IN_TIB * Ceil(quotient) >= capacity <==> capacity % 4 != 1
  {
    DesiredCountIsTheFloatComputation(capacity, converted, quotient);
    RoundingInTheNextBinade(capacity);
  }

  lemma RoundingInTheNextBinade(capacity: nat)
    requires PRECISION_LIMIT < capacity < 2 * PRECISION_LIMIT
    ensures DesiredCount(capacity) == (capacity + 3) / 4 <==> capacity % 4 != 1
    ensures OSD_SIZE_IN_TIB * DesiredCount(capacity) >= capacity <==> capacity % 4 != 1
  {
    HalvedOnce(capacity);
    assert RoundNat(capacity) ==
      Nearer(capacity - capacity % 2, 2, capacity % 2, capacity / 2 % 2 == 0);
  }

  lemma HalvedOnce(capacity: nat)
    requires PRECISION_LIMIT < capacity < 2 * PRECISION_LIMIT
    ensures Leading(capacity) == capacity / 2 && Spacing(capacity) == 2 && Rest(capacity) == capacity % 2
  {
    var half := capacity / 2;
    assert half < PRECISION_LIMIT;
    assert Leading(half) == half && Spacing(half) == 1 && Rest(half) == 0;
    assert Leading(capacity) == Leading(half) && Spacing(capacity) == 2 * Spacing(half);
    assert Rest(capacity) == capacity % 2 + 2 * Rest(half);
  }

  // ----- no downscaling, over any sequence of requests -----

  /** The count after these requests, with only the agent writing it. */
  function CountAfter(initial: int, capacities: seq<int>): int {
    if capacities == [] then initial
    else TargetCount(capacities[|capacities| - 1], CountAfter(initial, capacities[..|capacities| - 1]))
  }

  /** n is at least the initial count and covers every valid request. */
  ghost predicate Covers(n: int, initial: int, capacities: seq<int>) {
    n >= initial && forall i :: 0 <= i < |capacities| && capacities[i] > 0 ==> n >= DesiredCount(capacities[i])
  }

  /** The count is the least one that covers the initial count and every request so far: it
      never goes down and never grows without need. */
  lemma {:induction false} CountIsLeastCover(initial: int, capacities: seq<int>, n: int)
    ensures Covers(CountAfter(initial, capacities), initial, capacities)
    ensures Covers(n, initial, capacities) ==> CountAfter(initial, capacities) <= n
  {
    if capacities != [] {
      var front := capacities[..|capacities| - 1];
      assert capacities == front + [capacities[|capacities| - 1]];
      CountIsLeastCover(initial, front, n);
      assert Covers(n, initial, capacities) ==> Covers(n, initial, front);
    }
  }

  lemma {:induction false} CountNeverFalls(initial: int, capacities: seq<int>, more: seq<int>)
    ensures CountAfter(initial, capacities) <= CountAfter(initial, capacities + more)
  {
    if more == [] {
      assert capacities + more == capacities;
    } else {
      var all, front := capacities + more, more[..|more| - 1];
      assert all[..|all| - 1] == capacities + front;
      CountNeverFalls(initial, capacities, front);
    }
  }

  /** The devices cover the capacity of every valid request. */
  lemma CapacityIsCovered(initial: int, capacities: seq<int>, i: nat)
    requires i < |capacities| && 0 < capacities[i] <= PRECISION_LIMIT
    ensures OSD_SIZE_IN_TIB * CountAfter(initial, capacities) >= capacities[i]
  {
    CountIsLeastCover(initial, capacities, 0);
    ConversionIsExact(capacities[i]);
  }

  // ----- the write through the pointer -----

  datatype DeviceSet = DeviceSet(name: string, count: int, replica: int, deviceClass: string)

  /** One element of a StorageDeviceSets slice, by address. */
  class DeviceSetCell {
    var name: string
    var count: int
    var replica: int
    var deviceClass: string

    constructor (d: DeviceSet)
      ensures Read() == d
    {
      name, count, replica, deviceClass := d.name, d.count, d.replica, d.deviceClass;
    }

    function Read(): DeviceSet
      reads this
    {
      DeviceSet(name, count, replica, deviceClass)
    }
  }

  function Contents(cells: seq<DeviceSetCell>): (ds: seq<DeviceSet>)
    reads cells
    ensures |ds| == |cells|
    ensures forall i :: 0 <= i < |cells| ==> ds[i] == cells[i].Read()
  {
    seq(|cells|, i requires 0 <= i < |cells| reads cells => cells[i].Read())
  }

  ghost predicate Distinct(cells: seq<DeviceSetCell>) {
    forall i, j :: 0 <= i < j < |cells| ==> cells[i] != cells[j]
  }

  /** The first device set of that name, or the length of the list. */
  function Position(ds: seq<DeviceSet>, name: string): (i: nat)
    ensures i <= |ds|
    ensures forall j :: 0 <= j < i ==> ds[j].name != name
    ensures i < |ds| ==> ds[i].name == name
  {
    if ds == [] || ds[0].name == name then 0 else 1 + Position(ds[1..], name)
  }

  function CurrentCount(ds: seq<DeviceSet>): int {
    var i := Position(ds, DEFAULT_DEVICE_SET);
    if i < |ds| then ds[i].count else 0
  }

  /** Position i holds the first device set named "default". */
  ghost predicate FirstDefault(ds: seq<DeviceSet>, i: nat) {
    i < |ds| && ds[i].name == "default" && forall j :: 0 <= j < i ==> ds[j].name != "default"
  }

  /** The count found in these sets: that of the first one named "default", or 0 without such a set. */
  ghost predicate CountFound(ds: seq<DeviceSet>, count: int) {
    && (forall i: nat :: FirstDefault(ds, i) ==> count == ds[i].count)
    && ((forall j :: 0 <= j < |ds| ==> ds[j].name != "default") ==> count == 0)
  }

  lemma CurrentCountIsFound(ds: seq<DeviceSet>)
    ensures CountFound(ds, CurrentCount(ds))
    ensures forall count :: CountFound(ds, count) ==> count == CurrentCount(ds)
  {
    var i := Position(ds, DEFAULT_DEVICE_SET);
    assert i < |ds| ==> FirstDefault(ds, i);
  }

  /** The template's sets with this count in the first one named "default". */
  ghost predicate Resized(template: seq<DeviceSet>, sets: seq<DeviceSet>, count: int) {
    && |sets| == |template|
    && (forall i: nat :: i < |sets| ==>
          sets[i] == if FirstDefault(template, i) then template[i].(count := count) else template[i])
  }

  /** What an install leaves in the device sets, given those it found: the template, with the larger of the count found
      and the one for the capacity. */
  ghost predicate SizedFor(template: seq<DeviceSet>, stored: seq<DeviceSet>, capacity: nat, sets: seq<DeviceSet>) {
    exists found :: CountFound(stored, found) &&
      Resized(template, sets, if found < DesiredCount(capacity) then DesiredCount(capacity) else found)
  }

  lemma DesiredIs(template: seq<DeviceSet>, stored: seq<DeviceSet>, capacity: nat)
    requires Position(template, DEFAULT_DEVICE_SET) < |template| && capacity > 0
    ensures var i, found, wanted :=
              Position(template, DEFAULT_DEVICE_SET), CurrentCount(stored), DesiredCount(capacity);
            Desired(template, stored, capacity) ==
            template[i := template[i].(count := if found <= wanted then wanted else found)]
  {
  }

  lemma DesiredIsSized(template: seq<DeviceSet>, stored: seq<DeviceSet>, capacity: nat)
    requires Position(template, DEFAULT_DEVICE_SET) < |template| && capacity > 0
    ensures SizedFor(template, stored, capacity, Desired(template, stored, capacity))
  {
    CurrentCountIsFound(stored);
    WriteResizes(template, TargetCount(capacity, CurrentCount(stored)));
  }

  lemma WriteResizes(template: seq<DeviceSet>, count: int)
    requires Position(template, DEFAULT_DEVICE_SET) < |template|
    ensures var i := Position(template, DEFAULT_DEVICE_SET);
            Resized(template, template[i := template[i].(count := count)], count)
  {
    var p := Position(template, DEFAULT_DEVICE_SET);
    var sets := template[p := template[p].(count := count)];
    forall i: nat | i < |sets|
      ensures sets[i] == if FirstDefault(template, i) then template[i].(count := count) else template[i]
    {
      FirstDefaultIsPosition(template, i);
    }
  }

  lemma FirstDefaultIsPosition(ds: seq<DeviceSet>, i: nat)
    requires i < |ds|
    ensures FirstDefault(ds, i) <==> i == Position(ds, DEFAULT_DEVICE_SET)
  {
  }

  /** The device sets a reconcile leaves: the template's, with the target count in the default set. */
  function Desired(template: seq<DeviceSet>, stored: seq<DeviceSet>, capacity: int): seq<DeviceSet>
    requires Position(template, DEFAULT_DEVICE_SET) < |template|
  {
    var i := Position(template, DEFAULT_DEVICE_SET);
    template[i := template[i].(count := TargetCount(capacity, CurrentCount(stored)))]
  }

  /** What is read back next time is the target count. */
  lemma DesiredIsReadBack(template: seq<DeviceSet>, stored: seq<DeviceSet>, capacity: int)
    requires Position(template, DEFAULT_DEVICE_SET) < |template|
    ensures CurrentCount(Desired(template, stored, capacity)) == TargetCount(capacity, CurrentCount(stored))
  {
    var d := Desired(template, stored, capacity);
    var i, j := Position(template, DEFAULT_DEVICE_SET), Position(d, DEFAULT_DEVICE_SET);
    assert d[i].name == DEFAULT_DEVICE_SET;
    assert i == j;
  }

  method DeepCopy(cells: seq<DeviceSetCell>) returns (copy: seq<DeviceSetCell>)
    ensures fresh(copy) && Distinct(copy) && Contents(copy) == Contents(cells)
  {
    copy := [];
    for i := 0 to |cells|
      invariant |copy| == i && fresh(copy) && Distinct(copy)
      invariant forall j :: 0 <= j < i ==> copy[j].Read() == cells[j].Read()
    {
      var cell := new DeviceSetCell(cells[i].Read());
      copy := copy + [cell];
    }
  }

  method FindStorageDeviceSet(cells: seq<DeviceSetCell>, name: string) returns (found: DeviceSetCell?)
    ensures var i := Position(Contents(cells), name);
            if i < |cells| then found == cells[i] else found == null
  {
    for index := 0 to |cells|
      invariant forall j :: 0 <= j < index ==> cells[j].name != name
    {
      var item := cells[index];
      if item.name == name {
        assert Contents(cells)[index].name == name;
        return item;
      }
    }
    return null;
  }

  method SetDeviceSetCount(cell: DeviceSetCell, desired: int, current: int)
    modifies cell`count
    ensures cell.count >= desired && cell.count >= current && (cell.count == desired || cell.count == current)
  {
    if current <= desired {
      cell.count := desired;
    } else {
      cell.count := current;
    }
  }

  /** A copy of the template with the count written through the pointer to its default set. */
  method CopyWithCount(template: seq<DeviceSetCell>, desired: int, current: int) returns (sets: seq<DeviceSetCell>)
    requires Position(Contents(template), DEFAULT_DEVICE_SET) < |template|
    ensures fresh(sets) && |sets| == |template|
    ensures var t := Contents(template);
            var i := Position(t, DEFAULT_DEVICE_SET);
            Contents(sets) == t[i := t[i].(count := if current <= desired then desired else current)]
  {
    ghost var t := Contents(template);
    sets := DeepCopy(template);
    var ds := FindStorageDeviceSet(sets, DEFAULT_DEVICE_SET);
    ghost var i := Position(t, DEFAULT_DEVICE_SET);
    SetDeviceSetCount(ds, desired, current);
    ghost var d := t[i := t[i].(count := if current <= desired then desired else current)];
    assert forall j :: 0 <= j < |sets| ==> sets[j].Read() == d[j];
  }

  class StorageClusterObject {
    var deviceSets: seq<DeviceSetCell>

    constructor (stored: seq<DeviceSet>)
      ensures fresh(deviceSets) && Contents(deviceSets) == stored
    {
      deviceSets := [];
      new;
      for i := 0 to |stored|
        modifies this
        invariant fresh(deviceSets) && |deviceSets| == i
        invariant forall j :: 0 <= j < i ==> deviceSets[j].Read() == stored[j]
      {
        var cell := new DeviceSetCell(stored[i]);
        deviceSets := deviceSets + [cell];
      }
    }

    method GetCurrentCount() returns (count: int)
      ensures count == CurrentCount(Contents(deviceSets)) && CountFound(Contents(deviceSets), count)
    {
      CurrentCountIsFound(Contents(deviceSets));
      count := 0;
      var current := FindStorageDeviceSet(deviceSets, DEFAULT_DEVICE_SET);
      if current != null {
        count := current.count;
      }
    }

    /** The mutate function of reconcileStorageCluster. The shared template is only read. */
    method Reconcile(template: seq<DeviceSetCell>, capacity: int) returns (ok: bool)
      requires Position(Contents(template), DEFAULT_DEVICE_SET) < |template|
      modifies this
      ensures ok <==> capacity > 0
      ensures !ok ==> deviceSets == old(deviceSets)
      ensures ok ==> fresh(deviceSets)
      ensures ok ==> Contents(deviceSets) == Desired(Contents(template), old(Contents(deviceSets)), capacity)
      ensures Contents(template) == old(Contents(template))
    {
      if capacity <= 0 {
        return false;
      }
      var desiredCount := DesiredCount(capacity);
      var currentCount := GetCurrentCount();
      DesiredIs(Contents(template), Contents(deviceSets), capacity);
      deviceSets := CopyWithCount(template, desiredCount, currentCount);
      return true;
    }
  }
}
