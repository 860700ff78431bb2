/** Deleting a VM without knowing its zone. */
module Deletion {
  import opened Types
  import opened CreationPlans
  import opened Protocol

  /** What may go wrong in one zone: nothing; the call fails without saying whether the
      VM is there; or the VM is there and waiting for its deletion fails.  Neither
      error says whether the VM goes nevertheless; carried does. */
  datatype Fault = NoFault | Unreachable(carried: bool) | Stuck(carried: bool)

  predicate Deletes(fault: Fault) {
    fault == NoFault || (fault.Unreachable? && fault.carried) || (fault.Stuck? && fault.carried)
  }

  class Compute {
    var vms: set<Instance>

    constructor (vms: set<Instance>)
      ensures this.vms == vms
    {
      this.vms := vms;
    }

    /** realDeleteInZone. */
    method DeleteInZone(name: Id, zone: Id, fault: Fault) returns (found: bool, failed: bool)
      modifies this
      ensures failed <==> fault.Unreachable? || (fault.Stuck? && InZone(old(vms), name, zone))
      ensures found <==> !fault.Unreachable? && InZone(old(vms), name, zone)
      ensures vms == if Deletes(fault) then WithoutIn(old(vms), name, zone) else old(vms)
      ensures found && !failed ==> vms == WithoutIn(old(vms), name, zone)
      ensures !InZone(old(vms), name, zone) ==> vms == old(vms)
    {
      found := !fault.Unreachable? && InZone(vms, name, zone);
      failed := fault.Unreachable? || (found && fault.Stuck?);
      assert !InZone(vms, name, zone) ==> WithoutIn(vms, name, zone) == vms;
      if Deletes(fault) { vms := WithoutIn(vms, name, zone); }
    }
  }

  predicate InZone(vms: set<Instance>, name: Id, zone: Id) {
    exists i :: i in vms && i.name == name && i.zone == zone
  }

  function WithoutIn(vms: set<Instance>, name: Id, zone: Id): set<Instance> {
    set i | i in vms && !(i.name == name && i.zone == zone)
  }

  /** The name lives in at most one zone, and that is a configured one. */
  ghost predicate OneHome(vms: set<Instance>, name: Id, zones: seq<Id>) {
    && (forall i, j :: i in vms && j in vms && i.name == j.name == name ==> i == j)
    && (forall i :: i in vms && i.name == name ==> i.zone in zones)
  }

  /** DeleteInstance: success means that the VM is gone from the whole fleet; an error
      leaves every other VM, and this one exactly if its zone did not carry the deletion
      out; and it succeeds exactly when the zone that holds the VM deletes it, or none
      holds it and every zone says so. */
  method DeleteInstance(compute: Compute, cfg: Config, start: nat, name: Id, faults: Id -> Fault) returns (ok: bool)
    requires OneHome(compute.vms, name, cfg.zones)
    modifies compute
    ensures ok ==> compute.vms == Without(old(compute.vms), name)
    ensures !ok ==> compute.vms == old(compute.vms) || compute.vms == Without(old(compute.vms), name)
    ensures forall i :: i in old(compute.vms) && i.name == name ==> (i !in compute.vms <==> Deletes(faults(i.zone)))
    ensures forall i :: i in old(compute.vms) && i.name == name ==> (ok <==> faults(i.zone) == NoFault)
    ensures (forall i :: i in old(compute.vms) ==> i.name != name) ==>
              (ok <==> forall z :: z in cfg.zones ==> !faults(z).Unreachable?)
  {
    ghost var vms := compute.vms;
    var zones := OrderedZones(cfg.zones, start);
    EveryZoneIsTried(cfg.zones, start);
    var failure := false;
    ghost var gone := false;
    for k := 0 to |zones|
      invariant compute.vms == if gone then Without(vms, name) else vms
      invariant failure <==> exists z :: z in zones[..k] && faults(z).Unreachable?
      invariant forall i :: i in vms && i.name == name && i.zone in zones[..k] ==>
                  faults(i.zone).Unreachable? && (gone <==> faults(i.zone).carried)
      invariant gone ==> exists i :: i in vms && i.name == name && i.zone in zones[..k]
    {
      var found, failed := compute.DeleteInZone(name, zones[k], faults(zones[k]));
      assert zones[..k + 1] == zones[..k] + [zones[k]];
      assert InZone(vms, name, zones[k]) ==> WithoutIn(vms, name, zones[k]) == Without(vms, name);
      if failed {
        if found { return false; }
        failure := true;
        gone := gone || (InZone(vms, name, zones[k]) && faults(zones[k]).carried);
        continue;
      }
      if found {
        return true;
      }
    }
    assert zones[..|zones|] == zones;
    if !failure { assert Without(vms, name) == vms; }
    return !failure;
  }

  lemma EveryZoneIsTried(zones: seq<Id>, start: nat)
    ensures forall z :: z in Rotation(zones, start) <==> z in zones
  {
    if zones != [] {
      RotationShape(zones, start);
      assert zones == zones[..start % |zones|] + zones[start % |zones|..];
    }
  }
}
