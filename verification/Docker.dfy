/**
  The slot operations on containers (go-service/internal/docker/docker.go): loops over
  what Docker lists, each of whose calls may fail with or without its effect.  Their
  contracts say that every ending is an outcome of the corresponding lifecycle step, and
  that it is success if Docker is `healthy`: if every call is answered.
 */
module Docker {
  import opened Prelude
  import L = Lifecycle

  /** Docker keeps container names unique, and a name is made of a service and a slot. */
  datatype Name = Name(service: string, slot: L.Slot)

  datatype Box = Box(id: nat, version: string, running: bool)

  /** How a single call ends; an error says nothing about the effect. */
  datatype Fate = Fate(answered: bool, applied: bool)

  class Adapter {
    var containers: map<Name, Box>
    var nextId: nat
    ghost var adopted: set<nat> // containers last started for another version

    /** Containers are numbered as they are created. */
    ghost predicate Valid()
      reads this
    {
      && (forall name :: name in containers ==> containers[name].id < nextId)
      && (forall a, b :: a in containers && b in containers && a != b ==> containers[a].id != containers[b].id)
      && (forall id :: id in adopted ==> id < nextId)
    }

    constructor ()
      ensures Valid() && containers == map[]
    {
      containers, nextId, adopted := map[], 0, {};
    }

    /** A slot of a service as the lifecycle sees it. */
    ghost function SlotOf(service: string, slot: L.Slot): L.Container
      reads this
    {
      var name := Name(service, slot);
      if name in containers
      then
        var c := containers[name];
        L.Present(c.version, c.id, c.running, c.id in adopted)
      else L.Absent
    }

    /** Both slots of a service; the rest of the world is none of Docker's business. */
    ghost function View(service: string): L.World
      reads this
    {
      L.World(L.NoRoute, SlotOf(service, L.Blue), SlotOf(service, L.Green), nextId, false, false, false, false)
    }

    /** The names of a service's containers in some order, unless the list cannot be read. */
    method Containers(service: string, healthy: bool) returns (items: Option<seq<Name>>)
      ensures healthy ==> items.Some?
      ensures items.Some? ==>
                && (forall i :: 0 <= i < |items.value| ==>
                      items.value[i] in containers && items.value[i].service == service)
                && (forall i, j :: 0 <= i < j < |items.value| ==> items.value[i] != items.value[j])
                && (forall name :: name in containers && name.service == service ==> name in items.value)
    {
      var readable: bool := *;
      if !readable && !healthy {
        return None;
      }
      var greenFirst: bool := *;
      var first, second := Name(service, L.Blue), Name(service, L.Green);
      if greenFirst {
        first, second := second, first;
      }
      assert forall name: Name :: name.slot == L.Blue || name.slot == L.Green;
      return Some((if first in containers then [first] else []) + (if second in containers then [second] else []));
    }

    /** A call of a healthy Docker is answered. */
    static method AnyFate(healthy: bool) returns (fate: Fate)
      ensures healthy ==> fate.answered
    {
      fate := *;
      if healthy {
        fate := Fate(true, true);
      }
    }

    method Stop(name: Name, healthy: bool) returns (fate: Fate)
      requires name in containers
      modifies `containers
      ensures containers == if fate.answered || fate.applied
                            then old(containers)[name := old(containers)[name].(running := false)] else old(containers)
      ensures healthy ==> fate.answered
    {
      fate := AnyFate(healthy);
      if fate.answered || fate.applied {
        containers := containers[name := containers[name].(running := false)];
      }
    }

    method Remove(name: Name, healthy: bool) returns (fate: Fate)
      modifies `containers
      ensures containers == if fate.answered || fate.applied then old(containers) - {name} else old(containers)
      ensures healthy ==> fate.answered
    {
      fate := AnyFate(healthy);
      if fate.answered || fate.applied {
        containers := containers - {name};
      }
    }

    method Start(name: Name, healthy: bool) returns (fate: Fate)
      requires name in containers
      modifies `containers
      ensures containers == if fate.answered || fate.applied
                            then old(containers)[name := old(containers)[name].(running := true)] else old(containers)
      ensures healthy ==> fate.answered
    {
      fate := AnyFate(healthy);
      if fate.answered || fate.applied {
        containers := containers[name := containers[name].(running := true)];
      }
    }

    /** The loop of StopAll: what was reached before the first error. */
    method StopListed(service: string, healthy: bool) returns (ok: bool, ghost reached: set<Name>)
      modifies `containers
      ensures healthy ==> ok
      ensures containers.Keys == old(containers).Keys
      ensures forall name :: name in reached ==> name.service == service
      ensures ok ==> forall name :: name in containers && name.service == service ==> name in reached
      ensures forall name :: name in containers ==>
                containers[name] ==
                  if name in reached then old(containers)[name].(running := false) else old(containers)[name]
    {
      reached := {};
      var items := Containers(service, healthy);
      if items.None? {
        return false, {};
      }
      for i := 0 to |items.value|
        invariant containers.Keys == old(containers).Keys
        invariant reached == set name | name in items.value[..i]
        invariant forall name :: name in containers ==>
                    containers[name] == if name in reached then old(containers)[name].(running := false)
                                        else old(containers)[name]
      {
        var fate := Stop(items.value[i], healthy);
        TakenOneMore(items.value, i);
        if fate.answered || fate.applied {
          reached := reached + {items.value[i]};
        }
        if !fate.answered {
          return false, reached;
        }
      }
      assert items.value[..|items.value|] == items.value;
      return true, reached;
    }

    /** Stops every container of the service, up to the first error. */
    method StopAll(service: string, healthy: bool) returns (ok: bool, ghost o: L.Outcome)
      requires Valid()
      modifies `containers
      ensures Valid()
      ensures healthy ==> ok
      ensures containers.Keys == old(containers).Keys
      ensures ok ==> forall name :: name in containers ==>
                containers[name] == if name.service == service then old(containers)[name].(running := false)
                                    else old(containers)[name]
      ensures ok <==> o.Success?
      ensures View(service) == L.HaltAll(old(View(service)), false, o)
      ensures forall other, slot :: other != service ==> SlotOf(other, slot) == old(SlotOf(other, slot))
    {
      ghost var reached;
      ok, reached := StopListed(service, healthy);
      o :=
        if ok then L.Success
        else L.Fault(Name(service, L.Blue) in reached, Name(service, L.Green) in reached, false);
    }

    /** Removes every container of the service, up to the first error. */
    method RemoveAll(service: string, healthy: bool) returns (ok: bool, ghost o: L.Outcome)
      requires Valid()
      modifies `containers
      ensures Valid()
      ensures healthy ==> ok
      ensures ok ==> forall name :: name in containers <==> name in old(containers) && name.service != service
      ensures forall name :: name in containers ==> name in old(containers) && containers[name] == old(containers)[name]
      ensures ok <==> o.Success?
      ensures View(service) == L.HaltAll(old(View(service)), true, o)
      ensures forall other, slot :: other != service ==> SlotOf(other, slot) == old(SlotOf(other, slot))
    {
      var items := Containers(service, healthy);
      if items.None? {
        return false, L.Fault(false, false, false);
      }
      ghost var before := containers;
      ghost var blue, green := false, false;
      for i := 0 to |items.value|
        invariant blue <==> Name(service, L.Blue) in items.value[..i]
        invariant green <==> Name(service, L.Green) in items.value[..i]
        invariant forall name :: name in containers <==> name in before && name !in items.value[..i]
        invariant forall name :: name in containers ==> containers[name] == before[name]
      {
        var fate := Remove(items.value[i], healthy);
        TakenOneMore(items.value, i);
        if fate.answered || fate.applied {
          blue := blue || items.value[i] == Name(service, L.Blue);
          green := green || items.value[i] == Name(service, L.Green);
        }
        if !fate.answered {
          return false, L.Fault(blue, green, false);
        }
      }
      assert items.value[..|items.value|] == items.value;
      return true, L.Success;
    }

    /** The loop of RemoveSlot: whether the container of the slot is gone. */
    method RemoveListed(service: string, slot: L.Slot, healthy: bool) returns (ok: bool, ghost gone: bool)
      modifies `containers
      ensures healthy ==> ok
      ensures containers == if gone then old(containers) - {Name(service, slot)} else old(containers)
      ensures ok ==> Name(service, slot) !in containers
    {
      gone := false;
      var items := Containers(service, healthy);
      if items.None? {
        return false, false;
      }
      for i := 0 to |items.value|
        invariant containers == if gone then old(containers) - {Name(service, slot)} else old(containers)
        invariant gone <==> Name(service, slot) in items.value[..i]
      {
        TakenOneMore(items.value, i);
        if items.value[i].slot == slot {
          assert items.value[i] == Name(service, slot);
          var fate := Remove(items.value[i], healthy);
          gone := gone || fate.answered || fate.applied;
          if !fate.answered {
            return false, gone;
          }
        }
      }
      assert items.value[..|items.value|] == items.value;
      return true, gone;
    }

    /** Removes the container in one slot, if there is one. */
    method RemoveSlot(service: string, slot: L.Slot, healthy: bool) returns (ok: bool, ghost o: L.Outcome)
      requires Valid()
      modifies `containers
      ensures Valid()
      ensures healthy ==> ok
      ensures containers == old(containers) || containers == old(containers) - {Name(service, slot)}
      ensures ok ==> Name(service, slot) !in containers
      ensures ok <==> o.Success?
      ensures View(service) == L.RemoveSlot(old(View(service)), slot, o)
      ensures forall other, any :: other != service ==> SlotOf(other, any) == old(SlotOf(other, any))
    {
      ghost var gone;
      ok, gone := RemoveListed(service, slot, healthy);
      o := if ok then L.Success else L.Fault(gone, gone, false);
    }

    /** The named container runs: the one that was there, or else a new one of this version. */
    static ghost predicate Started(before: map<Name, Box>, after: map<Name, Box>, name: Name, version: string) {
      && name in after && after[name].running
      && (if name in before then after[name].id == before[name].id && after[name].version == before[name].version
          else after[name].version == version)
      && forall other :: other != name ==>
           (other in after <==> other in before) && (other in after ==> after[other] == before[other])
    }

    /**
      Starts the container it finds in the slot, whatever its version, or else creates one.
      `prepared` is whether the bind sources could be made ready.
     */
    method StartSlot(service: string, slot: L.Slot, version: string, prepared: bool, healthy: bool)
      returns (ok: bool, ghost o: L.Outcome)
      requires Valid()
      modifies this
      ensures Valid()
      ensures prepared && healthy ==> ok
      ensures ok ==> Started(old(containers), containers, Name(service, slot), version)
      ensures ok <==> o.Success?
      ensures L.Box(View(service), slot) == L.Box(L.StartSlot(old(View(service)), slot, version, o), slot)
      ensures forall other, any :: Name(other, any) != Name(service, slot) ==>
                SlotOf(other, any) == old(SlotOf(other, any))
    {
      if !prepared {
        return false, L.Fault(false, false, false);
      }
      var items := Containers(service, healthy);
      if items.None? {
        return false, L.Fault(false, false, false);
      }
      for i := 0 to |items.value|
        invariant Name(service, slot) !in items.value[..i]
        invariant containers == old(containers) && nextId == old(nextId) && adopted == old(adopted)
      {
        TakenOneMore(items.value, i);
        if items.value[i].slot == slot {
          assert items.value[i] == Name(service, slot);
          ok, o := StartExisting(service, slot, version, healthy);
          return;
        }
      }
      assert items.value[..|items.value|] == items.value;
      ok, o := CreateAndStart(service, slot, version, healthy);
    }

    method StartExisting(service: string, slot: L.Slot, version: string, healthy: bool)
      returns (ok: bool, ghost o: L.Outcome)
      requires Valid() && Name(service, slot) in containers
      modifies `containers, `adopted
      ensures Valid()
      ensures healthy ==> ok
      ensures ok ==> Started(old(containers), containers, Name(service, slot), version)
      ensures ok <==> o.Success?
      ensures L.Box(View(service), slot) == L.Box(L.StartSlot(old(View(service)), slot, version, o), slot)
      ensures forall other, any :: Name(other, any) != Name(service, slot) ==>
                SlotOf(other, any) == old(SlotOf(other, any))
    {
      var name := Name(service, slot);
      var fate := Fate(true, true);
      if !containers[name].running {
        fate := Start(name, healthy);
      }
      ok := fate.answered;
      if fate.answered || fate.applied {
        adopted := if containers[name].version != version then adopted + {containers[name].id}
                   else adopted - {containers[name].id};
      }
      o := if ok then L.Success else L.Fault(true, true, fate.applied);
    }

    method CreateAndStart(service: string, slot: L.Slot, version: string, healthy: bool)
      returns (ok: bool, ghost o: L.Outcome)
      requires Valid() && Name(service, slot) !in containers
      modifies `containers, `nextId
      ensures Valid()
      ensures healthy ==> ok
      ensures ok ==> Started(old(containers), containers, Name(service, slot), version)
      ensures ok <==> o.Success?
      ensures L.Box(View(service), slot) == L.Box(L.StartSlot(old(View(service)), slot, version, o), slot)
      ensures forall other, any :: Name(other, any) != Name(service, slot) ==>
                SlotOf(other, any) == old(SlotOf(other, any))
    {
      var name := Name(service, slot);
      var created := AnyFate(healthy);
      if created.answered || created.applied {
        containers := containers[name := Box(nextId, version, false)];
        nextId := nextId + 1;
      }
      if !created.answered {
        return false, L.Fault(created.applied, created.applied, false);
      }
      var fate := Start(name, healthy);
      ok := fate.answered;
      o := if ok then L.Success else L.Fault(true, true, fate.applied);
    }
  }

  lemma TakenOneMore(items: seq<Name>, i: nat)
    requires i < |items|
    ensures forall name :: name in items[..i + 1] <==> name in items[..i] || name == items[i]
  {
    assert items[..i + 1] == items[..i] + [items[i]];
  }
}
