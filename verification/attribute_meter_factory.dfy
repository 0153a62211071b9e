/**
  The factory of attribute meters (src/protocol_model/src/AttributeMeterFactory.cpp):
  it knows the meters by name, and which of them some database has enabled.  A
  creation function is known by the kind of meter that it makes.
*/
module AttributeMeterFactories {
  import opened Packets
  import opened Meters
  import opened AttributeMeters

  class AttributeMeterFactory {
    var factories: map<string, Kind>
    var enabledAttributes: map<string, bool>

    /** Every meter is registered under its own name, and is enabled or not. */
    ghost predicate Valid()
      reads this
    {
      && factories.Keys == enabledAttributes.Keys
      && forall name :: name in factories ==> factories[name].Name() == name
    }

    /** The sizes of the fingerprints. */
    function Sizes(): map<string, nat>
      reads this`factories
    {
      map name | name in factories :: factories[name].Slots()
    }

    ghost function Enabled(): set<string>
      reads this`enabledAttributes
    {
      set name | name in enabledAttributes && enabledAttributes[name]
    }

    constructor ()
      ensures Valid() && factories == map[] && Enabled() == {}
    {
      factories, enabledAttributes := map[], map[];
    }

    /** A new meter, not enabled until a database says so. */
    method RegisterFactory(kind: Kind)
      requires Valid()
      modifies this
      ensures Valid() && factories == old(factories)[kind.Name() := kind] && Enabled() == old(Enabled()) - {kind.Name()}
    {
      hide Kind.Name;
      factories := factories[kind.Name() := kind];
      enabledAttributes := enabledAttributes[kind.Name() := false];
    }

    /** A meter of a name, in memory that holds `junk`; none, if there is no such meter. */
    method Create(name: string, junk: Junk) returns (am: AttributeMeter?)
      requires Valid()
      ensures am == null <==> name !in factories
      ensures am != null ==> fresh(am) && am.Valid() && am.View() == FreshMeter(factories[name], junk) && am.kind.Name() == name
    {
      hide Kind.Name, Kind.Slots;
      if name !in factories {
        return null;
      }
      am := new AttributeMeter(factories[name], junk);
    }

    /** An unknown meter cannot be enabled. */
    method EnableAttribute(name: string)
      requires Valid()
      modifies this`enabledAttributes
      ensures Valid() && Enabled() == old(Enabled()) + if name in factories then {name} else {}
    {
      hide Kind.Name;
      if name !in enabledAttributes {
        return;
      }
      enabledAttributes := enabledAttributes[name := true];
    }

    /** The kinds of the meters that a new flow gets: one for each enabled meter, in whatever order. */
    method GetAllMeters() returns (kinds: seq<Kind>)
      requires Valid()
      ensures Offers(kinds, Sizes(), Enabled())
      ensures forall k :: 0 <= k < |kinds| ==> kinds[k].Name() in Enabled()
    {
      hide Kind.Name, Kind.Slots;
      kinds := [];
      var todo := enabledAttributes.Keys;
      while todo != {}
        invariant todo <= enabledAttributes.Keys && KindsApart(kinds)
        invariant forall k :: 0 <= k < |kinds| ==> kinds[k].Name() in Enabled() && kinds[k].Name() !in todo
        invariant forall name :: name in Enabled() && name !in todo ==>
                                   exists k :: 0 <= k < |kinds| && kinds[k].Name() == name && kinds[k].Slots() == factories[name].Slots()
        decreases todo
      {
        var name :| name in todo;
        ghost var before := kinds;
        if enabledAttributes[name] {
          kinds := kinds + [factories[name]];
        }
        todo := todo - {name};
        StillOffered(before, kinds, factories, Enabled() - todo - {name});
        assert enabledAttributes[name] ==> kinds[|before|].Name() == name;
      }
    }
  }

  lemma StillOffered(kinds: seq<Kind>, more: seq<Kind>, factories: map<string, Kind>, names: set<string>)
    requires kinds <= more && forall name :: name in names ==> name in factories
    requires forall name :: name in names ==>
                              exists k :: 0 <= k < |kinds| && kinds[k].Name() == name && kinds[k].Slots() == factories[name].Slots()
    ensures forall name :: name in names ==>
                             exists k :: 0 <= k < |more| && more[k].Name() == name && more[k].Slots() == factories[name].Slots()
  {
    hide Kind.Name, Kind.Slots;
    forall name | name in names
      ensures exists k :: 0 <= k < |more| && more[k].Name() == name && more[k].Slots() == factories[name].Slots()
    {
      var k :| 0 <= k < |kinds| && kinds[k].Name() == name && kinds[k].Slots() == factories[name].Slots();
      assert more[k] == kinds[k];
    }
  }
}
