/** The regeneration itself: one list of lines extended in nested loops, with the vehicles
    collected per owner on the way. */
module AclWriter {
  import opened Wrappers
  import opened TopicFilter
  import opened AclFile
  import opened AclPolicy

  /** An owner's name and one of their vehicle ids. */
  type Grant = (string, string)

  function GrantsOf(vehicles: seq<Vehicle>): seq<Grant>
    requires forall v :: v in vehicles ==> Eligible(v)
  {
    if vehicles == [] then []
    else [(OwnerName(vehicles[0]), Vid(vehicles[0]))] + GrantsOf(vehicles[1..])
  }

  function GrantPermits(grants: seq<Grant>): seq<Permit> {
    if grants == [] then []
    else
      var base := ["ovms", grants[0].0, grants[0].1];
      [ReadTree(base), WriteTree(base + ["client"])] + GrantPermits(grants[1..])
  }

  lemma {:induction false} GrantPermitsOf(vehicles: seq<Vehicle>)
    requires forall v :: v in vehicles ==> Eligible(v)
    ensures GrantPermits(GrantsOf(vehicles)) == UsePermits(vehicles)
  {
    if vehicles != [] {
      GrantPermitsOf(vehicles[1..]);
    }
  }

  // -- appending at the end -------------------------------------------------------------

  lemma {:induction false} GrantPermitsAppend(a: seq<Grant>, g: Grant)
    ensures var base := ["ovms", g.0, g.1];
      GrantPermits(a + [g]) == GrantPermits(a) + [ReadTree(base), WriteTree(base + ["client"])]
  {
    if a != [] {
      assert (a + [g])[1..] == a[1..] + [g];
      GrantPermitsAppend(a[1..], g);
    }
  }

  lemma {:induction false} GrantsOfAppend(vehicles: seq<Vehicle>, v: Vehicle)
    requires Eligible(v) && forall w :: w in vehicles ==> Eligible(w)
    ensures GrantsOf(vehicles + [v]) == GrantsOf(vehicles) + [(OwnerName(v), Vid(v))]
  {
    if vehicles != [] {
      assert (vehicles + [v])[1..] == vehicles[1..] + [v];
      GrantsOfAppend(vehicles[1..], v);
    }
  }

  lemma {:induction false} OwnedAppend(vehicles: seq<Vehicle>, v: Vehicle, username: string)
    ensures Owned(vehicles + [v], username)
         == Owned(vehicles, username) + if Eligible(v) && OwnerName(v) == username then [v] else []
  {
    if vehicles != [] {
      assert (vehicles + [v])[1..] == vehicles[1..] + [v];
      OwnedAppend(vehicles[1..], v, username);
    }
  }

  lemma {:induction false} VehicleSectionsAppend(vehicles: seq<Vehicle>, v: Vehicle)
    ensures VehicleSections(vehicles + [v])
         == VehicleSections(vehicles) + if Eligible(v) then [VehicleSection(v)] else []
  {
    if vehicles != [] {
      assert (vehicles + [v])[1..] == vehicles[1..] + [v];
      VehicleSectionsAppend(vehicles[1..], v);
    }
  }

  lemma {:induction false} KeySectionsAppend(db: Database, keys: seq<ApiKey>, k: ApiKey, now: int)
    ensures KeySections(db, keys + [k], now) == KeySections(db, keys, now) + ListedSection(db, k, now)
  {
    hide ListedSection;
    if keys == [] {
      assert ([k])[1..] == [] && keys + [k] == [k];
    } else {
      assert (keys + [k])[1..] == keys[1..] + [k];
      KeySectionsAppend(db, keys[1..], k, now);
    }
  }

  lemma {:induction false} PermitLinesAppend(a: seq<Permit>, b: seq<Permit>)
    requires AllPrintablePermits(a) && AllPrintablePermits(b)
    ensures AllPrintablePermits(a + b) && PermitLines(a + b) == PermitLines(a) + PermitLines(b)
  {
    if a == [] {
      assert a + b == b;
    } else {
      assert (a + b)[1..] == a[1..] + b;
      PermitLinesAppend(a[1..], b);
    }
  }

  lemma {:induction false} SectionLinesAppend(a: seq<Section>, b: seq<Section>)
    requires AllPrintable(a) && AllPrintable(b)
    ensures AllPrintable(a + b) && SectionLines(a + b) == SectionLines(a) + SectionLines(b)
  {
    if a == [] {
      assert a + b == b;
    } else {
      RestIsPrintable(a);
      assert (a + b)[0] == a[0] && (a + b)[1..] == a[1..] + b;
      SectionLinesAppend(a[1..], b);
      assert AllPrintable(a + b);
      hide PermitLines, AllPrintable;
      var first := ["user " + a[0].name] + PermitLines(a[0].permits) + [""];
      assert SectionLines(a + b) == first + (SectionLines(a[1..]) + SectionLines(b));
    }
  }

  lemma OneSectionLines(s: Section)
    requires AllPrintable([s])
    ensures AllPrintablePermits(s.permits)
    ensures SectionLines([s]) == ["user " + s.name] + PermitLines(s.permits) + [""]
  {
    assert [s][0] == s;
    assert forall j :: 0 <= j < |[s][0].permits| ==> Printable([s][0].permits[j]);
    assert forall j :: 0 <= j < |s.permits| ==> Printable(s.permits[j]);
    assert [s][1..] == [];
    var lines := ["user " + s.name] + PermitLines(s.permits) + [""];
    assert SectionLines([s]) == lines + [];
    assert lines + [] == lines;
  }

  // -- the nested loops -------------------------------------------------------------------

  ghost predicate PlainGrants(grants: seq<Grant>) {
    forall g :: g in grants ==> Plain(g.0) && Plain(g.1)
  }

  lemma BasePermits(g: Grant)
    requires Plain(g.0) && Plain(g.1)
    ensures var base := ["ovms", g.0, g.1];
      AllPrintablePermits([ReadTree(base), WriteTree(base + ["client"])])
  {
    var base := ["ovms", g.0, g.1];
    PlainIsPrintable(ReadTree(base));
    PlainIsPrintable(WriteTree(base + ["client"]));
  }

  /** The two lines per vehicle of a key's section. */
  method UseLines(grants: seq<Grant>) returns (lines: seq<string>)
    requires PlainGrants(grants)
    ensures AllPrintablePermits(GrantPermits(grants)) && lines == PermitLines(GrantPermits(grants))
  {
    lines := [];
    for i := 0 to |grants|
      invariant AllPrintablePermits(GrantPermits(grants[..i]))
      invariant lines == PermitLines(GrantPermits(grants[..i]))
    {
      var base := ["ovms", grants[i].0, grants[i].1];
      ghost var two := [ReadTree(base), WriteTree(base + ["client"])];
      assert grants[i] in grants;
      BasePermits(grants[i]);
      GrantPermitsAppend(grants[..i], grants[i]);
      assert grants[..i + 1] == grants[..i] + [grants[i]];
      PermitLinesAppend(GrantPermits(grants[..i]), two);
      assert PermitLines(two) == [PermitLine(two[0])] + PermitLines([two[1]]);
      assert PermitLines([two[1]]) == [PermitLine(two[1])] + PermitLines([]);
      lines := lines + ["topic read " + Join(base + ["#"])];
      lines := lines + ["topic write " + Join(base + ["client"] + ["#"])];
    }
    assert grants[..|grants|] == grants;
  }

  function SupportGrants(vehicles: seq<Vehicle>, now: int): seq<Grant> {
    if vehicles == [] then []
    else
      (if Eligible(vehicles[0]) && SupportActive(vehicles[0], now)
       then [(OwnerName(vehicles[0]), Vid(vehicles[0]))] else [])
      + SupportGrants(vehicles[1..], now)
  }

  /** The grants of other owners. */
  function Others(grants: seq<Grant>, username: string): seq<Grant> {
    if grants == [] then []
    else (if grants[0].0 != username then [grants[0]] else []) + Others(grants[1..], username)
  }

  lemma {:induction false} SupportGrantsAppend(vehicles: seq<Vehicle>, v: Vehicle, now: int)
    ensures SupportGrants(vehicles + [v], now)
         == SupportGrants(vehicles, now)
            + if Eligible(v) && SupportActive(v, now) then [(OwnerName(v), Vid(v))] else []
  {
    if vehicles != [] {
      assert (vehicles + [v])[1..] == vehicles[1..] + [v];
      SupportGrantsAppend(vehicles[1..], v, now);
    }
  }

  lemma {:induction false} OthersAreSupported(vehicles: seq<Vehicle>, username: string, now: int)
    ensures Others(SupportGrants(vehicles, now), username) == GrantsOf(Supported(vehicles, username, now))
  {
    if vehicles != [] {
      var v, rest := vehicles[0], SupportGrants(vehicles[1..], now);
      OthersAreSupported(vehicles[1..], username, now);
      if Eligible(v) && SupportActive(v, now) {
        assert ([(OwnerName(v), Vid(v))] + rest)[1..] == rest;
        assert ([v] + Supported(vehicles[1..], username, now))[1..] == Supported(vehicles[1..], username, now);
      } else {
        assert SupportGrants(vehicles, now) == rest;
      }
      if !(Eligible(v) && OwnerName(v) != username && SupportActive(v, now)) {
        assert Supported(vehicles, username, now) == Supported(vehicles[1..], username, now);
      }
    }
  }

  lemma {:induction false} GrantsOfArePlain(vehicles: seq<Vehicle>)
    requires forall v :: v in vehicles ==> Eligible(v) && Plain(v.vehicleId) && Plain(OwnerName(v))
    ensures PlainGrants(GrantsOf(vehicles))
  {
    if vehicles != [] {
      PlainVid(vehicles[0]);
      GrantsOfArePlain(vehicles[1..]);
    }
  }

  function ByOwner(m: map<string, seq<Grant>>, username: string): seq<Grant> {
    if username in m then m[username] else []
  }

  ghost predicate Collected(vehicles: seq<Vehicle>, now: int, byOwner: map<string, seq<Grant>>, support: seq<Grant>) {
    && (forall u :: ByOwner(byOwner, u) == GrantsOf(Owned(vehicles, u)))
    && support == SupportGrants(vehicles, now)
  }

  lemma OwnGrantsAppend(vehicles: seq<Vehicle>, v: Vehicle, u: string)
    ensures GrantsOf(Owned(vehicles + [v], u))
         == GrantsOf(Owned(vehicles, u)) + if Eligible(v) && OwnerName(v) == u then [(OwnerName(v), Vid(v))] else []
  {
    OwnedAppend(vehicles, v, u);
    if Eligible(v) && OwnerName(v) == u {
      GrantsOfAppend(Owned(vehicles, u), v);
    } else {
      assert Owned(vehicles, u) + [] == Owned(vehicles, u);
    }
  }

  /** What collecting one more vehicle does to the dict of owners. */
  function Add(byOwner: map<string, seq<Grant>>, v: Vehicle): map<string, seq<Grant>> {
    if Eligible(v) then byOwner[OwnerName(v) := ByOwner(byOwner, OwnerName(v)) + [(OwnerName(v), Vid(v))]]
    else byOwner
  }

  lemma CollectedAppend(
      vehicles: seq<Vehicle>, v: Vehicle, now: int, byOwner: map<string, seq<Grant>>, support: seq<Grant>)
    requires Collected(vehicles, now, byOwner, support)
    ensures Collected(vehicles + [v], now, Add(byOwner, v),
      support + if Eligible(v) && SupportActive(v, now) then [(OwnerName(v), Vid(v))] else [])
  {
    SupportGrantsAppend(vehicles, v, now);
    hide Owned, SupportGrants, SupportActive, GrantsOf, Vid;
    forall u ensures ByOwner(Add(byOwner, v), u) == GrantsOf(Owned(vehicles + [v], u)) {
      OwnGrantsAppend(vehicles, v, u);
      assert ByOwner(byOwner, u) + [] == ByOwner(byOwner, u);
    }
  }

  /** One pass over the vehicles: their sections, and what the keys' sections will need. */
  method VehiclePass(vehicles: seq<Vehicle>, now: int)
    returns (lines: seq<string>, byOwner: map<string, seq<Grant>>, support: seq<Grant>)
    requires forall v :: v in vehicles && Eligible(v) ==> Plain(v.vehicleId) && Plain(OwnerName(v))
    ensures AllPrintable(VehicleSections(vehicles)) && lines == SectionLines(VehicleSections(vehicles))
    ensures Collected(vehicles, now, byOwner, support)
  {
    lines, byOwner, support := [], map[], [];
    for i := 0 to |vehicles|
      invariant AllPrintable(VehicleSections(vehicles[..i])) && lines == SectionLines(VehicleSections(vehicles[..i]))
      invariant Collected(vehicles[..i], now, byOwner, support)
    {
      var v := vehicles[i];
      assert vehicles[..i + 1] == vehicles[..i] + [v];
      CollectedAppend(vehicles[..i], v, now, byOwner, support);
      OneVehicleMore(vehicles[..i], v);
      hide AllPrintable, VehicleSections, SectionLines, Collected, Vid, Join, Plain, Eligible, SupportActive, ByOwner;
      if Eligible(v) {
        var owner, vid := OwnerName(v), Vid(v);
        lines := lines + ["user " + vid, "topic readwrite " + Join(["ovms", owner, vid] + ["#"]), ""];
        byOwner := byOwner[owner := ByOwner(byOwner, owner) + [(owner, vid)]];
        if SupportActive(v, now) {
          support := support + [(owner, vid)];
        }
      }
      assert lines + [] == lines && support + [] == support;
    }
    assert vehicles[..|vehicles|] == vehicles;
  }

  /** What one more vehicle adds to the file. */
  lemma OneVehicleMore(vehicles: seq<Vehicle>, v: Vehicle)
    requires AllPrintable(VehicleSections(vehicles))
    requires Eligible(v) ==> Plain(v.vehicleId) && Plain(OwnerName(v))
    ensures AllPrintable(VehicleSections(vehicles + [v]))
    ensures SectionLines(VehicleSections(vehicles + [v])) == SectionLines(VehicleSections(vehicles)) +
      if Eligible(v) then ["user " + Vid(v), "topic readwrite " + Join(["ovms", OwnerName(v), Vid(v)] + ["#"]), ""]
      else []
  {
    VehicleSectionsAppend(vehicles, v);
    hide AllPrintable, VehicleSections, SectionLines, VehicleSection, Vid, Join, Plain, Eligible;
    if Eligible(v) {
      VehicleSectionText(v);
      SectionLinesAppend(VehicleSections(vehicles), [VehicleSection(v)]);
    } else {
      assert VehicleSections(vehicles) + [] == VehicleSections(vehicles);
      assert SectionLines(VehicleSections(vehicles)) + [] == SectionLines(VehicleSections(vehicles));
    }
  }

  lemma VehicleSectionText(v: Vehicle)
    requires Eligible(v) && Plain(v.vehicleId) && Plain(OwnerName(v))
    ensures AllPrintable([VehicleSection(v)])
    ensures SectionLines([VehicleSection(v)])
         == ["user " + Vid(v), "topic readwrite " + Join(["ovms", OwnerName(v), Vid(v)] + ["#"]), ""]
  {
    var s := VehicleSection(v);
    PlainVid(v);
    PlainIsPrintable(s.permits[0]);
    OneSectionLines(s);
    assert PermitLines(s.permits) == [PermitLine(s.permits[0])] + PermitLines([]);
  }

  lemma ListedText(db: Database, k: ApiKey, now: int)
    requires PlainNames(db) && k in db.keys && LiveKey(k, now)
    ensures AllPrintable(ListedSection(db, k, now)) && AllPrintablePermits(KeySection(db, k, now).permits)
    ensures SectionLines(ListedSection(db, k, now)) ==
      if KeySection(db, k, now).permits == [] then []
      else ["user " + k.prefix] + PermitLines(KeySection(db, k, now).permits) + [""]
  {
    KeySectionIsPrintable(db, k, now);
    OneSectionLines(KeySection(db, k, now));
  }

  lemma DiscoveryText(username: string)
    requires Plain(username)
    ensures AllPrintablePermits(DiscoveryPermits(username))
    ensures PermitLines(DiscoveryPermits(username))
         == ["topic read " + Join(["ovms", username, "+", "metric", "m", "version"]),
             "topic write " + Join(["ovms", username, "discovery", "client"] + ["#"])]
  {
    DiscoveryMeaning(username, Read, "");
    var permits := DiscoveryPermits(username);
    assert permits[1..] == [permits[1]] && permits[1..][1..] == [];
    assert PermitLines(permits) == [PermitLine(permits[0])] + PermitLines(permits[1..]);
    assert PermitLines(permits[1..]) == [PermitLine(permits[1])] + PermitLines([]);
  }

  /** The lines of a key for its user's own vehicles, and for discovery if there are any. */
  method OwnLines(username: string, owned: seq<Grant>) returns (use: seq<string>, discovery: seq<string>)
    requires Plain(username) && PlainGrants(owned)
    ensures AllPrintablePermits(GrantPermits(owned)) && use == PermitLines(GrantPermits(owned))
    ensures AllPrintablePermits(DiscoveryPermits(username))
    ensures discovery == if owned == [] then [] else PermitLines(DiscoveryPermits(username))
  {
    DiscoveryText(username);
    use, discovery := [], [];
    use := UseLines(owned);
    if owned != [] {
      discovery := ["topic read " + Join(["ovms", username, "+", "metric", "m", "version"]),
                    "topic write " + Join(["ovms", username, "discovery", "client"] + ["#"])];
    }
  }

  lemma ThreeParts(a: seq<Permit>, b: seq<Permit>, d: seq<Permit>)
    requires AllPrintablePermits(a) && AllPrintablePermits(b) && AllPrintablePermits(d)
    ensures AllPrintablePermits(a + b + d)
    ensures PermitLines(a + b + d) == PermitLines(a) + PermitLines(b) + PermitLines(d)
  {
    PermitLinesAppend(a, b);
    PermitLinesAppend(a + b, d);
  }

  /** What a key's section is made of, in terms of the collected grants. */
  lemma KeyParts(db: Database, k: ApiKey, now: int, owned: seq<Grant>, support: seq<Grant>)
    requires PlainNames(db) && k in db.keys && LiveKey(k, now)
    requires owned == GrantsOf(Owned(db.vehicles, k.user.value.username))
    requires support == GrantsOf(SupportFor(db, k, now))
    ensures PlainGrants(owned) && PlainGrants(support)
    ensures KeySection(db, k, now).permits
         == GrantPermits(owned) + GrantPermits(support)
            + if owned == [] then [] else DiscoveryPermits(k.user.value.username)
    ensures KeySection(db, k, now).permits == [] <==> owned == [] && support == []
  {
    var mine, theirs := Owned(db.vehicles, k.user.value.username), SupportFor(db, k, now);
    GrantPermitsOf(mine);
    GrantPermitsOf(theirs);
    GrantsOfArePlain(mine);
    GrantsOfArePlain(theirs);
  }

  method RuleLines(username: string, owned: seq<Grant>, support: seq<Grant>) returns (lines: seq<string>)
    requires Plain(username) && PlainGrants(owned) && PlainGrants(support)
    ensures var permits := GrantPermits(owned) + GrantPermits(support)
                           + if owned == [] then [] else DiscoveryPermits(username);
      AllPrintablePermits(permits) && lines == PermitLines(permits)
  {
    hide GrantPermits, DiscoveryPermits, PlainGrants, Printable;
    var use, discovery := OwnLines(username, owned);
    var theirs := UseLines(support);
    lines := use + theirs + discovery;
    ghost var tail := if owned == [] then [] else DiscoveryPermits(username);
    assert PermitLines(tail) == discovery;
    ThreeParts(GrantPermits(owned), GrantPermits(support), tail);
  }

  /** The section of one key; nothing for a key that reaches no vehicle. */
  method KeyLines(ghost db: Database, k: ApiKey, ghost now: int, owned: seq<Grant>, support: seq<Grant>)
    returns (lines: seq<string>)
    requires PlainNames(db) && k in db.keys && LiveKey(k, now)
    requires owned == GrantsOf(Owned(db.vehicles, k.user.value.username))
    requires support == GrantsOf(SupportFor(db, k, now))
    ensures AllPrintable(ListedSection(db, k, now)) && lines == SectionLines(ListedSection(db, k, now))
  {
    ListedText(db, k, now);
    KeyParts(db, k, now, owned, support);
    if owned == [] && support == [] {
      return [];
    }
    hide *;
    var rules := RuleLines(k.user.value.username, owned, support);
    lines := ["user " + k.prefix] + rules + [""];
  }

  function SupportOf(k: ApiKey, grants: seq<Grant>): seq<Grant>
    requires k.user.Some?
  {
    if k.user.value.admin && !IsInternalKeyName(k.name) then Others(grants, k.user.value.username) else []
  }

  lemma CollectedForKey(db: Database, k: ApiKey, now: int, byOwner: map<string, seq<Grant>>, grants: seq<Grant>)
    requires Collected(db.vehicles, now, byOwner, grants) && LiveKey(k, now)
    ensures ByOwner(byOwner, k.user.value.username) == GrantsOf(Owned(db.vehicles, k.user.value.username))
    ensures SupportOf(k, grants) == GrantsOf(SupportFor(db, k, now))
  {
    OthersAreSupported(db.vehicles, k.user.value.username, now);
  }

  /** All sections of the keys, from what one pass over the vehicles collected. */
  method KeyPass(db: Database, now: int, byOwner: map<string, seq<Grant>>, grants: seq<Grant>)
    returns (lines: seq<string>)
    requires PlainNames(db) && Collected(db.vehicles, now, byOwner, grants)
    ensures AllPrintable(KeySections(db, db.keys, now)) && lines == SectionLines(KeySections(db, db.keys, now))
  {
    lines := [];
    for i := 0 to |db.keys|
      invariant AllPrintable(KeySections(db, db.keys[..i], now))
      invariant lines == SectionLines(KeySections(db, db.keys[..i], now))
    {
      var k := db.keys[i];
      assert db.keys[..i + 1] == db.keys[..i] + [k];
      KeySectionsAppend(db, db.keys[..i], k, now);
      if LiveKey(k, now) {
        var username := k.user.value.username;
        var support := SupportOf(k, grants);
        CollectedForKey(db, k, now, byOwner, grants);
        hide *;
        var more := KeyLines(db, k, now, ByOwner(byOwner, username), support);
        SectionLinesAppend(KeySections(db, db.keys[..i], now), ListedSection(db, k, now));
        lines := lines + more;
      } else {
        assert KeySections(db, db.keys[..i], now) + [] == KeySections(db, db.keys[..i], now);
      }
    }
    assert db.keys[..|db.keys|] == db.keys;
  }

  lemma ThreeFileParts(services: Services, db: Database, now: int)
    requires AllPrintable(ServiceSections(services)) && AllPrintable(VehicleSections(db.vehicles))
    requires AllPrintable(KeySections(db, db.keys, now))
    ensures AllPrintable(Sections(services, db, now))
    ensures SectionLines(Sections(services, db, now))
         == SectionLines(ServiceSections(services)) + SectionLines(VehicleSections(db.vehicles))
            + SectionLines(KeySections(db, db.keys, now))
  {
    SectionLinesAppend(ServiceSections(services), VehicleSections(db.vehicles));
    SectionLinesAppend(ServiceSections(services) + VehicleSections(db.vehicles), KeySections(db, db.keys, now));
  }

  /** The whole file. The sections of the service accounts are fixed text. */
  method RegenerateAclFile(header: seq<string>, services: Services, db: Database, now: int) returns (lines: seq<string>)
    requires IsHeader(header) && PlainNames(db)
    ensures AllPrintable(Sections(services, db, now))
    ensures lines == header + SectionLines(Sections(services, db, now))
    ensures forall name, access, topic ::
      Grants(lines, None, name, access, topic) <==> Allowed(services, db, now, name, access, topic)
  {
    ServiceSectionsMeaning(services, None, Read, "");
    hide *;
    lines := header + SectionLines(ServiceSections(services));
    var vehicleLines, byOwner, grants := VehiclePass(db.vehicles, now) by {
      PlainVehicles(db);
    }
    lines := lines + vehicleLines;
    var keyLines := KeyPass(db, now, byOwner, grants);
    lines := lines + keyLines;
    ThreeFileParts(services, db, now);
    assert lines == header + SectionLines(Sections(services, db, now));
    forall name, access, topic
      ensures Grants(lines, None, name, access, topic) <==> Allowed(services, db, now, name, access, topic)
    {
      FileMeansPolicy(header, services, db, now, name, access, topic);
    }
  }

  lemma PlainVehicles(db: Database)
    requires PlainNames(db)
    ensures forall v :: v in db.vehicles && Eligible(v) ==> Plain(v.vehicleId) && Plain(OwnerName(v))
  {
  }
}
