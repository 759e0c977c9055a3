/** Who may read and write what on the broker, and the regeneration of the ACL file that
    has to say exactly that. */
module AclPolicy {
  import opened Wrappers
  import opened TopicFilter
  import opened AclFile

  datatype User = User(username: string, active: bool, admin: bool)

  datatype Vehicle = Vehicle(
    vehicleId: string,
    protocol: string,
    password: string,
    owner: Option<User>,
    ownerId: nat,
    supportUntil: Option<int>,
    supportGrantedBy: Option<nat>)

  datatype ApiKey = ApiKey(prefix: string, name: string, user: Option<User>, active: bool, expiresAt: Option<int>)

  datatype Database = Database(vehicles: seq<Vehicle>, keys: seq<ApiKey>)

  /** The service accounts; an empty name means the account is not configured. */
  datatype Services = Services(
    metricsUser: string, notifyUser: string, interactiveUser: string, kartoEnabled: bool, kartoUser: string)

  // -- the rows that count ------------------------------------------------------------

  function UpperChar(c: char): char {
    if 'a' <= c <= 'z' then c - ('a' - 'A') else c
  }

  function Upper(s: string): string {
    seq(|s|, i requires 0 <= i < |s| => UpperChar(s[i]))
  }

  function Vid(v: Vehicle): string {
    Upper(v.vehicleId)
  }

  predicate IsMqtt(protocol: string) {
    protocol == "v3" || protocol == "both"
  }

  predicate SpeaksMqtt(v: Vehicle) {
    IsMqtt(v.protocol)
  }

  predicate Eligible(v: Vehicle) {
    SpeaksMqtt(v) && v.owner.Some? && v.owner.value.username != "" && v.owner.value.active
  }

  function OwnerName(v: Vehicle): string
    requires Eligible(v)
  {
    v.owner.value.username
  }

  /** The owner's own, unexpired consent. */
  predicate SupportActive(v: Vehicle, now: int) {
    v.supportUntil.Some? && v.supportGrantedBy == Some(v.ownerId) && now < v.supportUntil.value
  }

  predicate IsInternalKeyName(name: string) {
    "temp-karto-delete-" <= name
  }

  predicate Unexpired(k: ApiKey, now: int) {
    k.active && (k.expiresAt.None? || now < k.expiresAt.value)
  }

  predicate LiveKey(k: ApiKey, now: int) {
    && Unexpired(k, now)
    && k.user.Some? && k.user.value.username != "" && k.user.value.active
  }

  // -- the policy -----------------------------------------------------------------------

  /** A key reaches its user's vehicles, and for an admin's key that is not internal every
      vehicle under support. */
  predicate Reaches(k: ApiKey, v: Vehicle, now: int)
    requires LiveKey(k, now) && Eligible(v)
  {
    || OwnerName(v) == k.user.value.username
    || (k.user.value.admin && !IsInternalKeyName(k.name) && SupportActive(v, now))
  }

  predicate OwnsOne(db: Database, username: string) {
    exists v :: v in db.vehicles && Eligible(v) && OwnerName(v) == username
  }

  ghost predicate VehicleMay(db: Database, name: string, topic: string) {
    exists v :: v in db.vehicles && Eligible(v) && Vid(v) == name
      && ["ovms", OwnerName(v), Vid(v)] <= Split(topic)
  }

  predicate UseOfVehicle(v: Vehicle, access: Access, levels: seq<string>)
    requires Eligible(v)
  {
    match access
    case Read => ["ovms", OwnerName(v), Vid(v)] <= levels
    case Write => ["ovms", OwnerName(v), Vid(v), "client"] <= levels
  }

  predicate Discovery(username: string, access: Access, t: seq<string>) {
    match access
    case Read => |t| == 6 && t[..2] == ["ovms", username] && t[3..] == ["metric", "m", "version"]
    case Write => ["ovms", username, "discovery", "client"] <= t
  }

  ghost predicate KeyReaches(db: Database, k: ApiKey, now: int, access: Access, topic: string)
    requires LiveKey(k, now)
  {
    || (exists v :: v in db.vehicles && Eligible(v) && Reaches(k, v, now) && UseOfVehicle(v, access, Split(topic)))
    || (OwnsOne(db, k.user.value.username) && Discovery(k.user.value.username, access, Split(topic)))
  }

  ghost predicate KeyMay(db: Database, now: int, name: string, access: Access, topic: string) {
    exists k :: k in db.keys && LiveKey(k, now) && k.prefix == name && KeyReaches(db, k, now, access, topic)
  }

  /** Topic levels of any vehicle of any owner that go on with `rest`. */
  predicate InVehicle(t: seq<string>, rest: seq<string>) {
    3 + |rest| <= |t| && t[0] == "ovms" && t[3..3 + |rest|] == rest
  }

  function KartoMetrics(): seq<seq<string>> {
    [["v", "e", "on"], ["v", "b", "soc"], ["v", "b", "energy", "used"], ["v", "b", "capacity"],
     ["v", "p", "latitude"], ["v", "p", "longitude"], ["v", "p", "altitude"], ["v", "p", "speed"],
     ["v", "p", "gpslock"], ["m", "time", "utc"]]
  }

  /** The service accounts read their branches of every vehicle; only the interactive
      account writes, and only commands. */
  predicate ServiceMay(services: Services, name: string, access: Access, t: seq<string>) {
    || (name == services.metricsUser != "" && MetricsMay(access, t))
    || (name == services.notifyUser != "" && NotifyMay(access, t))
    || (name == services.interactiveUser != "" && InteractiveMay(access, t))
    || (name == services.kartoUser != "" && services.kartoEnabled && KartoMay(access, t))
  }

  predicate MetricsMay(access: Access, t: seq<string>) {
    access == Read && (InVehicle(t, ["metric"]) || InVehicle(t, ["event"]) || t == STATE_TOPIC)
  }

  predicate NotifyMay(access: Access, t: seq<string>) {
    access == Read && (InVehicle(t, ["notify"]) || t == STATE_TOPIC)
  }

  predicate InteractiveMay(access: Access, t: seq<string>) {
    match access
    case Write => InVehicle(t, ["client"]) && 6 <= |t| && t[5] == "command"
    case Read => (InVehicle(t, ["client"]) && 6 <= |t| && t[5] == "response") || t == STATE_TOPIC
  }

  predicate KartoMay(access: Access, t: seq<string>) {
    access == Read
    && (InVehicle(t, ["notify", "data"]) || IsMetric(KartoMetrics(), t))
  }

  predicate IsMetric(metrics: seq<seq<string>>, t: seq<string>) {
    exists m :: m in metrics && InVehicle(t, ["metric"] + m) && |t| == 4 + |m|
  }

  /** The whole policy; a client without a name is allowed nothing. */
  ghost predicate Allowed(
      services: Services, db: Database, now: int, name: Option<string>, access: Access, topic: string)
  {
    name.Some? &&
    (ServiceMay(services, name.value, access, Split(topic))
     || VehicleMay(db, name.value, topic)
     || KeyMay(db, now, name.value, access, topic))
  }

  const STATE_TOPIC: seq<string> := ["$SYS", "broker", "state"]

  // -- the sections of the file -----------------------------------------------------------

  const STATE: Permit := Permit(true, false, STATE_TOPIC, false)

  function ReadTree(levels: seq<string>): Permit {
    Permit(true, false, levels, true)
  }

  function ReadOne(levels: seq<string>): Permit {
    Permit(true, false, levels, false)
  }

  function WriteTree(levels: seq<string>): Permit {
    Permit(false, true, levels, true)
  }

  function MetricPermits(metrics: seq<seq<string>>): seq<Permit> {
    if metrics == [] then []
    else [ReadOne(["ovms", "+", "+"] + (["metric"] + metrics[0]))] + MetricPermits(metrics[1..])
  }

  function MetricsPermits(): seq<Permit> {
    [ReadTree(["ovms", "+", "+"] + ["metric"]), ReadTree(["ovms", "+", "+"] + ["event"]), STATE]
  }

  function NotifyPermits(): seq<Permit> {
    [ReadTree(["ovms", "+", "+"] + ["notify"]), STATE]
  }

  function InteractivePermits(): seq<Permit> {
    [WriteTree(["ovms", "+", "+", "client", "+", "command"]),
     ReadTree(["ovms", "+", "+", "client", "+", "response"]), STATE]
  }

  function KartoPermits(): seq<Permit> {
    MetricPermits(KartoMetrics()) + [ReadTree(["ovms", "+", "+"] + ["notify", "data"])]
  }

  function Account(user: string, configured: bool, permits: seq<Permit>): seq<Section> {
    if configured then [Section(user, permits)] else []
  }

  function ServiceSections(services: Services): seq<Section> {
    Account(services.metricsUser, services.metricsUser != "", MetricsPermits())
    + Account(services.notifyUser, services.notifyUser != "", NotifyPermits())
    + Account(services.interactiveUser, services.interactiveUser != "", InteractivePermits())
    + Account(services.kartoUser, services.kartoEnabled && services.kartoUser != "", KartoPermits())
  }

  function VehicleSection(v: Vehicle): Section
    requires Eligible(v)
  {
    Section(Vid(v), [Permit(true, true, ["ovms", OwnerName(v), Vid(v)], true)])
  }

  function VehicleSections(vehicles: seq<Vehicle>): seq<Section> {
    if vehicles == [] then []
    else (if Eligible(vehicles[0]) then [VehicleSection(vehicles[0])] else []) + VehicleSections(vehicles[1..])
  }

  /** The vehicles a key's section lists: first the user's own, then those under support. */
  function Owned(vehicles: seq<Vehicle>, username: string): seq<Vehicle>
    ensures forall v :: v in Owned(vehicles, username)
              <==> v in vehicles && Eligible(v) && OwnerName(v) == username
  {
    if vehicles == [] then []
    else
      (if Eligible(vehicles[0]) && OwnerName(vehicles[0]) == username then [vehicles[0]] else [])
      + Owned(vehicles[1..], username)
  }

  function Supported(vehicles: seq<Vehicle>, username: string, now: int): seq<Vehicle>
    ensures forall v :: v in Supported(vehicles, username, now)
              <==> v in vehicles && Eligible(v) && OwnerName(v) != username && SupportActive(v, now)
  {
    if vehicles == [] then []
    else
      (if Eligible(vehicles[0]) && OwnerName(vehicles[0]) != username && SupportActive(vehicles[0], now)
       then [vehicles[0]] else [])
      + Supported(vehicles[1..], username, now)
  }

  function UsePermits(vehicles: seq<Vehicle>): seq<Permit>
    requires forall v :: v in vehicles ==> Eligible(v)
  {
    if vehicles == [] then []
    else
      var base := ["ovms", OwnerName(vehicles[0]), Vid(vehicles[0])];
      [ReadTree(base), WriteTree(base + ["client"])] + UsePermits(vehicles[1..])
  }

  function DiscoveryPermits(username: string): seq<Permit> {
    [ReadOne(["ovms", username, "+", "metric", "m", "version"]),
     WriteTree(["ovms", username, "discovery", "client"])]
  }

  function SupportFor(db: Database, k: ApiKey, now: int): seq<Vehicle>
    requires LiveKey(k, now)
  {
    if k.user.value.admin && !IsInternalKeyName(k.name) then Supported(db.vehicles, k.user.value.username, now)
    else []
  }

  function KeySection(db: Database, k: ApiKey, now: int): Section
    requires LiveKey(k, now)
  {
    var owned := Owned(db.vehicles, k.user.value.username);
    Section(k.prefix,
      UsePermits(owned) + UsePermits(SupportFor(db, k, now))
      + if owned == [] then [] else DiscoveryPermits(k.user.value.username))
  }

  /** A key that reaches no vehicle gets no section. */
  function ListedSection(db: Database, k: ApiKey, now: int): seq<Section> {
    if LiveKey(k, now) && KeySection(db, k, now).permits != [] then [KeySection(db, k, now)] else []
  }

  function KeySections(db: Database, keys: seq<ApiKey>, now: int): seq<Section> {
    if keys == [] then [] else ListedSection(db, keys[0], now) + KeySections(db, keys[1..], now)
  }

  function Sections(services: Services, db: Database, now: int): seq<Section> {
    ServiceSections(services) + VehicleSections(db.vehicles) + KeySections(db, db.keys, now)
  }

  // -- names that can be printed ------------------------------------------------------------

  /** What the validators of user names and vehicle ids guarantee. */
  predicate Plain(s: string) {
    '/' !in s && '+' !in s && '#' !in s
  }

  ghost predicate PlainNames(db: Database) {
    && (forall v :: v in db.vehicles && Eligible(v) ==> Plain(v.vehicleId) && Plain(OwnerName(v)))
    && (forall k :: k in db.keys && k.user.Some? ==> Plain(k.user.value.username))
  }

  lemma PlainVid(v: Vehicle)
    requires Plain(v.vehicleId)
    ensures Plain(Vid(v))
  {
    forall i | 0 <= i < |v.vehicleId| ensures Vid(v)[i] != '/' && Vid(v)[i] != '+' && Vid(v)[i] != '#' {
      assert v.vehicleId[i] in v.vehicleId;
    }
  }

  predicate PlainLevels(p: seq<string>) {
    forall i :: 0 <= i < |p| ==> Plain(p[i])
  }

  /** Plain levels stand for themselves. */
  lemma StartsLiterally(p: seq<string>, t: seq<string>)
    requires PlainLevels(p)
    ensures Starts(p, t) <==> p <= t
  {
    if Starts(p, t) {
      forall i | 0 <= i < |p| ensures p[i] == t[i] {
        assert p[i] != "+";
      }
    }
  }

  lemma PlainIsPrintable(p: Permit)
    requires (p.read || p.write) && p.levels != [] && PlainLevels(p.levels)
    ensures Printable(p)
  {
    forall i | 0 <= i < |p.levels| ensures p.levels[i] != "#" && p.levels[i] != "+" && IsLevel(p.levels[i]) {
      assert Plain(p.levels[i]);
      assert '#' in "#" && '+' in "+";
    }
  }

  // -- each section grants its policy -------------------------------------------------------

  ghost predicate SomePermits(permits: seq<Permit>, access: Access, topic: string) {
    exists j :: 0 <= j < |permits| && Permits(permits[j], access, topic)
  }

  lemma SomeOfBoth(a: seq<Permit>, b: seq<Permit>, access: Access, topic: string)
    ensures SomePermits(a + b, access, topic) <==> SomePermits(a, access, topic) || SomePermits(b, access, topic)
  {
    if j :| 0 <= j < |a| && Permits(a[j], access, topic) {
      assert (a + b)[j] == a[j];
    }
    if j :| 0 <= j < |b| && Permits(b[j], access, topic) {
      assert (a + b)[|a| + j] == b[j];
    }
  }

  lemma {:induction false} UsePermitsMeaning(vehicles: seq<Vehicle>, access: Access, topic: string)
    requires forall v :: v in vehicles ==> Eligible(v) && Plain(v.vehicleId) && Plain(OwnerName(v))
    ensures SomePermits(UsePermits(vehicles), access, topic)
       <==> exists v :: v in vehicles && UseOfVehicle(v, access, Split(topic))
    ensures forall j :: 0 <= j < |UsePermits(vehicles)| ==> Printable(UsePermits(vehicles)[j])
    ensures UsePermits(vehicles) == [] <==> vehicles == []
  {
    if vehicles != [] {
      var v := vehicles[0];
      var base := ["ovms", OwnerName(v), Vid(v)];
      PlainVid(v);
      var head := [ReadTree(base), WriteTree(base + ["client"])];
      PlainIsPrintable(head[0]);
      PlainIsPrintable(head[1]);
      StartsLiterally(base, Split(topic));
      StartsLiterally(base + ["client"], Split(topic));
      assert base + ["client"] == ["ovms", OwnerName(v), Vid(v), "client"];
      assert SomePermits(head, access, topic) <==> UseOfVehicle(v, access, Split(topic)) by {
        if UseOfVehicle(v, access, Split(topic)) {
          assert Permits(head[if access == Read then 0 else 1], access, topic);
        }
      }
      SomeOfBoth(head, UsePermits(vehicles[1..]), access, topic);
      UsePermitsMeaning(vehicles[1..], access, topic);
    }
  }

  lemma VersionLevels(username: string, t: seq<string>)
    requires username != "+" && |t| == 6
    ensures Starts(["ovms", username, "+", "metric", "m", "version"], t)
       <==> t[..2] == ["ovms", username] && t[3..] == ["metric", "m", "version"]
  {
    var p := ["ovms", username, "+", "metric", "m", "version"];
    if Starts(p, t) {
      assert p[0] == t[0] && p[1] == t[1] && p[3] == t[3] && p[4] == t[4] && p[5] == t[5];
    }
    if t[..2] == ["ovms", username] && t[3..] == ["metric", "m", "version"] {
      assert t[0] == t[..2][0] && t[1] == t[..2][1] && t[3] == t[3..][0] && t[4] == t[3..][1] && t[5] == t[3..][2];
    }
  }

  lemma VersionPermitMeans(username: string, access: Access, topic: string)
    requires Plain(username)
    ensures var p := DiscoveryPermits(username)[0];
      Printable(p) && (Permits(p, access, topic) <==> access == Read && Discovery(username, access, Split(topic)))
  {
    var t := Split(topic);
    assert username != "+" && username != "#" by {
      assert '+' in "+" && '#' in "#";
    }
    assert DiscoveryPermits(username)[0].levels == ["ovms", username, "+", "metric", "m", "version"];
    if |t| == 6 {
      VersionLevels(username, t);
    }
    hide Starts;
  }

  lemma DiscoveryTreeMeans(username: string, access: Access, topic: string)
    requires Plain(username)
    ensures var p := DiscoveryPermits(username)[1];
      Printable(p) && (Permits(p, access, topic) <==> access == Write && Discovery(username, access, Split(topic)))
  {
    var p := DiscoveryPermits(username)[1];
    PlainIsPrintable(p);
    StartsLiterally(p.levels, Split(topic));
    hide Starts, Printable;
  }

  lemma DiscoveryMeaning(username: string, access: Access, topic: string)
    requires Plain(username)
    ensures SomePermits(DiscoveryPermits(username), access, topic) <==> Discovery(username, access, Split(topic))
    ensures forall j :: 0 <= j < 2 ==> Printable(DiscoveryPermits(username)[j])
  {
    VersionPermitMeans(username, access, topic);
    DiscoveryTreeMeans(username, access, topic);
    hide Permits, Discovery, Printable;
    var permits := DiscoveryPermits(username);
    if Permits(permits[0], access, topic) || Permits(permits[1], access, topic) {
      assert SomePermits(permits, access, topic);
    }
  }

  lemma ListedVehicles(db: Database, k: ApiKey, now: int)
    requires LiveKey(k, now)
    ensures OwnsOne(db, k.user.value.username) <==> Owned(db.vehicles, k.user.value.username) != []
    ensures forall v :: v in Owned(db.vehicles, k.user.value.username) || v in SupportFor(db, k, now)
              <==> v in db.vehicles && Eligible(v) && Reaches(k, v, now)
  {
    var owned := Owned(db.vehicles, k.user.value.username);
    if owned != [] {
      assert owned[0] in owned;
    }
  }

  lemma KeySectionIsPrintable(db: Database, k: ApiKey, now: int)
    requires PlainNames(db) && k in db.keys && LiveKey(k, now)
    ensures AllPrintable([KeySection(db, k, now)])
  {
    var username := k.user.value.username;
    UsePermitsMeaning(Owned(db.vehicles, username), Read, "");
    UsePermitsMeaning(SupportFor(db, k, now), Read, "");
    DiscoveryMeaning(username, Read, "");
    hide UsePermits, DiscoveryPermits, Printable, SupportFor, Owned;
  }

  lemma KeySectionMeaning(db: Database, k: ApiKey, now: int, access: Access, topic: string)
    requires PlainNames(db) && k in db.keys && LiveKey(k, now)
    ensures SomePermits(KeySection(db, k, now).permits, access, topic) <==> KeyReaches(db, k, now, access, topic)
  {
    var username := k.user.value.username;
    var owned, support := Owned(db.vehicles, username), SupportFor(db, k, now);
    var discovery := if owned == [] then [] else DiscoveryPermits(username);
    ListedVehicles(db, k, now);
    UsePermitsMeaning(owned, access, topic);
    UsePermitsMeaning(support, access, topic);
    DiscoveryMeaning(username, access, topic);
    SomeOfBoth(UsePermits(owned) + UsePermits(support), discovery, access, topic);
    SomeOfBoth(UsePermits(owned), UsePermits(support), access, topic);
    assert !SomePermits([], access, topic);
    hide UsePermits, DiscoveryPermits, Permits, Discovery, UseOfVehicle, SomePermits, Reaches, SupportFor, OwnsOne,
         Eligible, Vid, Plain, Printable;
  }

  lemma {:induction false} VehicleSectionsMeaning(
      vehicles: seq<Vehicle>, name: Option<string>, access: Access, topic: string)
    requires forall v :: v in vehicles && Eligible(v) ==> Plain(v.vehicleId) && Plain(OwnerName(v))
    ensures SomeSection(VehicleSections(vehicles), name, access, topic)
       <==> name.Some? && VehicleMay(Database(vehicles, []), name.value, topic)
    ensures AllPrintable(VehicleSections(vehicles))
  {
    if vehicles != [] {
      var v, rest := vehicles[0], vehicles[1..];
      VehicleSectionsMeaning(rest, name, access, topic);
      var head := if Eligible(v) then [VehicleSection(v)] else [];
      if Eligible(v) {
        var p := VehicleSection(v).permits[0];
        PlainVid(v);
        PlainIsPrintable(p);
        StartsLiterally(p.levels, Split(topic));
        assert SomeSection(head, name, access, topic) <==> name == Some(Vid(v)) && p.levels <= Split(topic) by {
          if name == Some(Vid(v)) && p.levels <= Split(topic) {
            assert Permits(head[0].permits[0], access, topic);
          }
        }
      }
      SomeSectionOfBoth(head, VehicleSections(rest), name, access, topic);
    }
  }

  lemma ListedSectionMeaning(db: Database, k: ApiKey, now: int, name: Option<string>, access: Access, topic: string)
    requires PlainNames(db) && k in db.keys
    ensures SomeSection(ListedSection(db, k, now), name, access, topic)
       <==> LiveKey(k, now) && name == Some(k.prefix) && KeyReaches(db, k, now, access, topic)
    ensures AllPrintable(ListedSection(db, k, now))
  {
    if LiveKey(k, now) {
      KeySectionMeaning(db, k, now, access, topic);
      KeySectionIsPrintable(db, k, now);
      var s := KeySection(db, k, now);
      assert s.name == k.prefix;
      assert SomeSection([s], name, access, topic) <==> SectionAllows([s][0], name, access, topic);
      hide KeySection, KeyReaches, Permits;
    }
  }

  lemma {:induction false} KeySectionsMeaning(
      db: Database, keys: seq<ApiKey>, now: int, name: Option<string>, access: Access, topic: string)
    requires PlainNames(db) && forall k :: k in keys ==> k in db.keys
    ensures SomeSection(KeySections(db, keys, now), name, access, topic)
       <==> exists k :: k in keys && LiveKey(k, now) && name == Some(k.prefix) && KeyReaches(db, k, now, access, topic)
    ensures AllPrintable(KeySections(db, keys, now))
  {
    if keys != [] {
      KeySectionsMeaning(db, keys[1..], now, name, access, topic);
      ListedSectionMeaning(db, keys[0], now, name, access, topic);
      hide KeyReaches, ListedSection;
      SomeSectionOfBoth(ListedSection(db, keys[0], now), KeySections(db, keys[1..], now), name, access, topic);
    }
  }

  lemma TreeInVehicle(rest: seq<string>, t: seq<string>)
    requires forall i :: 0 <= i < |rest| ==> rest[i] != "+"
    ensures Starts(["ovms", "+", "+"] + rest, t) <==> InVehicle(t, rest)
  {
    var p := ["ovms", "+", "+"] + rest;
    if Starts(p, t) {
      assert p[0] == t[0];
      forall i | 0 <= i < |rest| ensures t[3..3 + |rest|][i] == rest[i] {
        assert p[3 + i] == t[3 + i];
      }
    }
    if InVehicle(t, rest) {
      forall i | 0 <= i < |p| ensures p[i] == "+" || p[i] == t[i] {
        if 3 <= i {
          assert t[3..3 + |rest|][i - 3] == rest[i - 3];
        }
      }
    }
  }

  lemma ClientTree(action: string, t: seq<string>)
    requires action != "+"
    ensures Starts(["ovms", "+", "+", "client", "+", action], t)
       <==> InVehicle(t, ["client"]) && 6 <= |t| && t[5] == action
  {
    var p := ["ovms", "+", "+", "client", "+", action];
    TreeInVehicle(["client"], t);
    if Starts(p, t) {
      assert p[0] == t[0] && p[3] == t[3] && p[5] == t[5];
      assert t[3..4] == ["client"];
    }
    if InVehicle(t, ["client"]) && 6 <= |t| && t[5] == action {
      assert t[3..4][0] == t[3];
    }
  }

  lemma StateMeaning(access: Access, topic: string)
    ensures Permits(STATE, access, topic) <==> access == Read && Split(topic) == STATE_TOPIC
    ensures Printable(STATE)
  {
    PlainIsPrintable(STATE);
    StartsLiterally(STATE_TOPIC, Split(topic));
  }

  lemma TreeIsPrintable(p: Permit, rest: seq<string>)
    requires p.read || p.write
    requires p.levels == ["ovms", "+", "+"] + rest
    requires forall i :: 0 <= i < |rest| ==> IsLevel(rest[i]) && rest[i] != "#"
    ensures Printable(p)
  {
  }

  lemma {:induction false} MetricsMeaning(metrics: seq<seq<string>>, access: Access, topic: string)
    requires forall m :: m in metrics ==> PlainLevels(m)
    ensures SomePermits(MetricPermits(metrics), access, topic)
       <==> access == Read && IsMetric(metrics, Split(topic))
    ensures AllPrintablePermits(MetricPermits(metrics))
  {
    if metrics != [] {
      var rest := ["metric"] + metrics[0];
      var head := [ReadOne(["ovms", "+", "+"] + rest)];
      assert PlainLevels(metrics[0]);
      assert '+' in "+" && '#' in "#";
      TreeInVehicle(rest, Split(topic));
      TreeIsPrintable(head[0], rest);
      assert SomePermits(head, access, topic) <==> Permits(head[0], access, topic);
      SomeOfBoth(head, MetricPermits(metrics[1..]), access, topic);
      MetricsMeaning(metrics[1..], access, topic);
    }
  }

  lemma KartoMetricsArePlain()
    ensures forall m :: m in KartoMetrics() ==> PlainLevels(m)
  {
  }

  predicate AllPrintablePermits(permits: seq<Permit>) {
    forall j :: 0 <= j < |permits| ==> Printable(permits[j])
  }

  lemma AccountMeaning(
      user: string, configured: bool, permits: seq<Permit>, name: Option<string>, access: Access, topic: string)
    requires AllPrintablePermits(permits)
    ensures AllPrintable(Account(user, configured, permits))
    ensures SomeSection(Account(user, configured, permits), name, access, topic)
       <==> configured && name == Some(user) && SomePermits(permits, access, topic)
  {
    if configured {
      var sections := Account(user, configured, permits);
      assert SomeSection(sections, name, access, topic) <==> SectionAllows(sections[0], name, access, topic);
    }
  }

  lemma MetricsAccount(access: Access, topic: string)
    ensures AllPrintablePermits(MetricsPermits())
    ensures SomePermits(MetricsPermits(), access, topic) <==> MetricsMay(access, Split(topic))
  {
    TreeInVehicle(["metric"], Split(topic));
    TreeInVehicle(["event"], Split(topic));
    TreeIsPrintable(MetricsPermits()[0], ["metric"]);
    TreeIsPrintable(MetricsPermits()[1], ["event"]);
    StateMeaning(access, topic);
    var p := MetricsPermits();
    assert SomePermits(p, access, topic) <==>
      Permits(p[0], access, topic) || Permits(p[1], access, topic) || Permits(p[2], access, topic);
  }

  lemma NotifyAccount(access: Access, topic: string)
    ensures AllPrintablePermits(NotifyPermits())
    ensures SomePermits(NotifyPermits(), access, topic) <==> NotifyMay(access, Split(topic))
  {
    TreeInVehicle(["notify"], Split(topic));
    TreeIsPrintable(NotifyPermits()[0], ["notify"]);
    StateMeaning(access, topic);
    var p := NotifyPermits();
    assert SomePermits(p, access, topic) <==> Permits(p[0], access, topic) || Permits(p[1], access, topic);
  }

  lemma InteractiveAccount(access: Access, topic: string)
    ensures AllPrintablePermits(InteractivePermits())
    ensures SomePermits(InteractivePermits(), access, topic) <==> InteractiveMay(access, Split(topic))
  {
    ClientTree("command", Split(topic));
    ClientTree("response", Split(topic));
    TreeIsPrintable(InteractivePermits()[0], ["client", "+", "command"]);
    TreeIsPrintable(InteractivePermits()[1], ["client", "+", "response"]);
    StateMeaning(access, topic);
    var p := InteractivePermits();
    assert SomePermits(p, access, topic) <==>
      Permits(p[0], access, topic) || Permits(p[1], access, topic) || Permits(p[2], access, topic);
  }

  lemma TreeAlone(rest: seq<string>, access: Access, topic: string)
    requires PlainLevels(rest)
    ensures var permits := [ReadTree(["ovms", "+", "+"] + rest)];
      && AllPrintablePermits(permits)
      && (SomePermits(permits, access, topic) <==> access == Read && InVehicle(Split(topic), rest))
  {
    var permits := [ReadTree(["ovms", "+", "+"] + rest)];
    assert '+' in "+" && '#' in "#";
    TreeInVehicle(rest, Split(topic));
    TreeIsPrintable(permits[0], rest);
    assert SomePermits(permits, access, topic) <==> Permits(permits[0], access, topic);
  }

  lemma PrintableBoth(a: seq<Permit>, b: seq<Permit>)
    requires AllPrintablePermits(a) && AllPrintablePermits(b)
    ensures AllPrintablePermits(a + b)
  {
  }

  lemma DataIsPlain()
    ensures PlainLevels(["notify", "data"])
  {
  }

  lemma KartoAccount(access: Access, topic: string)
    ensures AllPrintablePermits(KartoPermits())
    ensures SomePermits(KartoPermits(), access, topic) <==> KartoMay(access, Split(topic))
  {
    hide *;
    DataIsPlain();
    KartoMetricsArePlain();
    MetricsMeaning(KartoMetrics(), access, topic);
    TreeAlone(["notify", "data"], access, topic);
    KartoPieces(access, topic);
  }

  lemma KartoPieces(access: Access, topic: string)
    requires var last := [ReadTree(["ovms", "+", "+"] + ["notify", "data"])];
      && AllPrintablePermits(MetricPermits(KartoMetrics())) && AllPrintablePermits(last)
      && SomePermits(MetricPermits(KartoMetrics()), access, topic)
         == (access == Read && IsMetric(KartoMetrics(), Split(topic)))
      && (SomePermits(last, access, topic) <==> access == Read && InVehicle(Split(topic), ["notify", "data"]))
    ensures AllPrintablePermits(KartoPermits())
    ensures SomePermits(KartoPermits(), access, topic) <==> KartoMay(access, Split(topic))
  {
    hide KartoMetrics, IsMetric, MetricPermits, InVehicle, SomePermits, ReadTree, AllPrintablePermits;
    var last := [ReadTree(["ovms", "+", "+"] + ["notify", "data"])];
    SomeOfBoth(MetricPermits(KartoMetrics()), last, access, topic);
    PrintableBoth(MetricPermits(KartoMetrics()), last);
  }

  lemma ServiceSectionsMeaning(services: Services, name: Option<string>, access: Access, topic: string)
    ensures AllPrintable(ServiceSections(services))
    ensures SomeSection(ServiceSections(services), name, access, topic)
       <==> name.Some? && ServiceMay(services, name.value, access, Split(topic))
  {
    hide MetricsPermits, NotifyPermits, InteractivePermits, KartoPermits, AllPrintablePermits,
         SomeSection, AllPrintable, SomePermits, Account, MetricsMay, NotifyMay, InteractiveMay, KartoMay;
    MetricsAccount(access, topic);
    NotifyAccount(access, topic);
    InteractiveAccount(access, topic);
    KartoAccount(access, topic);
    var a := Account(services.metricsUser, services.metricsUser != "", MetricsPermits());
    var b := Account(services.notifyUser, services.notifyUser != "", NotifyPermits());
    var c := Account(services.interactiveUser, services.interactiveUser != "", InteractivePermits());
    var d := Account(services.kartoUser, services.kartoEnabled && services.kartoUser != "", KartoPermits());
    AccountMeaning(services.metricsUser, services.metricsUser != "", MetricsPermits(), name, access, topic);
    AccountMeaning(services.notifyUser, services.notifyUser != "", NotifyPermits(), name, access, topic);
    AccountMeaning(services.interactiveUser, services.interactiveUser != "", InteractivePermits(), name, access, topic);
    AccountMeaning(
      services.kartoUser, services.kartoEnabled && services.kartoUser != "", KartoPermits(), name, access, topic);
    SomeSectionOfBoth(a + b + c, d, name, access, topic);
    SomeSectionOfBoth(a + b, c, name, access, topic);
    SomeSectionOfBoth(a, b, name, access, topic);
  }

  // -- the file ------------------------------------------------------------------------------

  ghost predicate IsHeader(header: seq<string>) {
    forall i :: 0 <= i < |header| ==> ParseLine(header[i]) == Ignored
  }

  lemma {:induction false} HeaderGrantsNothing(
      header: seq<string>, rest: seq<string>, name: Option<string>, access: Access, topic: string)
    requires IsHeader(header)
    ensures Grants(header + rest, None, name, access, topic) <==> Grants(rest, None, name, access, topic)
    decreases |header|
  {
    if header == [] {
      assert header + rest == rest;
    } else {
      assert (header + rest)[1..] == header[1..] + rest;
      HeaderGrantsNothing(header[1..], rest, name, access, topic);
    }
  }

  lemma SectionsAreTheFile(
      services: Services, db: Database, now: int, name: Option<string>, access: Access, topic: string)
    requires PlainNames(db)
    ensures AllPrintable(Sections(services, db, now))
    ensures SomeSection(Sections(services, db, now), name, access, topic)
       <==> Allowed(services, db, now, name, access, topic)
  {
    ServiceSectionsMeaning(services, name, access, topic);
    VehicleSectionsMeaning(db.vehicles, name, access, topic);
    KeySectionsMeaning(db, db.keys, now, name, access, topic);
    var a, b, c := ServiceSections(services), VehicleSections(db.vehicles), KeySections(db, db.keys, now);
    SomeSectionOfBoth(a + b, c, name, access, topic);
    SomeSectionOfBoth(a, b, name, access, topic);
    hide SomeSection, AllPrintable, ServiceMay, ServiceSections, VehicleSections, KeySections, KeyReaches;
    if name.Some? {
      assert VehicleMay(Database(db.vehicles, []), name.value, topic) <==> VehicleMay(db, name.value, topic);
      assert (exists k ::
                k in db.keys && LiveKey(k, now) && name == Some(k.prefix) && KeyReaches(db, k, now, access, topic))
        <==> KeyMay(db, now, name.value, access, topic);
    }
  }

  /** Read back line by line, the file grants an account a topic exactly when the policy
      does, whatever other accounts share its name; a client without a name gets nothing. */
  lemma FileMeansPolicy(
      header: seq<string>, services: Services, db: Database, now: int,
      name: Option<string>, access: Access, topic: string)
    requires IsHeader(header) && PlainNames(db)
    ensures AllPrintable(Sections(services, db, now))
    ensures Grants(header + SectionLines(Sections(services, db, now)), None, name, access, topic)
       <==> Allowed(services, db, now, name, access, topic)
  {
    SectionsAreTheFile(services, db, now, name, access, topic);
    HeaderGrantsNothing(header, SectionLines(Sections(services, db, now)), name, access, topic);
    FileMeansSections(Sections(services, db, now), None, name, access, topic);
  }

  /** With names of its own, a vehicle's account has its own subtree and nothing else. */
  lemma VehicleAccountAlone(
      header: seq<string>, services: Services, db: Database, now: int, v: Vehicle, access: Access, topic: string)
    requires IsHeader(header) && PlainNames(db) && v in db.vehicles && Eligible(v)
    requires forall w :: w in db.vehicles && Eligible(w) && Vid(w) == Vid(v) ==> w == v
    requires forall k :: k in db.keys ==> k.prefix != Vid(v)
    requires Vid(v) !in {services.metricsUser, services.notifyUser, services.interactiveUser, services.kartoUser}
    ensures AllPrintable(Sections(services, db, now))
    ensures Grants(header + SectionLines(Sections(services, db, now)), None, Some(Vid(v)), access, topic)
       <==> ["ovms", OwnerName(v), Vid(v)] <= Split(topic)
  {
    FileMeansPolicy(header, services, db, now, Some(Vid(v)), access, topic);
  }

  /** With a prefix of its own, a live key has what it reaches and nothing else. */
  lemma KeyAccountAlone(
      header: seq<string>, services: Services, db: Database, now: int, k: ApiKey, access: Access, topic: string)
    requires IsHeader(header) && PlainNames(db) && k in db.keys && LiveKey(k, now)
    requires forall j :: j in db.keys && LiveKey(j, now) && j.prefix == k.prefix ==> j == k
    requires forall v :: v in db.vehicles && Eligible(v) ==> Vid(v) != k.prefix
    requires k.prefix !in {services.metricsUser, services.notifyUser, services.interactiveUser, services.kartoUser}
    ensures AllPrintable(Sections(services, db, now))
    ensures Grants(header + SectionLines(Sections(services, db, now)), None, Some(k.prefix), access, topic)
       <==> KeyReaches(db, k, now, access, topic)
  {
    hide Grants, Allowed, Sections, SectionLines, KeyReaches, IsHeader, PlainNames;
    FileMeansPolicy(header, services, db, now, Some(k.prefix), access, topic);
    KeyNameAlone(services, db, now, k, access, topic);
  }

  lemma KeyNameAlone(services: Services, db: Database, now: int, k: ApiKey, access: Access, topic: string)
    requires k in db.keys && LiveKey(k, now)
    requires forall j :: j in db.keys && LiveKey(j, now) && j.prefix == k.prefix ==> j == k
    requires forall v :: v in db.vehicles && Eligible(v) ==> Vid(v) != k.prefix
    requires k.prefix !in {services.metricsUser, services.notifyUser, services.interactiveUser, services.kartoUser}
    ensures Allowed(services, db, now, Some(k.prefix), access, topic) <==> KeyReaches(db, k, now, access, topic)
  {
    hide KeyReaches, Split, LiveKey, Eligible, Vid;
  }
}
