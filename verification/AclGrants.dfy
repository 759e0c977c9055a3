/** What the printed file grants a vehicle's account and a key, in terms of the rows of the
    database alone: protocols, owners, dates and consents. */
module AclGrants {
  import opened Wrappers
  import opened TopicFilter
  import opened AclFile
  import opened AclPolicy

  /** Folding leaves no lower-case letter, touches nothing else, and folding twice is folding
      once; so two ids that differ in case only are one account. */
  lemma UpperFolds(s: string)
    ensures |Upper(s)| == |s| && Upper(Upper(s)) == Upper(s)
    ensures forall i :: 0 <= i < |s| ==> !('a' <= Upper(s)[i] <= 'z')
    ensures forall i :: 0 <= i < |s| && !('a' <= s[i] <= 'z') ==> Upper(s)[i] == s[i]
    ensures forall i :: 0 <= i < |s| && 'a' <= s[i] <= 'z' ==> Upper(s)[i] as int == s[i] as int - 32
  {
  }

  /** A vehicle on the broker belongs to an active, named owner and speaks its protocol. */
  predicate OnBroker(v: Vehicle) {
    && (v.protocol == "v3" || v.protocol == "both")
    && v.owner.Some? && v.owner.value.active && v.owner.value.username != ""
  }

  /** The levels below a vehicle's own, and the ones a client of it may write. */
  predicate BelowVehicle(v: Vehicle, access: Access, t: seq<string>) {
    && v.owner.Some? && 3 <= |t| && t[0] == "ovms" && t[1] == v.owner.value.username && t[2] == Upper(v.vehicleId)
    && (access == Write ==> 4 <= |t| && t[3] == "client")
  }

  lemma PrefixOfThree(a: string, b: string, c: string, t: seq<string>)
    ensures [a, b, c] <= t <==> 3 <= |t| && t[0] == a && t[1] == b && t[2] == c
  {
  }

  lemma PrefixOfFour(a: string, b: string, c: string, d: string, t: seq<string>)
    ensures [a, b, c, d] <= t <==> 4 <= |t| && t[0] == a && t[1] == b && t[2] == c && t[3] == d
  {
  }

  lemma OnBrokerMeans(v: Vehicle, access: Access, t: seq<string>)
    ensures OnBroker(v) <==> Eligible(v)
    ensures Eligible(v) ==> (UseOfVehicle(v, access, t) <==> BelowVehicle(v, access, t))
  {
    if Eligible(v) {
      PrefixOfThree("ovms", OwnerName(v), Vid(v), t);
      PrefixOfFour("ovms", OwnerName(v), Vid(v), "client", t);
    }
    hide Upper;
  }

  /** The owner's own consent, while it runs. */
  predicate UnderSupport(v: Vehicle, now: int) {
    v.supportUntil.Some? && now < v.supportUntil.value && v.supportGrantedBy == Some(v.ownerId)
  }

  /** A key that is switched on, not past its date, and whose user is active and has a name. */
  predicate InForce(k: ApiKey, now: int) {
    && k.active && (k.expiresAt.Some? ==> now < k.expiresAt.value)
    && k.user.Some? && k.user.value.active && k.user.value.username != ""
  }

  /** The user's own vehicle, or one under support for an administrator's key that the server
      did not make for itself. */
  predicate MayUse(k: ApiKey, v: Vehicle, now: int) {
    && k.user.Some? && v.owner.Some?
    && (v.owner.value.username == k.user.value.username
        || (k.user.value.admin && !("temp-karto-delete-" <= k.name) && UnderSupport(v, now)))
  }

  lemma ReachesMeans(k: ApiKey, v: Vehicle, now: int)
    requires LiveKey(k, now) && Eligible(v)
    ensures Reaches(k, v, now) <==> MayUse(k, v, now)
    ensures OwnerName(v) == v.owner.value.username
  {
  }

  ghost predicate OwnsVehicle(db: Database, username: string) {
    exists v :: v in db.vehicles && OnBroker(v) && v.owner.value.username == username
  }

  /** Discovery under the user's name: the version of any vehicle, and the clients' tree. */
  predicate DiscoveryTopic(username: string, access: Access, t: seq<string>) {
    match access
    case Read =>
      && |t| == 6 && t[0] == "ovms" && t[1] == username && t[3] == "metric" && t[4] == "m" && t[5] == "version"
    case Write => 4 <= |t| && t[0] == "ovms" && t[1] == username && t[2] == "discovery" && t[3] == "client"
  }

  lemma DiscoveryMeans(username: string, access: Access, t: seq<string>)
    ensures Discovery(username, access, t) <==> DiscoveryTopic(username, access, t)
  {
    PrefixOfFour("ovms", username, "discovery", "client", t);
    if |t| == 6 {
      assert t[..2] == [t[0], t[1]] && t[3..] == [t[3], t[4], t[5]];
    }
  }

  ghost predicate KeyIsGranted(db: Database, k: ApiKey, now: int, access: Access, t: seq<string>) {
    && InForce(k, now)
    && ((exists v :: v in db.vehicles && OnBroker(v) && MayUse(k, v, now) && BelowVehicle(v, access, t))
        || (OwnsVehicle(db, k.user.value.username) && DiscoveryTopic(k.user.value.username, access, t)))
  }

  lemma KeyReachesMeans(db: Database, k: ApiKey, now: int, access: Access, topic: string)
    ensures LiveKey(k, now) <==> InForce(k, now)
    ensures LiveKey(k, now) ==> (KeyReaches(db, k, now, access, topic)
      <==> KeyIsGranted(db, k, now, access, Split(topic)))
  {
    if LiveKey(k, now) {
      var t, name := Split(topic), k.user.value.username;
      DiscoveryMeans(name, access, t);
      forall v ensures OnBroker(v) <==> Eligible(v)
        ensures Eligible(v) ==> (UseOfVehicle(v, access, t) <==> BelowVehicle(v, access, t))
        ensures Eligible(v) ==> (Reaches(k, v, now) <==> MayUse(k, v, now))
        ensures Eligible(v) ==> OwnerName(v) == v.owner.value.username
      {
        OnBrokerMeans(v, access, t);
        if Eligible(v) {
          ReachesMeans(k, v, now);
        }
      }
      hide Split, Eligible, OnBroker, UseOfVehicle, BelowVehicle, Reaches, MayUse, OwnerName, Discovery, DiscoveryTopic;
      hide LiveKey, InForce;
      assert OwnsOne(db, name) <==> OwnsVehicle(db, name);
    }
  }

  predicate OnlyKeyName(services: Services, db: Database, k: ApiKey) {
    && (forall j :: j in db.keys && j.prefix == k.prefix ==> j == k)
    && (forall v :: v in db.vehicles ==> Upper(v.vehicleId) != k.prefix)
    && k.prefix !in {services.metricsUser, services.notifyUser, services.interactiveUser, services.kartoUser}
  }

  lemma OnlyTheKeyMay(services: Services, db: Database, now: int, k: ApiKey, access: Access, topic: string)
    requires k in db.keys && OnlyKeyName(services, db, k)
    ensures Allowed(services, db, now, Some(k.prefix), access, topic)
       <==> LiveKey(k, now) && KeyReaches(db, k, now, access, topic)
  {
    hide KeyReaches, LiveKey, Upper, Split;
  }

  lemma KeyIsGrantedInForce(db: Database, k: ApiKey, now: int, access: Access, t: seq<string>)
    ensures KeyIsGranted(db, k, now, access, t) ==> InForce(k, now)
  {
  }

  /** What the file grants under a key's prefix that nothing else carries: nothing unless the key
      is in force, and then what its user's consent and vehicles allow. */
  lemma KeyGrantIff(
      header: seq<string>, services: Services, db: Database, now: int, k: ApiKey, access: Access, topic: string)
    requires IsHeader(header) && PlainNames(db) && k in db.keys && OnlyKeyName(services, db, k)
    ensures AllPrintable(Sections(services, db, now))
    ensures Grants(header + SectionLines(Sections(services, db, now)), None, Some(k.prefix), access, topic)
       <==> KeyIsGranted(db, k, now, access, Split(topic))
  {
    hide *;
    FileMeansPolicy(header, services, db, now, Some(k.prefix), access, topic);
    OnlyTheKeyMay(services, db, now, k, access, topic);
    KeyReachesMeans(db, k, now, access, topic);
    KeyIsGrantedInForce(db, k, now, access, Split(topic));
  }

  /** So a key past its date, switched off, or of a user who is not active has no topic left. */
  lemma DeadKeyHasNothing(
      header: seq<string>, services: Services, db: Database, now: int, k: ApiKey, access: Access, topic: string)
    requires IsHeader(header) && PlainNames(db) && k in db.keys && OnlyKeyName(services, db, k)
    requires !k.active || k.user.None? || !k.user.value.active || (k.expiresAt.Some? && k.expiresAt.value <= now)
    ensures AllPrintable(Sections(services, db, now))
    ensures !Grants(header + SectionLines(Sections(services, db, now)), None, Some(k.prefix), access, topic)
  {
    assert !InForce(k, now);
    hide *;
    KeyGrantIff(header, services, db, now, k, access, topic);
    KeyIsGrantedInForce(db, k, now, access, Split(topic));
  }

  predicate OnlyVehicleName(services: Services, db: Database, v: Vehicle) {
    && (forall w :: w in db.vehicles && Upper(w.vehicleId) == Upper(v.vehicleId) ==> w == v)
    && (forall k :: k in db.keys ==> k.prefix != Upper(v.vehicleId))
    && Upper(v.vehicleId) !in {services.metricsUser, services.notifyUser, services.interactiveUser, services.kartoUser}
  }

  lemma OnlyTheVehicleMay(services: Services, db: Database, now: int, v: Vehicle, access: Access, topic: string)
    requires v in db.vehicles && OnlyVehicleName(services, db, v)
    ensures Allowed(services, db, now, Some(Upper(v.vehicleId)), access, topic)
       <==> Eligible(v) && ["ovms", OwnerName(v), Vid(v)] <= Split(topic)
  {
    hide KeyReaches, LiveKey, Upper, Split;
  }

  /** What the file grants a vehicle's account under a name that nothing else carries: its own
      subtree, both ways, exactly while it is on the broker. */
  lemma VehicleGrantIff(
      header: seq<string>, services: Services, db: Database, now: int, v: Vehicle, access: Access, topic: string)
    requires IsHeader(header) && PlainNames(db) && v in db.vehicles && OnlyVehicleName(services, db, v)
    ensures AllPrintable(Sections(services, db, now))
    ensures Grants(header + SectionLines(Sections(services, db, now)), None, Some(Upper(v.vehicleId)), access, topic)
       <==> OnBroker(v) && BelowVehicle(v, Read, Split(topic))
  {
    hide *;
    FileMeansPolicy(header, services, db, now, Some(Upper(v.vehicleId)), access, topic);
    OnlyTheVehicleMay(services, db, now, v, access, topic);
    OnBrokerMeans(v, Read, Split(topic));
    SubtreeIsReading(v, Split(topic));
  }

  lemma SubtreeIsReading(v: Vehicle, t: seq<string>)
    ensures Eligible(v) ==> (["ovms", OwnerName(v), Vid(v)] <= t <==> UseOfVehicle(v, Read, t))
  {
    hide Upper;
  }

  // -- the rules of the service accounts, as text ----------------------------------------------------

  lemma JoinTwo(a: string, rest: seq<string>)
    requires rest != []
    ensures Join([a] + rest) == a + "/" + Join(rest)
  {
    assert ([a] + rest)[1..] == rest;
  }

  lemma JoinThree(a: string, b: string, c: string)
    ensures Join([a, b, c]) == a + "/" + b + "/" + c
  {
    assert [a, b, c] == [a] + [b, c] && [b, c] == [b] + [c] && Join([c]) == c;
    JoinTwo(b, [c]);
    JoinTwo(a, [b, c]);
  }

  lemma BelowAnyVehicle(rest: seq<string>)
    requires rest != []
    ensures Join(["ovms", "+", "+"] + rest) == "ovms/+/+/" + Join(rest)
  {
    assert ["ovms", "+", "+"] + rest == ["ovms"] + (["+"] + (["+"] + rest));
    JoinTwo("+", rest);
    JoinTwo("+", ["+"] + rest);
    JoinTwo("ovms", ["+"] + (["+"] + rest));
  }

  lemma TreeLine(rest: seq<string>)
    ensures PermitLine(ReadTree(["ovms", "+", "+"] + rest)) == "topic read ovms/+/+/" + Join(rest + ["#"])
  {
    assert ["ovms", "+", "+"] + rest + ["#"] == ["ovms", "+", "+"] + (rest + ["#"]);
    BelowAnyVehicle(rest + ["#"]);
  }

  lemma LeafLine(rest: seq<string>)
    requires rest != []
    ensures PermitLine(ReadOne(["ovms", "+", "+"] + rest)) == "topic read ovms/+/+/" + Join(rest)
  {
    BelowAnyVehicle(rest);
  }

  lemma StateLine()
    ensures PermitLine(STATE) == "topic read $SYS/broker/state"
  {
    JoinThree("$SYS", "broker", "state");
  }

  /** What is printed for the accounts that watch metrics and notifications. */
  lemma WatchersLines()
    ensures AllPrintablePermits(MetricsPermits()) && AllPrintablePermits(NotifyPermits())
    ensures PermitLines(MetricsPermits()) ==
      ["topic read ovms/+/+/metric/#", "topic read ovms/+/+/event/#", "topic read $SYS/broker/state"]
    ensures PermitLines(NotifyPermits()) == ["topic read ovms/+/+/notify/#", "topic read $SYS/broker/state"]
  {
    MetricsAccount(Read, "");
    NotifyAccount(Read, "");
    TreeLine(["metric"]);
    TreeLine(["event"]);
    TreeLine(["notify"]);
    JoinTwoLevels("metric", "#");
    JoinTwoLevels("event", "#");
    JoinTwoLevels("notify", "#");
    StateLine();
    assert "topic read ovms/+/+/" + ("metric" + "/" + "#") == "topic read ovms/+/+/metric/#";
    assert "topic read ovms/+/+/" + ("event" + "/" + "#") == "topic read ovms/+/+/event/#";
    assert "topic read ovms/+/+/" + ("notify" + "/" + "#") == "topic read ovms/+/+/notify/#";
    hide Join, PermitLine, ReadTree;
    ThreeLines(MetricsPermits());
    TwoLines(NotifyPermits());
  }

  lemma JoinTwoLevels(a: string, b: string)
    ensures [a] + [b] == [a, b] && Join([a] + [b]) == a + "/" + b
  {
    JoinTwo(a, [b]);
    assert Join([b]) == b;
  }

  lemma TwoLines(p: seq<Permit>)
    requires |p| == 2 && forall j :: 0 <= j < |p| ==> Printable(p[j])
    ensures p[0].levels != [] && p[1].levels != []
    ensures PermitLines(p) == [PermitLine(p[0]), PermitLine(p[1])]
  {
    assert Printable(p[0]) && Printable(p[1]);
    var rest := p[1..];
    assert rest[0] == p[1] && rest[1..] == [];
    hide Printable, PermitLine;
    assert PermitLines(rest[1..]) == [];
    assert PermitLines(rest) == [PermitLine(p[1])] + PermitLines(rest[1..]);
  }

  lemma ThreeLines(p: seq<Permit>)
    requires |p| == 3 && forall j :: 0 <= j < |p| ==> Printable(p[j])
    ensures p[0].levels != [] && p[1].levels != [] && p[2].levels != []
    ensures PermitLines(p) == [PermitLine(p[0]), PermitLine(p[1]), PermitLine(p[2])]
  {
    assert Printable(p[0]);
    TwoLines(p[1..]);
    hide PermitLine;
  }

  /** The metrics the tracking account reads, each as one topic of any vehicle. */
  const TRACKED: seq<string> :=
    ["v/e/on", "v/b/soc", "v/b/energy/used", "v/b/capacity", "v/p/latitude", "v/p/longitude", "v/p/altitude",
     "v/p/speed", "v/p/gpslock", "m/time/utc"]

  lemma JoinIsText(m: seq<string>, a: string, b: string, c: string, text: string)
    requires m == [a, b, c] && text == a + ("/" + (b + ("/" + c)))
    ensures Join(m) == text
  {
    JoinThree(a, b, c);
    assert a + "/" + b + "/" + c == text;
  }

  lemma EnergyIsText()
    ensures Join(["v", "b", "energy", "used"]) == "v/b/energy/used"
  {
    assert ["v", "b", "energy", "used"] == ["v"] + ["b", "energy", "used"];
    JoinTwo("v", ["b", "energy", "used"]);
    JoinThree("b", "energy", "used");
    assert "v" + "/" + ("b" + "/" + "energy" + "/" + "used") == "v/b/energy/used";
  }

  /** Each is printed as one topic of any vehicle. */
  lemma TrackedMetrics(i: nat)
    requires i < 10
    ensures |KartoMetrics()| == 10 && KartoMetrics()[i] != []
    ensures PermitLine(ReadOne(["ovms", "+", "+"] + (["metric"] + KartoMetrics()[i])))
         == "topic read ovms/+/+/" + ("metric" + "/" + TRACKED[i])
  {
    var m := KartoMetrics()[i];
    TrackedText(i);
    hide Join, PermitLine, KartoMetrics;
    LeafLine(["metric"] + m);
    JoinTwo("metric", m);
  }

  lemma TrackedText(i: nat)
    requires i < 10
    ensures |KartoMetrics()| == 10 && KartoMetrics()[i] != [] && Join(KartoMetrics()[i]) == TRACKED[i]
  {
    hide Join;
    match i {
      case 0 => JoinIsText(KartoMetrics()[0], "v", "e", "on", "v/e/on");
      case 1 => JoinIsText(KartoMetrics()[1], "v", "b", "soc", "v/b/soc");
      case 2 => EnergyIsText();
      case 3 => JoinIsText(KartoMetrics()[3], "v", "b", "capacity", "v/b/capacity");
      case 4 => JoinIsText(KartoMetrics()[4], "v", "p", "latitude", "v/p/latitude");
      case 5 => JoinIsText(KartoMetrics()[5], "v", "p", "longitude", "v/p/longitude");
      case 6 => JoinIsText(KartoMetrics()[6], "v", "p", "altitude", "v/p/altitude");
      case 7 => JoinIsText(KartoMetrics()[7], "v", "p", "speed", "v/p/speed");
      case 8 => JoinIsText(KartoMetrics()[8], "v", "p", "gpslock", "v/p/gpslock");
      case 9 => JoinIsText(KartoMetrics()[9], "m", "time", "utc", "m/time/utc");
    }
  }
}
