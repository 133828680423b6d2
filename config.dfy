/**
 * The configuration record shapes of config/config.go and the defaulting
 * step `(*Config).init` that runs after the JSON document is decoded.
 */
module Config {
  import opened Wrappers

  const DefaultProfileName: string := "default"
  const DefaultMeasurement: string := "consumer_metrics"
  const DefaultOffsetsTopic: string := "__consumer_offsets"

  /** Connection and naming settings of the time-series store. */
  datatype InfluxDB = InfluxDB(
    Db: string,
    Enable: bool,
    Hosts: string,
    Pwd: string,
    Username: string,
    Measurement: string,
    ExtraTags: map<string, string>)

  /** The anonymous `General` section. */
  datatype General = General(
    ClientID: string,
    GroupBlacklist: string,
    Logconfig: string,
    Pidfile: string,
    TopicFilter: string)

  datatype Sasl = Sasl(Username: string, Password: string)

  /** The anonymous `Zookeeper` section. */
  datatype Zookeeper = Zookeeper(Hosts: string, LockPath: string, Timeout: int)

  /** A Kafka client profile. */
  datatype Profile = Profile(
    ClientID: string,
    TLS: bool,
    TLSNoVerify: bool,
    TLSCertFilePath: string,
    TLSKeyFilePath: string,
    TLSCAFilePath: string)

  /** The value of one Kafka cluster entry. */
  datatype KafkaSettings = KafkaSettings(
    Brokers: string,
    Zookeepers: string,
    ClientProfile: string,
    OffsetsTopic: string,
    Sasl: Sasl)

  /**
   * The whole configuration as a value. A nil `ClientProfile` map is `None`;
   * a nil `Kafka` map behaves as an empty one for everything `init` does.
   */
  datatype Settings = Settings(
    General: General,
    InfluxDB: InfluxDB,
    Kafka: map<string, KafkaSettings>,
    Zookeeper: Zookeeper,
    ClientProfile: Option<map<string, Profile>>)

  /** The profile `init` creates when none is named "default": only the client id is set. */
  function NewDefaultProfile(clientID: string): (p: Profile)
    ensures p.ClientID == clientID && !p.TLS && !p.TLSNoVerify
    ensures p.TLSCertFilePath == "" && p.TLSKeyFilePath == "" && p.TLSCAFilePath == ""
  {
    Profile(clientID, false, false, "", "", "")
  }

  /** The profile map after `init`: nil becomes empty, then "default" is added if absent. */
  function DefaultProfiles(profiles: Option<map<string, Profile>>, clientID: string): (r: map<string, Profile>)
    ensures DefaultProfileName in r
    ensures profiles.Some? ==> r.Keys == profiles.value.Keys + {DefaultProfileName}
    ensures profiles.None? ==> r.Keys == {DefaultProfileName}
    ensures profiles.Some? ==> forall name :: name in profiles.value ==> r[name] == profiles.value[name]
    ensures (profiles.None? || DefaultProfileName !in profiles.value) ==>
              r[DefaultProfileName] == NewDefaultProfile(clientID)
  {
    var m := if profiles.None? then map[] else profiles.value;
    if DefaultProfileName in m then m else m[DefaultProfileName := NewDefaultProfile(clientID)]
  }

  /** The measurement name after `init`. */
  function DefaultMeasurementName(measurement: string): (r: string)
    ensures r != ""
    ensures measurement != "" ==> r == measurement
    ensures measurement == "" ==> r == DefaultMeasurement
  {
    if measurement == "" then DefaultMeasurement else measurement
  }

  /** One Kafka entry after `init`: empty `OffsetsTopic` and `ClientProfile` get defaults. */
  function DefaultKafka(k: KafkaSettings): (r: KafkaSettings)
    ensures r.OffsetsTopic != "" && r.ClientProfile != ""
    ensures k.OffsetsTopic != "" ==> r.OffsetsTopic == k.OffsetsTopic
    ensures k.OffsetsTopic == "" ==> r.OffsetsTopic == DefaultOffsetsTopic
    ensures k.ClientProfile != "" ==> r.ClientProfile == k.ClientProfile
    ensures k.ClientProfile == "" ==> r.ClientProfile == DefaultProfileName
    ensures r.Brokers == k.Brokers && r.Zookeepers == k.Zookeepers && r.Sasl == k.Sasl
  {
    k.(OffsetsTopic := if k.OffsetsTopic == "" then DefaultOffsetsTopic else k.OffsetsTopic,
       ClientProfile := if k.ClientProfile == "" then DefaultProfileName else k.ClientProfile)
  }

  /** Defaulting an entry that already has its defaults changes nothing. */
  lemma DefaultKafkaIdempotent(k: KafkaSettings)
    ensures DefaultKafka(DefaultKafka(k)) == DefaultKafka(k)
  {
  }

  /** Every Kafka entry defaulted, the key set unchanged. */
  function DefaultClusters(kafka: map<string, KafkaSettings>): (r: map<string, KafkaSettings>)
    ensures r.Keys == kafka.Keys
    ensures forall name :: name in kafka ==> r[name] == DefaultKafka(kafka[name])
  {
    map name | name in kafka :: DefaultKafka(kafka[name])
  }

  /** A map that holds the defaulted entry under every key of `kafka` is `DefaultClusters(kafka)`. */
  lemma DefaultClustersPointwise(m: map<string, KafkaSettings>, kafka: map<string, KafkaSettings>)
    requires m.Keys == kafka.Keys
    requires forall name :: name in kafka ==> m[name] == DefaultKafka(kafka[name])
    ensures m == DefaultClusters(kafka)
  {
  }

  /** Specification of `init` on configuration values. */
  function Defaulted(c: Settings): (r: Settings)
  {
    Settings(
      c.General,
      c.InfluxDB.(Measurement := DefaultMeasurementName(c.InfluxDB.Measurement)),
      DefaultClusters(c.Kafka),
      c.Zookeeper,
      Some(DefaultProfiles(c.ClientProfile, c.General.ClientID)))
  }

  /** What holds of every configuration once `init` has run. */
  ghost predicate WellDefaulted(c: Settings)
  {
    && c.ClientProfile.Some?
    && DefaultProfileName in c.ClientProfile.value
    && c.InfluxDB.Measurement != ""
    && forall name :: name in c.Kafka ==>
         c.Kafka[name].OffsetsTopic != "" && c.Kafka[name].ClientProfile != ""
  }

  /** After `init`: a "default" profile exists, the measurement and every Kafka entry are filled in. */
  lemma DefaultedEstablishes(c: Settings)
    ensures WellDefaulted(Defaulted(c))
  {
  }

  /**
   * `init` touches nothing but the four defaulted settings: the General,
   * Zookeeper and store sections other than the measurement, the Kafka key
   * set and each entry's brokers, zookeepers and SASL settings, and every
   * profile already present.
   */
  lemma DefaultedPreserves(c: Settings)
    ensures Defaulted(c).General == c.General && Defaulted(c).Zookeeper == c.Zookeeper
    ensures Defaulted(c).InfluxDB == c.InfluxDB.(Measurement := Defaulted(c).InfluxDB.Measurement)
    ensures Defaulted(c).Kafka.Keys == c.Kafka.Keys
    ensures forall name :: name in c.Kafka ==>
              && Defaulted(c).Kafka[name].Brokers == c.Kafka[name].Brokers
              && Defaulted(c).Kafka[name].Zookeepers == c.Kafka[name].Zookeepers
              && Defaulted(c).Kafka[name].Sasl == c.Kafka[name].Sasl
    ensures c.ClientProfile.Some? ==> forall name :: name in c.ClientProfile.value ==>
              name in Defaulted(c).ClientProfile.value &&
              Defaulted(c).ClientProfile.value[name] == c.ClientProfile.value[name]
  {
  }

  /** A configuration that `init` already filled in is a fixed point of `init`. */
  lemma WellDefaultedIsFixed(c: Settings)
    requires WellDefaulted(c)
    ensures Defaulted(c) == c
  {
  }

  /** Running `init` twice gives what running it once gives. */
  lemma DefaultedIdempotent(c: Settings)
    ensures Defaulted(Defaulted(c)) == Defaulted(c)
  {
  }

  /**
   * The loop of `init` over the Kafka map: the defaults are written through
   * each entry pointer. Two keys may share one entry; defaulting an entry
   * twice does what defaulting it once does.
   */
  method DefaultEntries(entries: map<string, KafkaCluster>, ghost values: map<string, KafkaSettings>)
    requires EntryValues(entries) == values
    modifies entries.Values
    ensures EntryValues(entries) == DefaultClusters(values)
  {
    ghost var done: set<KafkaCluster> := {};
    var pending := entries.Keys;
    while pending != {}
      invariant pending <= entries.Keys
      invariant forall name :: name in entries ==>
                  entries[name].Value() == if entries[name] in done then DefaultKafka(values[name]) else values[name]
      invariant forall name :: name in entries && name !in pending ==> entries[name] in done
      decreases pending
    {
      var name :| name in pending;
      var entry := entries[name];
      DefaultKafkaIdempotent(values[name]);
      entry.ApplyDefaults();
      done := done + {entry};
      pending := pending - {name};
    }
    DefaultClustersPointwise(EntryValues(entries), values);
  }

  /** A map of entry pointers with every pointer followed. */
  function EntryValues(entries: map<string, KafkaCluster>): (r: map<string, KafkaSettings>)
    reads entries.Values
    ensures r.Keys == entries.Keys
    ensures forall name :: name in entries ==> r[name] == entries[name].Value()
  {
    map name | name in entries :: entries[name].Value()
  }

  /** One Kafka cluster entry; `Config.Kafka` holds pointers to these. */
  class KafkaCluster {
    var Brokers: string
    var Zookeepers: string
    var ClientProfile: string
    var OffsetsTopic: string
    var Sasl: Sasl

    function Value(): KafkaSettings
      reads this
    {
      KafkaSettings(Brokers, Zookeepers, ClientProfile, OffsetsTopic, Sasl)
    }

    /** The two defaulting writes `init` makes through one entry pointer. */
    method ApplyDefaults()
      modifies this
      ensures Value() == DefaultKafka(old(Value()))
    {
      if OffsetsTopic == "" {
        OffsetsTopic := DefaultOffsetsTopic;
      }
      if ClientProfile == "" {
        ClientProfile := DefaultProfileName;
      }
    }

    constructor (v: KafkaSettings)
      ensures Value() == v
    {
      Brokers, Zookeepers, ClientProfile, OffsetsTopic, Sasl :=
        v.Brokers, v.Zookeepers, v.ClientProfile, v.OffsetsTopic, v.Sasl;
    }
  }

  /** The decoded configuration, updated in place by `Init`. */
  class Config {
    var General: General
    var InfluxDB: InfluxDB
    const Kafka: map<string, KafkaCluster>
    var Zookeeper: Zookeeper
    var ClientProfile: Option<map<string, Profile>>

    /** The configuration as a value; two keys may share one entry object. */
    function Value(): Settings
      reads this, Kafka.Values
    {
      Settings(General, InfluxDB, EntryValues(Kafka), Zookeeper, ClientProfile)
    }

    /**
     * A decoded configuration. The Kafka map itself is fixed once decoded:
     * `init` writes through its entries but never replaces it.
     */
    constructor (s: Settings, entries: map<string, KafkaCluster>)
      requires EntryValues(entries) == s.Kafka
      ensures Kafka == entries && Value() == s
    {
      General, InfluxDB, Kafka, Zookeeper, ClientProfile :=
        s.General, s.InfluxDB, entries, s.Zookeeper, s.ClientProfile;
    }

    /** The part of `init` before its loop: the "default" profile and the measurement name. */
    method DefaultTopLevel()
      modifies this
      ensures General == old(General) && Zookeeper == old(Zookeeper)
      ensures ClientProfile == Some(DefaultProfiles(old(ClientProfile), General.ClientID))
      ensures InfluxDB == old(InfluxDB).(Measurement := DefaultMeasurementName(old(InfluxDB).Measurement))
    {
      if ClientProfile.None? {
        ClientProfile := Some(map[]);
      }
      if DefaultProfileName !in ClientProfile.value {
        ClientProfile := Some(ClientProfile.value[DefaultProfileName := NewDefaultProfile(General.ClientID)]);
      }

      if InfluxDB.Measurement == "" {
        InfluxDB := InfluxDB.(Measurement := DefaultMeasurement);
      }
    }

    /**
     * `(*Config).init`: fills in the defaults in place, writing the Kafka
     * defaults through each entry object. What it does to the configuration
     * is `Defaulted`; the lemmas above say what that establishes, preserves,
     * and that a second call changes nothing.
     */
    method Init()
      modifies this, Kafka.Values
      ensures Value() == Defaulted(old(Value()))
    {
      ghost var before := EntryValues(Kafka);
      DefaultTopLevel();
      DefaultEntries(Kafka, before);
    }
  }
}
