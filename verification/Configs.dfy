/**
  The repository's configuration: compression levels, what a second init keeps, the stored record, and the two
  operations that replace it. The stored record is one object, put in one piece.
 */
module Configs {
  import opened Outcomes
  import opened Primitives
  import opened S3Objects

  const UINT64_LIMIT := 0x1_0000_0000_0000_0000

  const DEFAULT_ENCRYPTION_TYPE := "aes-256-gcm"
  const DEFAULT_KEY_ENCRYPTION := "rsa-oaep-sha256"

  // Compression (repository/compression.go)

  const DEFAULT_ZSTD_LEVEL := 3
  const MINIMUM_ZSTD_LEVEL := 1
  const MAXIMUM_ZSTD_LEVEL := 22
  const DEFAULT_GZIP_LEVEL := 6
  const MINIMUM_GZIP_LEVEL := 1
  const MAXIMUM_GZIP_LEVEL := 9
  const DEFAULT_LZ4_LEVEL := 0
  const MINIMUM_LZ4_LEVEL := 0
  const MAXIMUM_LZ4_LEVEL := 9

  function TypeText(compType: CompressionType): string {
    match compType
    case Uncompressed => "none"
    case Zstd => "zstd"
    case Lz4 => "lz4"
    case Xz => "xz"
    case Gzip => "gzip"
  }

  function ParseCompressionType(text: string): (r: Option<CompressionType>)
    ensures forall compType :: r == Some(compType) <==> text == TypeText(compType)
  {
    if text == "none" then Some(Uncompressed)
    else if text == "zstd" then Some(Zstd)
    else if text == "lz4" then Some(Lz4)
    else if text == "xz" then Some(Xz)
    else if text == "gzip" then Some(Gzip)
    else None
  }

  /** The level a type runs at when none is given, and the levels it accepts; none and xz have no level at all. */
  function DefaultLevel(compType: CompressionType): int {
    match compType case Zstd => DEFAULT_ZSTD_LEVEL case Gzip => DEFAULT_GZIP_LEVEL case _ => DEFAULT_LZ4_LEVEL
  }

  predicate HasLevels(compType: CompressionType) { compType.Zstd? || compType.Gzip? || compType.Lz4? }

  predicate AcceptsLevel(compType: CompressionType, level: int) {
    match compType
    case Zstd => MINIMUM_ZSTD_LEVEL <= level <= MAXIMUM_ZSTD_LEVEL
    case Gzip => MINIMUM_GZIP_LEVEL <= level <= MAXIMUM_GZIP_LEVEL
    case Lz4 => MINIMUM_LZ4_LEVEL <= level <= MAXIMUM_LZ4_LEVEL
    case _ => true
  }

  /** A compression as every stored record has it: with a level exactly where the type has levels. */
  predicate Normal(comp: Compression) {
    if HasLevels(comp.compType) then comp.level.Some? && AcceptsLevel(comp.compType, comp.level.value)
        else comp.level == None
  }

  class CompressionSetting {
    const compType: CompressionType
    var level: Option<int>

    constructor (compType: CompressionType, level: Option<int>)
      ensures this.compType == compType && this.level == level
    {
      this.compType, this.level := compType, level;
    }

    method Validate() returns (ok: bool)
      modifies this`level
      ensures ok <==> (old(level).Some? && HasLevels(compType) ==> AcceptsLevel(compType, old(level).value))
      ensures ok ==> Normal(Compression(compType, level))
      ensures ok && HasLevels(compType) ==>
                level == Some(if old(level).Some? then old(level).value else DefaultLevel(compType))
    {
      match compType
      case Zstd =>
        if level == None { level := Some(DEFAULT_ZSTD_LEVEL); }
        ok := MINIMUM_ZSTD_LEVEL <= level.value <= MAXIMUM_ZSTD_LEVEL;
      case Gzip =>
        if level == None { level := Some(DEFAULT_GZIP_LEVEL); }
        ok := MINIMUM_GZIP_LEVEL <= level.value <= MAXIMUM_GZIP_LEVEL;
      case Lz4 =>
        if level == None { level := Some(DEFAULT_LZ4_LEVEL); }
        ok := MINIMUM_LZ4_LEVEL <= level.value <= MAXIMUM_LZ4_LEVEL;
      case _ =>
        level := None;
        ok := true;
    }
  }

  /** What a type and an optional level stand for, if anything. */
  function Normalised(compType: CompressionType, level: Option<int>): Option<Compression> {
    if !HasLevels(compType) then Some(Compression(compType, None))
    else var chosen := if level.Some? then level.value else DefaultLevel(compType);
      if AcceptsLevel(compType, chosen) then Some(Compression(compType, Some(chosen))) else None
  }

  method NewCompression(compType: CompressionType, level: Option<int>) returns (r: Option<Compression>)
    ensures r == Normalised(compType, level)
  {
    var setting := new CompressionSetting(compType, level);
    var ok := setting.Validate();
    r := if ok then Some(Compression(setting.compType, setting.level)) else None;
  }

  /** Normalising gives a normal compression, and gives every normal one back. */
  lemma NormalisedIsFixed(comp: Compression, level: Option<int>)
    ensures Normal(comp) <==> Normalised(comp.compType, comp.level) == Some(comp)
    ensures Normalised(comp.compType, level).Some? ==> Normal(Normalised(comp.compType, level).value)
  {
  }

  /** The levels there are, by type, and the one that is taken when none is given. */
  predicate Leveled(compType: CompressionType, level: Option<int>, chosen: Option<int>) {
    match compType
    case Zstd => chosen == Some(if level.Some? then level.value else 3) && 1 <= chosen.value <= 22
    case Gzip => chosen == Some(if level.Some? then level.value else 6) && 1 <= chosen.value <= 9
    case Lz4 => chosen == Some(if level.Some? then level.value else 0) && 0 <= chosen.value <= 9
    case Xz => chosen == None
    case Uncompressed => chosen == None
  }

  lemma NormalisedExactly(compType: CompressionType, level: Option<int>)
    ensures forall comp :: Normalised(compType, level) == Some(comp) <==>
                             comp.compType == compType && Leveled(compType, level, comp.level)
  {
  }

  // The configuration

  const FORMAT_VERSION_ONE := 1
  const CURRENT_FORMAT_VERSION := 2

  /** format_version.go: what is no known version is the current one. */
  function ParseFormatVersion(value: int): (version: int)
    ensures FORMAT_VERSION_ONE <= version <= CURRENT_FORMAT_VERSION
    ensures version == value <==> FORMAT_VERSION_ONE <= value <= CURRENT_FORMAT_VERSION
  {
    if value < FORMAT_VERSION_ONE || value > CURRENT_FORMAT_VERSION then CURRENT_FORMAT_VERSION else value
  }

  /** The wrapped symmetric key, whom it is wrapped for, and the generation it belongs to. */
  datatype Encryption = Encryption(encryptionType: string, keyEncryption: string, encryptedKey: Bytes,
                                   fingerprint: string, generation: nat)

  /** `createdAt` is not part of it: rebuilding a configuration sets it anew. */
  datatype Settings = Settings(id: nat, format: int, comp: Compression, encryption: Option<Encryption>)

  class EncryptionConfig {
    const encryptionType: string
    const keyEncryption: string
    var encryptedKey: Bytes
    var publicKeyFingerprint: string
    var generation: nat

    constructor (encryptedKey: Bytes, publicKeyFingerprint: string, generation: nat)
      ensures Value() == NewEncryption(encryptedKey, publicKeyFingerprint, generation)
    {
      this.encryptionType, this.keyEncryption := DEFAULT_ENCRYPTION_TYPE, DEFAULT_KEY_ENCRYPTION;
      this.encryptedKey, this.publicKeyFingerprint, this.generation := encryptedKey, publicKeyFingerprint, generation;
    }

    function Value(): Encryption
      reads this
    {
      Encryption(encryptionType, keyEncryption, encryptedKey, publicKeyFingerprint, generation)
    }

    method ChangeEncryptedKey(key: Bytes)
      modifies this`encryptedKey
      ensures Value() == old(Value()).(encryptedKey := key)
    {
      encryptedKey := key;
    }

    method ChangePublicKeyFingerPrint(fingerPrint: string)
      modifies this`publicKeyFingerprint
      ensures Value() == old(Value()).(fingerprint := fingerPrint)
    {
      publicKeyFingerprint := fingerPrint;
    }

    method ChangeGeneration(i: nat)
      modifies this`generation
      ensures Value() == old(Value()).(generation := i)
    {
      generation := i;
    }
  }

  function NewEncryption(encryptedKey: Bytes, fingerprint: string, generation: nat): Encryption {
    Encryption(DEFAULT_ENCRYPTION_TYPE, DEFAULT_KEY_ENCRYPTION, encryptedKey, fingerprint, generation)
  }

  class Config {
    const id: nat
    const format: int
    const comp: Compression
    const encryption: EncryptionConfig?

    constructor (id: nat, format: int, comp: Compression, encryption: EncryptionConfig?)
      ensures this.encryption == encryption
      ensures Value() == Settings(id, format, comp, if encryption == null then None else Some(encryption.Value()))
    {
      this.id, this.format, this.comp, this.encryption := id, format, comp, encryption;
    }

    function Value(): Settings
      reads this, encryption
    {
      Settings(id, format, comp, if encryption == null then None else Some(encryption.Value()))
    }
  }

  // A second init (update_config.go, init.go)

  datatype Warning = EncryptionRemoved | EncryptionPreserved

  function Updated(previous: Settings, wanted: Settings, force: bool): Settings {
    var encryption :=
      if previous.encryption.Some? && !(wanted.encryption == None && force) then previous.encryption
          else wanted.encryption;
    Settings(previous.id, previous.format, wanted.comp, encryption)
  }

  class InitResult {
    var id: nat
    var warnings: seq<Warning>
    constructor () ensures warnings == [] { id, warnings := 0, []; }
  }

  method UpdateConfig(previous: Config, wanted: Config, force: bool, result: InitResult) returns (c: Config)
    modifies result`warnings
    ensures fresh(c) && c.Value() == Updated(previous.Value(), wanted.Value(), force)
    ensures c.encryption in {previous.encryption, wanted.encryption}
    ensures result.warnings == old(result.warnings) +
              if previous.encryption == null || wanted.encryption != null then []
              else if force then [EncryptionRemoved] else [EncryptionPreserved]
  {
    var encryption: EncryptionConfig?;
    if previous.encryption != null && wanted.encryption == null && force {
      result.warnings := result.warnings + [EncryptionRemoved];
      encryption := wanted.encryption;
    } else if previous.encryption != null && wanted.encryption == null {
      result.warnings := result.warnings + [EncryptionPreserved];
      encryption := previous.encryption;
    } else if previous.encryption != null && wanted.encryption != null {
      encryption := previous.encryption;
    } else {
      encryption := wanted.encryption;
    }
    c := new Config(previous.id, previous.format, wanted.comp, encryption);
  }

  /** A second init keeps the identity and the format, and it keeps the keys of an encrypted repository exactly when it
      is not a forced removal. */
  lemma ReinitKeepsKeys(previous: Settings, wanted: Settings, force: bool)
    ensures var c := Updated(previous, wanted, force);
            && c.id == previous.id && c.format == previous.format && c.comp == wanted.comp
            && (previous.encryption.Some? ==>
                (c.encryption == previous.encryption <==> !(force && wanted.encryption == None)))
            && (previous.encryption == None ==> c.encryption == wanted.encryption)
  {
  }

  // The stored record (codec/config.go, model/config.go)

  datatype EncryptionRecord = EncryptionRecord(encryptionType: string, keyEncryption: string, encryptedKey: Bytes,
                                               fingerprint: string, generation: nat)

  /** An id of None stands for text that is not a UUID; absent members are None. */
  datatype ConfigRecord = ConfigRecord(id: Option<nat>, formatVersion: int, compType: string, level: Option<int>,
                                       encryption: Option<EncryptionRecord>)

  function RecordOf(c: Settings): ConfigRecord {
    var encryption := if c.encryption == None then None else
                        var e := c.encryption.value;
                        Some(EncryptionRecord(e.encryptionType, e.keyEncryption, e.encryptedKey, e.fingerprint,
                                              e.generation));
    ConfigRecord(Some(c.id), c.format, TypeText(c.comp.compType), c.comp.level, encryption)
  }

  /** The two algorithm names are not read back: they are the defaults again. */
  function SettingsOf(record: ConfigRecord): Option<Settings> {
    if record.id == None then None else
    var compType := ParseCompressionType(record.compType);
    if compType == None then None else
    var comp := Normalised(compType.value, record.level);
    if comp == None then None else
    var encryption := if record.encryption == None then None else
                        Some(NewEncryption(record.encryption.value.encryptedKey, record.encryption.value.fingerprint,
                                           record.encryption.value.generation));
    Some(Settings(record.id.value, record.formatVersion, comp.value, encryption))
  }

  /** A configuration as every operation makes it. */
  predicate Ordinary(c: Settings) {
    && Normal(c.comp)
    && (c.encryption.Some? ==>
        c.encryption.value ==
            NewEncryption(c.encryption.value.encryptedKey, c.encryption.value.fingerprint,
                          c.encryption.value.generation))
  }

  /** A configuration survives being written and read exactly when it is an ordinary one; what is read is always
      ordinary. */
  lemma ConfigRoundTrip(c: Settings, record: ConfigRecord)
    ensures SettingsOf(RecordOf(c)) == Some(c) <==> Ordinary(c)
    ensures SettingsOf(record).Some? ==> Ordinary(SettingsOf(record).value)
  {
    NormalisedIsFixed(c.comp, c.comp.level);
    assert ParseCompressionType(TypeText(c.comp.compType)) == Some(c.comp.compType);
    if SettingsOf(record).Some? {
      NormalisedIsFixed(SettingsOf(record).value.comp, record.level);
    }
  }

  /** Every member of a configuration is written where its record has it. */
  lemma ConfigMembers(c: Settings)
    ensures var record := RecordOf(c);
            && record.id == Some(c.id) && record.formatVersion == c.format && record.level == c.comp.level
            && record.compType == (match c.comp.compType case Uncompressed => "none" case Zstd => "zstd"
                                   case Lz4 => "lz4" case Xz => "xz" case Gzip => "gzip")
            && (record.encryption.Some? <==> c.encryption.Some?)
            && (c.encryption.Some? ==>
                  && record.encryption.value.encryptedKey == c.encryption.value.encryptedKey
                  && record.encryption.value.fingerprint == c.encryption.value.fingerprint
                  && record.encryption.value.generation == c.encryption.value.generation)
    ensures Ordinary(c) && c.encryption.Some? ==>
              && RecordOf(c).encryption.value.encryptionType == "aes-256-gcm"
              && RecordOf(c).encryption.value.keyEncryption == "rsa-oaep-sha256"
  {
  }

  method MarshalConfig(c: Config, cancelled: bool) returns (r: Result<ConfigRecord>)
    ensures r == if cancelled then Err(Cancelled) else Ok(RecordOf(c.Value()))
  {
    if cancelled {
      return Err(Cancelled);
    }
    var encryption: Option<EncryptionRecord> := None;
    if c.encryption != null {
      var e := c.encryption;
      encryption := Some(EncryptionRecord(e.encryptionType, e.keyEncryption, e.encryptedKey, e.publicKeyFingerprint,
                                          e.generation));
    }
    return Ok(ConfigRecord(Some(c.id), c.format, TypeText(c.comp.compType), c.comp.level, encryption));
  }

  method BuildConfigDomain(record: ConfigRecord) returns (c: Config?)
    ensures c != null ==> fresh(c) && (c.encryption != null ==> fresh(c.encryption))
    ensures SettingsOf(record) == if c == null then None else Some(c.Value())
  {
    if record.id == None {
      return null;
    }
    var compType := ParseCompressionType(record.compType);
    if compType == None {
      return null;
    }
    var comp := NewCompression(compType.value, record.level);
    if comp == None {
      return null;
    }
    var encryption: EncryptionConfig? := null;
    if record.encryption.Some? {
      var e := record.encryption.value;
      encryption := new EncryptionConfig(e.encryptedKey, e.fingerprint, e.generation);
    }
    c := new Config(record.id.value, record.formatVersion, comp.value, encryption);
  }

  // Where it is stored (s3/folder_repository_repository.go)

  class FolderRepository {
    var stored: Option<ConfigRecord>

    constructor () ensures stored == None { stored := None; }

    /** One put of the whole record, after a last look at the context: the commit point of init, rewrap and rekey. */
    method CreateConfig(c: Config, cancelled: bool, reply: Reply) returns (fault: Option<Fault>)
      modifies this
      ensures stored == if cancelled || reply == Refused then old(stored) else Some(RecordOf(c.Value()))
      ensures fault == None <==> !cancelled && reply == Done
    {
      var record := MarshalConfig(c, cancelled);
      if record.Err? {
        return Some(record.fault);
      }
      if reply != Refused {
        stored := Some(record.value);
      }
      return if reply == Done then None else Some(Broken);
    }

    method GetConfig(cancelled: bool, answered: bool) returns (c: Config?)
      ensures c != null ==> fresh(c) && (c.encryption != null ==> fresh(c.encryption))
      ensures c != null <==> !cancelled && answered && stored.Some? && SettingsOf(stored.value).Some?
      ensures c != null ==> SettingsOf(stored.value) == Some(c.Value())
    {
      if cancelled || !answered || stored == None {
        return null;
      }
      c := BuildConfigDomain(stored.value);
    }
  }
}
