/**
  The operations on a repository's configuration: creating keys, init and rewrap; and how an operation gets the
  symmetric key. A key file that cannot be read, or entropy that cannot be had, is None.
 */
module Repositories {
  import opened Outcomes
  import opened Primitives
  import opened S3Objects
  import opened Configs

  /** The private keys that give the secret are those of the public key the configuration names, and no others do
      give anything. */
  ghost predicate Wraps(p: Primitives, e: Encryption, secret: Bytes) {
    forall priv :: p.unwrap(priv, e.encryptedKey) == if p.fingerprint(PublicOf(priv)) == e.fingerprint
        then Some(secret) else None
  }

  function Wrapped(p: Primitives, pub: PublicKey, secret: Bytes, seed: nat, generation: nat): Encryption {
    NewEncryption(p.wrap(pub, secret, seed), p.fingerprint(pub), generation)
  }

  lemma WrappedWraps(p: Primitives, pub: PublicKey, secret: Bytes, seed: nat, generation: nat)
    requires Lawful(p)
    ensures Wraps(p, Wrapped(p, pub, secret, seed, generation), secret)
  {
  }

  /** create_encryption_config.go: a new secret in generation one. */
  method CreateEncryptionConfig(p: Primitives, pub: Option<PublicKey>, secret: Option<Bytes>, seed: Option<nat>)
    returns (e: EncryptionConfig?)
    requires Lawful(p)
    ensures e != null <==> pub.Some? && secret.Some? && seed.Some?
    ensures e != null ==>
              fresh(e) && e.generation == 1 && Wraps(p, e.Value(), secret.value)
              && e.Value() == Wrapped(p, pub.value, secret.value, seed.value, 1)
  {
    if pub == None || secret == None || seed == None {
      return null;
    }
    var encryptedKey := p.wrap(pub.value, secret.value, seed.value);
    WrappedWraps(p, pub.value, secret.value, seed.value, 1);
    e := new EncryptionConfig(encryptedKey, p.fingerprint(pub.value), 1);
  }

  // Which key an operation works with

  datatype EncryptionData = EncryptionData(symmetricKey: Bytes, generation: nat)

  /** create.go: no private key means plain objects, also in an encrypted repository. */
  method GetSymmetricKey(p: Primitives, e: EncryptionConfig?, privateKey: Option<Option<PrivateKey>>)
    returns (r: Result<Option<EncryptionData>>)
    ensures privateKey == None ==> r == Ok(None)
    ensures privateKey.Some? && e == null ==> r == Err(Rejected)
    ensures privateKey.Some? && e != null ==>
              r == if privateKey.value.Some? && p.unwrap(privateKey.value.value, e.encryptedKey).Some?
                   then Ok(Some(EncryptionData(p.unwrap(privateKey.value.value, e.encryptedKey).value, e.generation)))
                   else Err(Broken)
  {
    if privateKey == None {
      return Ok(None);
    }
    if e == null {
      return Err(Rejected);
    }
    if privateKey.value == None {
      return Err(Broken);
    }
    var key := p.unwrap(privateKey.value.value, e.encryptedKey);
    return if key == None then Err(Broken) else Ok(Some(EncryptionData(key.value, e.generation)));
  }

  /** symmetric_key.go, for verify and restore: the configuration is read only when a private key is given. */
  method Handle(p: Primitives, folder: FolderRepository, privateKey: Option<Option<PrivateKey>>, cancelled: bool,
                answered: bool)
    returns (r: Result<Option<EncryptionData>>)
    ensures privateKey == None ==> r == Ok(None)
    ensures privateKey.Some? && r.Ok? ==>
              && privateKey.value.Some? && folder.stored.Some? && SettingsOf(folder.stored.value).Some?
              && var e := SettingsOf(folder.stored.value).value.encryption;
                 e.Some? && r.value.Some? && r.value.value.generation == e.value.generation
                 && p.unwrap(privateKey.value.value, e.value.encryptedKey) == Some(r.value.value.symmetricKey)
    ensures && privateKey.Some? && folder.stored.Some? && SettingsOf(folder.stored.value).Some?
            && !cancelled && answered ==>
              var e := SettingsOf(folder.stored.value).value.encryption;
              r.Ok? <==> && e.Some? && privateKey.value.Some?
                         && p.unwrap(privateKey.value.value, e.value.encryptedKey).Some?
  {
    if privateKey == None {
      return Ok(None);
    }
    var conf := folder.GetConfig(cancelled, answered);
    if conf == null {
      return Err(Broken);
    }
    r := GetSymmetricKey(p, conf.encryption, privateKey);
  }

  /** Without a private key, the objects are plain. With one, the key is what it unwraps of the stored encryption, and
      the generation is that of the encryption. */
  predicate Unlocks(p: Primitives, stored: Option<ConfigRecord>, privateKey: Option<Option<PrivateKey>>,
                    e: EncryptionData) {
    match privateKey
    case None => e.symmetricKey == [] && e.generation == 0
    case Some(priv) =>
      && priv.Some? && stored.Some? && SettingsOf(stored.value).Some? && SettingsOf(stored.value).value.encryption.Some?
      && var encryption := SettingsOf(stored.value).value.encryption.value;
         p.unwrap(priv.value, encryption.encryptedKey) == Some(e.symmetricKey) && e.generation == encryption.generation
  }

  /** The key and generation a stored configuration and a private key give, if they give any. */
  function KeyOf(p: Primitives, stored: Option<ConfigRecord>,
                 privateKey: Option<Option<PrivateKey>>): (data: Option<EncryptionData>)
    ensures data.Some? ==> Unlocks(p, stored, privateKey, data.value)
    ensures forall e :: Unlocks(p, stored, privateKey, e) ==> data == Some(e)
  {
    if privateKey == None then Some(EncryptionData([], 0))
    else if privateKey.value == None || stored == None || SettingsOf(stored.value) == None then None
    else
      var e := SettingsOf(stored.value).value.encryption;
      if e == None then None else
      var secret := p.unwrap(privateKey.value.value, e.value.encryptedKey);
      if secret == None then None else Some(EncryptionData(secret.value, e.value.generation))
  }

  // Init

  function AfterInit(stored: Option<ConfigRecord>, wanted: Settings, force: bool): Option<Settings> {
    if stored == None then Some(wanted) else
    match SettingsOf(stored.value)
    case None => None
    case Some(previous) => Some(Updated(previous, wanted, force))
  }

  /** What an init comes to, read back: over no configuration exactly what was wanted; over one that can be read, its id
      and its format, the wanted compression, and the encryption it had, if any, unless its removal is forced. */
  predicate Initialised(before: Option<ConfigRecord>, after: Option<ConfigRecord>, wanted: Settings, force: bool) {
    && after.Some? && SettingsOf(after.value).Some? && (before.Some? ==> SettingsOf(before.value).Some?)
    && var now := SettingsOf(after.value).value;
       && now.comp == wanted.comp
       && match before
          case None => now.id == wanted.id && now.format == wanted.format && now.encryption == wanted.encryption
          case Some(record) =>
            var was := SettingsOf(record).value;
            && now.id == was.id && now.format == was.format
            && now.encryption == if was.encryption == None || (force && wanted.encryption == None)
                 then wanted.encryption else was.encryption
  }

  /** What is said about keys that are in the way of a wish without any. */
  predicate Warned(before: Option<ConfigRecord>, wanted: Settings, force: bool, warnings: seq<Warning>) {
    if before.Some? && SettingsOf(before.value).Some? && SettingsOf(before.value).value.encryption.Some?
       && wanted.encryption == None
    then warnings == [if force then EncryptionRemoved else EncryptionPreserved] else warnings == []
  }

  lemma InitReadsBack(before: Option<ConfigRecord>, wanted: Settings, force: bool)
    requires Ordinary(wanted) && AfterInit(before, wanted, force).Some?
    ensures Initialised(before, Some(RecordOf(AfterInit(before, wanted, force).value)), wanted, force)
  {
    var after := AfterInit(before, wanted, force).value;
    if before.Some? { ConfigRoundTrip(wanted, before.value); }
    ConfigRoundTrip(after, RecordOf(after));
  }

  /** What is to be written: what is wanted, or the stored configuration brought up to it. */
  method Planned(folder: FolderRepository, wanted: Config, force: bool, doneFrom: nat, answered: bool)
    returns (fault: Option<Fault>, conf: Config, result: InitResult)
    ensures fresh(result)
    ensures fault == None <==> && doneFrom > 1 && answered
                               && (folder.stored.Some? ==> doneFrom > 2 && SettingsOf(folder.stored.value).Some?)
    ensures fault == None ==>
              && AfterInit(folder.stored, wanted.Value(), force) == Some(conf.Value())
              && Warned(folder.stored, wanted.Value(), force, result.warnings)
  {
    conf, fault := wanted, Some(Broken);
    result := new InitResult();
    if doneFrom <= 0 || !answered {
      return;
    }
    var found := folder.stored.Some?;
    if doneFrom <= 1 {
      return Some(Cancelled), conf, result;
    }
    if found {
      var previous := folder.GetConfig(doneFrom <= 2, answered);
      if previous == null {
        return;
      }
      conf := UpdateConfig(previous, wanted, force, result);
    }
    fault := None;
  }

  /** The context is looked at again and again: `doneFrom` is the step from which it is found done. A failing init has
      either not written the configuration or written all of it. */
  method Init(folder: FolderRepository, wanted: Config, force: bool, doneFrom: nat, answered: bool, reply: Reply)
    returns (r: Result<InitResult>)
    modifies folder
    ensures r.Ok? ==> fresh(r.value)
    ensures r.Ok? <==> && (old(folder.stored).Some? ==> SettingsOf(old(folder.stored).value).Some?)
                       && doneFrom > 5 && answered && reply == Done
    ensures folder.stored != old(folder.stored) || r.Ok? ==>
              && (var after := AfterInit(old(folder.stored), wanted.Value(), force);
                  after.Some? && folder.stored == Some(RecordOf(after.value)))
              && (Ordinary(wanted.Value()) ==>
                    Initialised(old(folder.stored), folder.stored, wanted.Value(), force))
    ensures r.Ok? ==>
              && Warned(old(folder.stored), wanted.Value(), force, r.value.warnings)
              && folder.stored.value.id == Some(r.value.id)
  {
    var planned, conf, result := Planned(folder, wanted, force, doneFrom, answered);
    if planned.Some? {
      return Err(planned.value);
    }
    if Ordinary(wanted.Value()) { InitReadsBack(folder.stored, wanted.Value(), force); }
    var fault := folder.CreateConfig(conf, doneFrom <= 3, reply);
    if fault.Some? {
      return Err(fault.value);
    }
    if doneFrom <= 5 {
      return Err(Cancelled);
    }
    result.id := conf.id;
    return Ok(result);
  }

  // Rewrap

  /** The configuration reads as before but for its wrapping: the owner of the new public key, and nobody else, gets the
      secret the old private key got, of the same generation. */
  ghost predicate HandedOver(p: Primitives, before: Option<ConfigRecord>, after: Option<ConfigRecord>,
                             oldPriv: PrivateKey, newPub: PublicKey) {
    && before.Some? && after.Some? && SettingsOf(before.value).Some? && SettingsOf(after.value).Some?
    && var c, d := SettingsOf(before.value).value, SettingsOf(after.value).value;
       && d.id == c.id && d.format == c.format && d.comp == c.comp && c.encryption.Some? && d.encryption.Some?
       && var e, f := c.encryption.value, d.encryption.value;
          && f.generation == e.generation && f.fingerprint == p.fingerprint(newPub)
          && p.unwrap(oldPriv, e.encryptedKey).Some?
          && forall priv :: p.unwrap(priv, f.encryptedKey) ==
                            if PublicOf(priv) == newPub then p.unwrap(oldPriv, e.encryptedKey) else None
  }

  lemma RewrapHandsOver(p: Primitives, before: Option<ConfigRecord>, after: Option<ConfigRecord>,
                        priv: Option<PrivateKey>, pub: Option<PublicKey>, seed: Option<nat>)
    requires Lawful(p) && Rewrapped(p, before, after, priv, pub, seed)
    ensures HandedOver(p, before, after, priv.value, pub.value)
  {
    var c := SettingsOf(before.value).value;
    var secret := p.unwrap(priv.value, c.encryption.value.encryptedKey).value;
    var d := c.(encryption := Some(Wrapped(p, pub.value, secret, seed.value, c.encryption.value.generation)));
    ConfigRoundTrip(c, before.value);
    ConfigRoundTrip(d, before.value);
  }

  /** The same secret and generation, wrapped for another key pair. Where there is no encryption, the operation breaks
      off before it writes anything: the source does not look, and crashes. */
  method Rewrap(p: Primitives, folder: FolderRepository, oldPrivateKey: Option<PrivateKey>,
                newPublicKey: Option<PublicKey>,
                seed: Option<nat>, cancelled: bool, answered: bool, doneAtWrite: bool, reply: Reply)
    returns (fault: Option<Fault>)
    requires Lawful(p)
    modifies folder
    ensures folder.stored == old(folder.stored)
            || Rewrapped(p, old(folder.stored), folder.stored, oldPrivateKey, newPublicKey, seed)
    ensures fault == None ==> Rewrapped(p, old(folder.stored), folder.stored, oldPrivateKey, newPublicKey, seed)
    ensures fault == None <==> && !cancelled && answered && !doneAtWrite && reply == Done
                               && oldPrivateKey.Some? && newPublicKey.Some? && seed.Some?
                               && old(folder.stored).Some? && SettingsOf(old(folder.stored).value).Some?
                               && var e := SettingsOf(old(folder.stored).value).value.encryption;
                                  e.Some? && p.unwrap(oldPrivateKey.value, e.value.encryptedKey).Some?
    ensures folder.stored != old(folder.stored) || fault == None ==>
              oldPrivateKey.Some? && newPublicKey.Some?
              && HandedOver(p, old(folder.stored), folder.stored, oldPrivateKey.value, newPublicKey.value)
  {
    ghost var was := folder.stored;
    var conf := folder.GetConfig(cancelled, answered);
    if conf == null || oldPrivateKey == None {
      return Some(Broken);
    }
    if conf.encryption == null {
      return Some(Broken);
    }
    var symmetricKey := p.unwrap(oldPrivateKey.value, conf.encryption.encryptedKey);
    if symmetricKey == None || newPublicKey == None || seed == None {
      return Some(Broken);
    }
    var encryptedKey := p.wrap(newPublicKey.value, symmetricKey.value, seed.value);
    ghost var before := conf.Value();
    conf.encryption.ChangeEncryptedKey(encryptedKey);
    conf.encryption.ChangePublicKeyFingerPrint(p.fingerprint(newPublicKey.value));
    assert conf.Value() ==
             before.(encryption :=
                     Some(before.encryption.value.(encryptedKey := encryptedKey,
                                                   fingerprint := p.fingerprint(newPublicKey.value))));
    fault := folder.CreateConfig(conf, doneAtWrite, reply);
    if folder.stored != was || fault == None {
      RewrapHandsOver(p, was, folder.stored, oldPrivateKey, newPublicKey, seed);
    }
  }

  ghost predicate Rewrapped(p: Primitives, before: Option<ConfigRecord>, after: Option<ConfigRecord>,
                            priv: Option<PrivateKey>, pub: Option<PublicKey>, seed: Option<nat>) {
    && before.Some? && SettingsOf(before.value).Some? && priv.Some? && pub.Some? && seed.Some?
    && var c := SettingsOf(before.value).value;
       && c.encryption.Some?
       && var secret := p.unwrap(priv.value, c.encryption.value.encryptedKey);
          && secret.Some?
          && after == Some(RecordOf(c.(encryption :=
                                       Some(Wrapped(p, pub.value, secret.value, seed.value,
                                                    c.encryption.value.generation)))))
  }

  /** After a rewrap the configuration is the same but for the wrapping: the new private key gives the secret the old
      one gave, in the same generation, and the old private key gives nothing any more unless it is the same pair. */
  lemma RewrapKeepsTheSecret(p: Primitives, before: Option<ConfigRecord>, after: Option<ConfigRecord>,
                             priv: Option<PrivateKey>, pub: Option<PublicKey>, seed: Option<nat>, newPriv: PrivateKey)
    requires Lawful(p) && Rewrapped(p, before, after, priv, pub, seed) && PublicOf(newPriv) == pub.value
    ensures SettingsOf(after.value).Some?
    ensures var c, d := SettingsOf(before.value).value, SettingsOf(after.value).value;
            && d == c.(encryption := d.encryption) && d.encryption.Some?
            && d.encryption.value.generation == c.encryption.value.generation
            && p.unwrap(newPriv, d.encryption.value.encryptedKey) ==
                 p.unwrap(priv.value, c.encryption.value.encryptedKey)
            && (p.unwrap(priv.value, d.encryption.value.encryptedKey).Some? <==> PublicOf(priv.value) == pub.value)
  {
    var c := SettingsOf(before.value).value;
    var secret := p.unwrap(priv.value, c.encryption.value.encryptedKey).value;
    var d := c.(encryption := Some(Wrapped(p, pub.value, secret, seed.value, c.encryption.value.generation)));
    ConfigRoundTrip(c, before.value);
    ConfigRoundTrip(d, before.value);
  }
}
