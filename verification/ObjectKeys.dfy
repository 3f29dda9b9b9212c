/** The names objects get in the bucket. Identifiers are 36 characters without a slash; file names
    and share identifiers are arbitrary text. */
module ObjectKeys {
  import opened Basics

  function ObjectKey(tenant: Uuid, document: Uuid, version: Uuid, fileName: string): string {
    tenant + "/" + document + "/" + version + "/" + fileName
  }

  function WatermarkKey(objectKey: string, share: string): string {
    objectKey + ".wm." + share
  }

  /** A packaging time as `%Y%m%dT%H%M%S` prints it. */
  predicate IsTimestamp(s: string) {
    |s| == 15 && '/' !in s
  }

  function PackageKey(tenant: string, document: string, timestamp: string, id: Uuid): string {
    tenant + "/" + document + "/audit-packages/" + timestamp + "-" + id + ".zip"
  }

  /** Slashes where a version key has its first three. */
  predicate VersionShaped(key: string) {
    |key| > 110 && key[36] == '/' && key[73] == '/' && key[110] == '/'
  }

  function VersionPart(key: string): string
    requires VersionShaped(key)
  {
    key[74..110]
  }

  /** A key as long as package keys are, that is not a version key. */
  predicate PackageShaped(key: string) {
    |key| == 145 && !VersionShaped(key)
  }

  function PackagePart(key: string): string
    requires PackageShaped(key)
  {
    key[105..141]
  }

  function TenantPart(key: string): string {
    if |key| < 36 then key else key[..36]
  }

  lemma KeyParts(tenant: Uuid, document: Uuid, version: Uuid, fileName: string)
    ensures var key := ObjectKey(tenant, document, version, fileName);
            VersionShaped(key) && TenantPart(key) == tenant && key[37..73] == document
            && VersionPart(key) == version && key[111..] == fileName
  {}

  /** Version keys are injective in all four parts, whatever the file names are. */
  lemma ObjectKeyInjective(t: Uuid, d: Uuid, v: Uuid, f: string, t': Uuid, d': Uuid, v': Uuid, f': string)
    ensures ObjectKey(t, d, v, f) == ObjectKey(t', d', v', f') <==> t == t' && d == d' && v == v' && f == f'
  {
    KeyParts(t, d, v, f);
    KeyParts(t', d', v', f');
  }

  /** A watermark key is the key that a file named after the share would have in the same version, so
      it meets no key of another version and no key of a file that is not so named. */
  lemma WatermarkKeyMeets(t: Uuid, d: Uuid, v: Uuid, f: string, share: string, t': Uuid, d': Uuid, v': Uuid, f': string)
    ensures WatermarkKey(ObjectKey(t, d, v, f), share) == ObjectKey(t', d', v', f')
        <==> t == t' && d == d' && v == v' && f' == f + ".wm." + share
    ensures WatermarkKey(ObjectKey(t, d, v, f), share) != ObjectKey(t', d', v, f)
  {
    var file := f + ".wm." + share;
    assert WatermarkKey(ObjectKey(t, d, v, f), share) == ObjectKey(t, d, v, file) by {
      var stem := t + "/" + d + "/" + v + "/";
      assert (stem + f) + ".wm." + share == stem + (f + ".wm." + share);
    }
    ObjectKeyInjective(t, d, v, file, t', d', v', f');
    ObjectKeyInjective(t, d, v, file, t', d', v, f);
    assert |file| > |f|;
  }

  lemma WatermarkKeyShape(key: string, share: string)
    requires VersionShaped(key)
    ensures var wm := WatermarkKey(key, share);
            VersionShaped(wm) && VersionPart(wm) == VersionPart(key) && wm != key && TenantPart(wm) == TenantPart(key)
  {}

  lemma PackageKeyParts(t: Uuid, d: Uuid, ts: string, id: Uuid)
    requires IsTimestamp(ts)
    ensures var key := PackageKey(t, d, ts, id);
            |key| == 145 && key[..36] == t && key[37..73] == d && key[89..104] == ts && key[105..141] == id
  {}

  /** A package key has no slash where version and watermark keys have their third. */
  lemma PackageKeyShape(t: Uuid, d: Uuid, timestamp: string, id: Uuid)
    requires IsTimestamp(timestamp)
    ensures PackageShaped(PackageKey(t, d, timestamp, id)) && PackagePart(PackageKey(t, d, timestamp, id)) == id
    ensures TenantPart(PackageKey(t, d, timestamp, id)) == t
  {}

  lemma PackageKeyMeetsNoVersionKey(t: Uuid, d: Uuid, timestamp: string, id: Uuid,
                                    t': Uuid, d': Uuid, v': Uuid, f': string, share: string)
    requires IsTimestamp(timestamp)
    ensures PackageKey(t, d, timestamp, id) != ObjectKey(t', d', v', f')
    ensures PackageKey(t, d, timestamp, id) != WatermarkKey(ObjectKey(t', d', v', f'), share)
  {
    PackageKeyShape(t, d, timestamp, id);
    KeyParts(t', d', v', f');
    WatermarkKeyShape(ObjectKey(t', d', v', f'), share);
  }

  /** Package keys differ whenever the fresh identifier in them does. */
  lemma PackageKeyInjective(t: Uuid, d: Uuid, ts: string, id: Uuid, t': Uuid, d': Uuid, ts': string, id': Uuid)
    requires IsTimestamp(ts) && IsTimestamp(ts')
    ensures PackageKey(t, d, ts, id) == PackageKey(t', d', ts', id') <==> t == t' && d == d' && ts == ts' && id == id'
  {
    PackageKeyParts(t, d, ts, id);
    PackageKeyParts(t', d', ts', id');
  }
}
