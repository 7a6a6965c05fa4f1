/**
Version-prefixed data and its migrations: `VersionedDataHandler` in
packages/rivetkit/src/common/versioned-data.ts.
*/
module VersionedData {
  type Byte = n: nat | n < 256
  type Bytes = seq<Byte>

  const U32_RANGE := 0x1_0000_0000

  datatype Error = TooShort | FromTheFuture(version: nat) | NoMigration(from: nat)

  datatype Result<+T> = Ok(value: T) | Err(error: Error)

  // MARK: The version prefix

  /** Four bytes, little-endian; `setUint32` keeps the low 32 bits. */
  function U32(n: nat): (b: Bytes)
    ensures |b| == 4
  {
    [n % 256, n / 256 % 256, n / 65536 % 256, n / 16777216 % 256]
  }

  function ReadU32(b: Bytes): nat
    requires |b| >= 4
  {
    b[0] as nat + 256 * (b[1] as nat) + 65536 * (b[2] as nat) + 16777216 * (b[3] as nat)
  }

  lemma LowTwoBytes(n: nat)
    ensures n % 65536 == 256 * (n / 256 % 256) + n % 256
  {
    var q, r := n / 256, n % 256;
    var d, e := q / 256, q % 256;
    assert n == 256 * q + r && q == 256 * d + e;
    assert n == 65536 * d + (256 * e + r);
  }

  lemma LowThreeBytes(n: nat)
    ensures n % 16777216 == 65536 * (n / 65536 % 256) + n % 65536
  {
    var q, r := n / 65536, n % 65536;
    var d, e := q / 256, q % 256;
    assert n == 65536 * q + r && q == 256 * d + e;
    assert n == 16777216 * d + (65536 * e + r);
  }

  lemma LowFourBytes(n: nat)
    ensures n % 0x1_0000_0000 == 16777216 * (n / 16777216 % 256) + n % 16777216
  {
    var q, r := n / 16777216, n % 16777216;
    var d, e := q / 256, q % 256;
    assert n == 16777216 * q + r && q == 256 * d + e;
    assert n == 0x1_0000_0000 * d + (16777216 * e + r);
  }

  lemma ReadU32OfU32(n: nat)
    ensures ReadU32(U32(n)) == n % U32_RANGE
  {
    LowTwoBytes(n);
    LowThreeBytes(n);
    LowFourBytes(n);
  }

  function Embedded(version: nat, data: Bytes): Bytes {
    U32(version) + data
  }

  function Extracted(bytes: Bytes): Result<(nat, Bytes)> {
    if |bytes| < 4 then Err(TooShort) else Ok((ReadU32(bytes), bytes[4..]))
  }

  /** The prefix is little-endian, and stands before the data. */
  lemma PrefixForm(data: Bytes)
    ensures Embedded(0x0403_0201, data) == [1, 2, 3, 4] + data
    ensures ReadU32([1, 2, 3, 4] + data) == 0x0403_0201
  {
  }

  /** Extraction fails exactly for fewer bytes than the prefix has. */
  lemma ExtractFailsIffShort(bytes: Bytes)
    ensures Extracted(bytes) == Err(TooShort) <==> |bytes| < 4
    ensures Extracted(bytes).Ok? <==> |bytes| >= 4
  {
  }

  /** Extraction gives back the data and the version, the latter exactly if it fits in 32 bits. */
  lemma ExtractOfEmbed(version: nat, data: Bytes)
    ensures Extracted(Embedded(version, data)) == Ok((version % U32_RANGE, data))
    ensures Extracted(Embedded(version, data)) == Ok((version, data)) <==> version < U32_RANGE
  {
    ReadU32OfU32(version);
    assert Embedded(version, data)[4..] == data;
  }

  /** The result buffer, filled as `embedVersion` fills it. */
  method EmbedVersion(version: nat, data: Bytes) returns (bytes: Bytes)
    ensures bytes == Embedded(version, data)
  {
    var versionBytes := new Byte[4];
    versionBytes[0] := version % 256;
    versionBytes[1] := version / 256 % 256;
    versionBytes[2] := version / 65536 % 256;
    versionBytes[3] := version / 16777216 % 256;
    assert versionBytes[..] == U32(version);
    var result := new Byte[4 + |data|];
    for i := 0 to 4
      invariant versionBytes[..] == U32(version)
      invariant result[..i] == versionBytes[..i]
    {
      result[i] := versionBytes[i];
    }
    for i := 0 to |data|
      invariant result[..4 + i] == U32(version) + data[..i]
    {
      result[4 + i] := data[i];
    }
    assert result[..] == result[..4 + |data|];
    assert data[..|data|] == data;
    return result[..];
  }

  // MARK: Migrations

  /** `T` is the type of everything that is decoded, in any version. */
  datatype Config<!T> = Config(currentVersion: nat,
                               migrations: map<nat, T -> T>,
                               serializeVersion: T -> Bytes,
                               deserializeVersion: Bytes -> T)

  /** Applying the migrations one after the other, from the oldest. */
  function Migrate<T>(c: Config<T>, data: T, from: nat): Result<T>
    decreases c.currentVersion - from
  {
    if from >= c.currentVersion then Ok(data)
    else if from !in c.migrations then Err(NoMigration(from))
    else Migrate(c, c.migrations[from](data), from + 1)
  }

  function Decoded<T>(c: Config<T>, bytes: Bytes, version: nat): Result<T> {
    if version > c.currentVersion then Err(FromTheFuture(version))
    else Migrate(c, c.deserializeVersion(bytes), version)
  }

  method Deserialize<T>(c: Config<T>, bytes: Bytes, version: nat) returns (r: Result<T>)
    ensures r == Decoded(c, bytes, version)
  {
    if version == c.currentVersion {
      return Ok(c.deserializeVersion(bytes));
    }
    if version > c.currentVersion {
      return Err(FromTheFuture(version));
    }
    var currentData := c.deserializeVersion(bytes);
    var currentVersion := version;
    while currentVersion < c.currentVersion
      invariant currentVersion <= c.currentVersion
      invariant Migrate(c, currentData, currentVersion) == Migrate(c, c.deserializeVersion(bytes), version)
    {
      if currentVersion !in c.migrations {
        return Err(NoMigration(currentVersion));
      }
      currentData := c.migrations[currentVersion](currentData);
      currentVersion := currentVersion + 1;
    }
    return Ok(currentData);
  }

  ghost predicate ChainComplete<T>(c: Config<T>, from: nat, until: nat) {
    forall v | from <= v < until :: v in c.migrations
  }

  /** The composition of the migrations `from`, ..., `until - 1`. */
  ghost function Composed<T>(c: Config<T>, from: nat, until: nat, data: T): T
    requires from <= until && ChainComplete(c, from, until)
    decreases until
  {
    if from == until then data else c.migrations[until - 1](Composed(c, from, until - 1, data))
  }

  lemma {:induction false} ComposedFromTheFront<T>(c: Config<T>, from: nat, until: nat, data: T)
    requires from < until && ChainComplete(c, from, until)
    ensures Composed(c, from, until, data) == Composed(c, from + 1, until, c.migrations[from](data))
    decreases until
  {
    if from + 1 < until {
      ComposedFromTheFront(c, from, until - 1, data);
    }
  }

  lemma {:induction false} MigrateIsComposition<T>(c: Config<T>, data: T, from: nat)
    requires from <= c.currentVersion
    ensures ChainComplete(c, from, c.currentVersion) ==>
              Migrate(c, data, from) == Ok(Composed(c, from, c.currentVersion, data))
    ensures !ChainComplete(c, from, c.currentVersion) ==>
              exists v :: from <= v < c.currentVersion && v !in c.migrations && ChainComplete(c, from, v)
                          && Migrate(c, data, from) == Err(NoMigration(v))
    decreases c.currentVersion - from
  {
    if from < c.currentVersion && from in c.migrations {
      MigrateIsComposition(c, c.migrations[from](data), from + 1);
      if ChainComplete(c, from, c.currentVersion) {
        ComposedFromTheFront(c, from, c.currentVersion, data);
      } else {
        assert !ChainComplete(c, from + 1, c.currentVersion);
        var v :| from + 1 <= v < c.currentVersion && v !in c.migrations && ChainComplete(c, from + 1, v)
                 && Migrate(c, c.migrations[from](data), from + 1) == Err(NoMigration(v));
        assert ChainComplete(c, from, v);
      }
    } else if from < c.currentVersion {
      assert ChainComplete(c, from, from);
    }
  }

  /**
  Decoding data of any version: it fails exactly if the version is newer than the
  current one or a migration on the way is missing, and then the first missing one
  is named; otherwise the result is the composition of the migrations in order.
  */
  lemma DecodeIsComposition<T>(c: Config<T>, bytes: Bytes, version: nat)
    ensures Decoded(c, bytes, version).Ok?
            <==> version <= c.currentVersion && ChainComplete(c, version, c.currentVersion)
    ensures Decoded(c, bytes, version).Ok? ==>
              Decoded(c, bytes, version).value == Composed(c, version, c.currentVersion, c.deserializeVersion(bytes))
    ensures version > c.currentVersion ==> Decoded(c, bytes, version) == Err(FromTheFuture(version))
    ensures version <= c.currentVersion && !ChainComplete(c, version, c.currentVersion) ==>
              exists v :: version <= v < c.currentVersion && v !in c.migrations && ChainComplete(c, version, v)
                          && Decoded(c, bytes, version) == Err(NoMigration(v))
  {
    if version <= c.currentVersion {
      MigrateIsComposition(c, c.deserializeVersion(bytes), version);
    }
  }

  // MARK: Whole values

  /** The codec gives this value back. */
  ghost predicate CodecReadsBack<T(!new)>(c: Config<T>, data: T) {
    c.deserializeVersion(c.serializeVersion(data)) == data
  }

  function SerializeWithVersion<T>(c: Config<T>, data: T): Bytes {
    Embedded(c.currentVersion, c.serializeVersion(data))
  }

  function DeserializeWithVersion<T>(c: Config<T>, bytes: Bytes): Result<T> {
    match Extracted(bytes)
    case Ok((version, data)) => Decoded(c, data, version)
    case Err(e) => Err(e)
  }

  /**
  Writing with the current version and reading back gives the same value if the
  version fits in 32 bits. One that does not is read as its low 32 bits, and the value
  is put through the migrations from there.
  */
  lemma ValueRoundTrip<T(!new)>(c: Config<T>, data: T)
    requires CodecReadsBack(c, data)
    ensures var r := DeserializeWithVersion(c, SerializeWithVersion(c, data));
            var from := c.currentVersion % U32_RANGE;
            && (c.currentVersion < U32_RANGE ==> r == Ok(data))
            && (r.Ok? <==> ChainComplete(c, from, c.currentVersion))
            && (r.Ok? ==> r.value == Composed(c, from, c.currentVersion, data))
  {
    ExtractOfEmbed(c.currentVersion, c.serializeVersion(data));
    DecodeIsComposition(c, c.serializeVersion(data), c.currentVersion % U32_RANGE);
  }
}
