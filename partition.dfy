/**
 * The per-record transformation of the partition registrar
 * (lambdas/create-partition/index.py, lines 332-373): an S3 object key
 * `table/year/month/day/hour/object` becomes a Glue `PartitionInput` for
 * `table`, keyed by the values `[year-month-day, hour]`.
 */
module Partition {
  import opened Wrappers
  import opened Segments
  import opened Schemas

  /** One S3 notification record, reduced to the bucket name and the object key (taken as given, not URL-decoded). */
  datatype Record = Record(bucket: string, key: string)

  /** The six segments of a well-shaped key. */
  datatype KeyParts = KeyParts(table: string, year: string, month: string, day: string, hour: string, objectName: string)

  /** The two exceptions a record can raise before the catalog call. */
  datatype RecordError =
    | UnpackError(segments: nat)   // ValueError: the key did not split into exactly six segments
    | UnknownTable(table: string)  // KeyError: the first segment is not a key of the schema table

  /** Glue `SerDeInfo`. */
  datatype SerDeInfo = SerDeInfo(serializationLibrary: string, parameters: map<string, string>)

  /** Glue `Order`, the element type of `SortColumns`. */
  datatype SortOrder = SortOrder(column: string, sortOrder: int)

  /** Glue `SkewedInfo`. */
  datatype SkewedInfo = SkewedInfo(
    skewedColumnNames: seq<string>,
    skewedColumnValues: seq<string>,
    skewedColumnValueLocationMaps: map<string, string>)

  /** Glue `StorageDescriptor`, with the fields the registrar sets. */
  datatype StorageDescriptor = StorageDescriptor(
    numberOfBuckets: int,
    columns: seq<Column>,
    location: string,
    inputFormat: string,
    outputFormat: string,
    compressed: bool,
    serdeInfo: SerDeInfo,
    bucketColumns: seq<string>,
    sortColumns: seq<SortOrder>,
    parameters: map<string, string>,
    skewedInfo: SkewedInfo,
    storedAsSubDirectories: bool)

  /** Glue `PartitionInput`. */
  datatype PartitionInput = PartitionInput(values: seq<string>, storageDescriptor: StorageDescriptor)

  /** The arguments of one `create_partition` call, apart from the database name. */
  datatype CatalogRequest = CatalogRequest(tableName: string, partition: PartitionInput)

  const TextInputFormat: string := "org.apache.hadoop.mapred.TextInputFormat"
  const HiveIgnoreKeyTextOutputFormat: string := "org.apache.hadoop.hive.ql.io.HiveIgnoreKeyTextOutputFormat"
  const JsonSerDe: string := "org.openx.data.jsonserde.JsonSerDe"

  /** The key that the six segments spell, `"/".join(...)`. */
  function KeyPath(p: KeyParts): string
  {
    Join([p.table, p.year, p.month, p.day, p.hour, p.objectName], '/')
  }

  /** No segment holds a `/`, so the segments can come back out of a key. */
  predicate WellFormedParts(p: KeyParts)
  {
    SeparatorFree([p.table, p.year, p.month, p.day, p.hour, p.objectName], '/')
  }

  /** `table, year, month, day, hour, _ = key.split("/")`: the six segments, or the unpacking error. */
  function ParseKey(key: string): Result<KeyParts, RecordError>
  {
    var segments := Split(key, '/');
    if |segments| == 6 then
      Success(KeyParts(segments[0], segments[1], segments[2], segments[3], segments[4], segments[5]))
    else
      Failure(UnpackError(|segments|))
  }

  /** The `date` partition value, `"{}-{}-{}".format(year, month, day)`. */
  function PartitionDate(p: KeyParts): string
  {
    p.year + "-" + p.month + "-" + p.day
  }

  /** The partition location, `'s3://{}/{}/{}/{}/{}'.format(bucket, table, year, month, day, hour)`; the format has no sixth placeholder, so `hour` is dropped. */
  function PartitionLocation(bucket: string, p: KeyParts): string
  {
    "s3://" + bucket + "/" + p.table + "/" + p.year + "/" + p.month + "/" + p.day
  }

  /** The URI of the object that triggered the notification. */
  function ObjectUri(bucket: string, key: string): string
  {
    "s3://" + bucket + "/" + key
  }

  /** The storage descriptor: only `columns` and `location` vary, every other field is a constant. */
  function Descriptor(columns: seq<Column>, location: string): StorageDescriptor
  {
    StorageDescriptor(
      numberOfBuckets := -1,
      columns := columns,
      location := location,
      inputFormat := TextInputFormat,
      outputFormat := HiveIgnoreKeyTextOutputFormat,
      compressed := false,
      serdeInfo := SerDeInfo(JsonSerDe, map["serialization.format" := "1"]),
      bucketColumns := [],
      sortColumns := [],
      parameters := map[],
      skewedInfo := SkewedInfo([], [], map[]),
      storedAsSubDirectories := false)
  }

  /**
   * Everything the handler computes for one record before the `try`: parse
   * the key (ValueError first), then look the table up (KeyError).
   */
  function BuildRequest(rec: Record): Result<CatalogRequest, RecordError>
  {
    match ParseKey(rec.key)
    case Failure(e) => Failure(e)
    case Success(p) =>
      if p.table !in TableColumnSchemas then Failure(UnknownTable(p.table))
      else
        var partition := PartitionInput(
          [PartitionDate(p), p.hour],
          Descriptor(TableColumnSchemas[p.table], PartitionLocation(rec.bucket, p)));
        Success(CatalogRequest(p.table, partition))
  }

  /** The partition descriptor BuildRequest yields for well-shaped parts of a known table. */
  function ExpectedRequest(bucket: string, p: KeyParts): CatalogRequest
    requires p.table in TableColumnSchemas
  {
    CatalogRequest(p.table, PartitionInput(
      [PartitionDate(p), p.hour],
      Descriptor(TableColumnSchemas[p.table], PartitionLocation(bucket, p))))
  }

  // ---------------------------------------------------------------------------
  // Properties of the key parser

  /**
   * Unpacking succeeds exactly when the key holds five slashes, and then the
   * six segments are '/'-free and spell the key; otherwise the error reports
   * how many segments there were.
   */
  lemma ParseKeyOutcome(key: string)
    ensures ParseKey(key).Success? <==> Occurrences(key, '/') == 5
    ensures ParseKey(key).Failure? ==> ParseKey(key).error == UnpackError(Occurrences(key, '/') + 1)
    ensures ParseKey(key).Success? ==> WellFormedParts(ParseKey(key).value) && KeyPath(ParseKey(key).value) == key
  {
    var segments := Split(key, '/');
    SplitLength(key, '/');
    if |segments| == 6 {
      var p := ParseKey(key).value;
      JoinSplit(key, '/');
      assert [p.table, p.year, p.month, p.day, p.hour, p.objectName] == segments;
    }
  }

  /** Parsing inverts KeyPath: any six '/'-free segments come back out unchanged, empty ones included. */
  lemma ParseKeyPath(p: KeyParts)
    requires WellFormedParts(p)
    ensures ParseKey(KeyPath(p)) == Success(p)
  {
    var parts := [p.table, p.year, p.month, p.day, p.hour, p.objectName];
    SplitJoin(parts, '/');
  }

  // ---------------------------------------------------------------------------
  // Properties of the date and the location

  /** The date keeps year, month and day verbatim: when none holds a `-`, splitting the date on `-` gives them back. */
  lemma DateSegments(p: KeyParts)
    requires '-' !in p.year && '-' !in p.month && '-' !in p.day
    ensures Split(PartitionDate(p), '-') == [p.year, p.month, p.day]
  {
    var parts := [p.year, p.month, p.day];
    assert Join(parts, '-') == PartitionDate(p) by {
      assert Join(parts[2..], '-') == p.day;
      assert Join(parts[1..], '-') == p.month + "-" + p.day;
    }
    SplitJoin(parts, '-');
  }

  /** The location is the day directory of the object: the object's URI is the location followed by `/hour/object`. */
  lemma LocationIsDayDirectory(bucket: string, p: KeyParts)
    ensures ObjectUri(bucket, KeyPath(p)) == PartitionLocation(bucket, p) + "/" + p.hour + "/" + p.objectName
  {
    var parts := [p.table, p.year, p.month, p.day, p.hour, p.objectName];
    assert Join(parts[5..], '/') == p.objectName;
    assert Join(parts[4..], '/') == p.hour + "/" + p.objectName;
    assert Join(parts[3..], '/') == p.day + "/" + p.hour + "/" + p.objectName;
    assert Join(parts[2..], '/') == p.month + "/" + p.day + "/" + p.hour + "/" + p.objectName;
    assert Join(parts[1..], '/') == p.year + "/" + p.month + "/" + p.day + "/" + p.hour + "/" + p.objectName;
  }

  /** The table, year, month and day joined with `/`. */
  lemma DayPathJoin(p: KeyParts)
    ensures Join([p.table, p.year, p.month, p.day], '/') == p.table + "/" + p.year + "/" + p.month + "/" + p.day
  {
    var parts := [p.table, p.year, p.month, p.day];
    assert Join(parts[3..], '/') == p.day;
    assert Join(parts[2..], '/') == p.month + "/" + p.day;
    assert Join(parts[1..], '/') == p.year + "/" + p.month + "/" + p.day;
  }

  /** The location is the `/`-join of `s3:`, an empty segment, bucket, table, year, month and day. */
  lemma LocationJoin(bucket: string, p: KeyParts)
    ensures PartitionLocation(bucket, p) == Join(["s3:", "", bucket, p.table, p.year, p.month, p.day], '/')
  {
    var parts := ["s3:", "", bucket, p.table, p.year, p.month, p.day];
    var tail := Join(parts[3..], '/');
    assert parts[3..] == [p.table, p.year, p.month, p.day];
    DayPathJoin(p);
    assert Join(parts[2..], '/') == bucket + "/" + tail;
    assert Join(parts[1..], '/') == "" + "/" + bucket + "/" + tail;
  }

  /**
   * The location spells exactly `s3:`, an empty segment, bucket, table, year,
   * month and day: seven segments, none of them the hour.
   */
  lemma LocationSegments(bucket: string, p: KeyParts)
    requires '/' !in bucket && WellFormedParts(p)
    ensures Split(PartitionLocation(bucket, p), '/') == ["s3:", "", bucket, p.table, p.year, p.month, p.day]
  {
    var key := [p.table, p.year, p.month, p.day, p.hour, p.objectName];
    assert key[0] == p.table && key[1] == p.year && key[2] == p.month && key[3] == p.day;
    LocationJoin(bucket, p);
    SplitJoin(["s3:", "", bucket, p.table, p.year, p.month, p.day], '/');
  }

  /**
   * Two objects of the same day but different hours get the same location
   * and different partition values: every hour partition of a day points at
   * the whole day directory.
   */
  lemma HoursShareLocation(bucket: string, p: KeyParts, q: KeyParts)
    requires p.table == q.table && p.year == q.year && p.month == q.month && p.day == q.day
    requires p.table in TableColumnSchemas && p.hour != q.hour
    ensures ExpectedRequest(bucket, p).partition.storageDescriptor == ExpectedRequest(bucket, q).partition.storageDescriptor
    ensures ExpectedRequest(bucket, p).partition.values != ExpectedRequest(bucket, q).partition.values
  {
  }

  // ---------------------------------------------------------------------------
  // Properties of the whole per-record transformation

  /** A record yields a request exactly when its key has six segments and names a known table; otherwise the error says which check failed, the segment count first. */
  lemma BuildRequestOutcome(rec: Record)
    ensures BuildRequest(rec).Success? <==>
      Occurrences(rec.key, '/') == 5 && Split(rec.key, '/')[0] in TableColumnSchemas
    ensures Occurrences(rec.key, '/') != 5 ==>
      BuildRequest(rec) == Failure(UnpackError(Occurrences(rec.key, '/') + 1))
    ensures Occurrences(rec.key, '/') == 5 && Split(rec.key, '/')[0] !in TableColumnSchemas ==>
      BuildRequest(rec) == Failure(UnknownTable(Split(rec.key, '/')[0]))
  {
    SplitLength(rec.key, '/');
    ParseKeyOutcome(rec.key);
  }

  /**
   * For every bucket and every six '/'-free segments of a known table, the
   * request for `table/year/month/day/hour/object` targets `table` with values
   * `[year-month-day, hour]`, the table's schema and the day-directory location.
   */
  lemma BuildRequestOfKey(bucket: string, p: KeyParts)
    requires WellFormedParts(p) && p.table in TableColumnSchemas
    ensures BuildRequest(Record(bucket, KeyPath(p))) == Success(ExpectedRequest(bucket, p))
    ensures var r := ExpectedRequest(bucket, p);
      r.tableName == p.table &&
      r.partition.values == [p.year + "-" + p.month + "-" + p.day, p.hour] &&
      r.partition.storageDescriptor.columns == TableColumnSchemas[p.table] &&
      r.partition.storageDescriptor.location + "/" + p.hour + "/" + p.objectName == ObjectUri(bucket, KeyPath(p))
  {
    ParseKeyPath(p);
    LocationIsDayDirectory(bucket, p);
  }

  /**
   * The converse of BuildRequestOfKey: every record that yields a request has
   * a key made of six '/'-free segments of a known table, and the request is
   * the one those segments determine.
   */
  lemma BuildRequestParts(rec: Record)
    requires BuildRequest(rec).Success?
    ensures exists p :: (WellFormedParts(p) && KeyPath(p) == rec.key && p.table in TableColumnSchemas &&
                         BuildRequest(rec) == Success(ExpectedRequest(rec.bucket, p)))
  {
    ParseKeyOutcome(rec.key);
    var p := ParseKey(rec.key).value;
    assert WellFormedParts(p) && KeyPath(p) == rec.key;
  }

  /**
   * The descriptors of any two requests agree on every field but `columns`
   * and `location`: the format, SerDe, bucketing, sorting, skew and
   * compression settings do not depend on the record.
   */
  lemma DescriptorConstantFields(r1: Record, r2: Record)
    requires BuildRequest(r1).Success? && BuildRequest(r2).Success?
    ensures var d1 := BuildRequest(r1).value.partition.storageDescriptor;
      var d2 := BuildRequest(r2).value.partition.storageDescriptor;
      d1.(columns := d2.columns, location := d2.location) == d2
    ensures var d := BuildRequest(r1).value.partition.storageDescriptor;
      d.numberOfBuckets == -1 && !d.compressed && !d.storedAsSubDirectories &&
      d.inputFormat == TextInputFormat && d.outputFormat == HiveIgnoreKeyTextOutputFormat &&
      d.serdeInfo == SerDeInfo(JsonSerDe, map["serialization.format" := "1"]) &&
      d.bucketColumns == [] && d.sortColumns == [] && d.parameters == map[] &&
      d.skewedInfo == SkewedInfo([], [], map[])
  {
  }
}
